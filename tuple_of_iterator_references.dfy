/**
 * thrust::detail::tuple_of_iterator_references<Ts...>: the tuple of references a zip-style
 * iterator yields when dereferenced. Its elements are references into memory (here the
 * array `store`, a reference being the index of its cell); assignment writes through
 * them, in ascending index order, and never rebinds them.
 */
module ProxyReferences {
  import opened Wrappers
  import opened CxxTypes
  import opened WriteThrough
  import Pairs

  /** A thrust::tuple<Ts...> of references: the declared reference types and the cells they are bound to. */
  datatype RefTuple = RefTuple(types: seq<TypeDesc>, refs: seq<nat>)

  class TupleOfIteratorReferences<V> {
    /** The type arguments Ts... */
    const types: seq<TypeDesc>
    /** The cell each element reference is bound to; references cannot be rebound. */
    const refs: seq<nat>
    /** The memory every element reference points into. */
    const store: array<V>

    ghost predicate Valid()
      reads this
    {
      |types| == |refs| && InMemory(refs, store.Length)
    }

    /** Implicit construction from a tuple of references: the same reference at every index. */
    constructor (backing: RefTuple, store: array<V>)
      requires |backing.types| == |backing.refs| && InMemory(backing.refs, store.Length)
      ensures Valid() && this.store == store
      ensures types == backing.types
      ensures refs == backing.refs
    {
      types := backing.types;
      refs := backing.refs;
      this.store := store;
    }

    /** Reading get<i>(*this): the current contents of the cell element i refers to. */
    function Get(i: nat): (v: V)
      reads this, store
      requires Valid() && i < |refs|
      ensures v == store[refs[i]]
    {
      store[refs[i]]
    }

    /** Conversion to a plain tuple: each element read through its reference, in index order. */
    function ToTuple(): (t: seq<V>)
      reads this, store
      requires Valid()
      ensures |t| == |refs|
      ensures forall i :: 0 <= i < |refs| ==> t[i] == Get(i)
    {
      Materialize(store[..], refs)
    }

    /**
     * Assignment from a tuple of the same arity: `other[i]` is written through reference
     * i for i = 0, 1, ... in that order. Only referenced cells change; with distinct
     * referents reading the proxy back yields `other`.
     */
    method AssignTuple(other: seq<V>) returns (self: TupleOfIteratorReferences<V>)
      requires Valid() && |other| == |refs|
      modifies store
      ensures self == this
      ensures store[..] == WriteAll(old(store[..]), refs, other)
      ensures forall c :: 0 <= c < store.Length && c !in refs ==> store[c] == old(store[c])
      ensures Distinct(refs) ==> ToTuple() == other
    {
      ghost var before := store[..];
      var i := 0;
      while i < |refs|
        invariant 0 <= i <= |refs|
        invariant store[..] == WriteAll(before, refs[..i], other[..i])
      {
        store[refs[i]] := other[i];
        assert refs[..i + 1][..i] == refs[..i] && other[..i + 1][..i] == other[..i];
        i := i + 1;
      }
      assert refs[..i] == refs && other[..i] == other;
      if Distinct(refs) {
        ReadBackAfterWrite(before, refs, other);
      }
      self := this;
    }

    /**
     * Assignment from a thrust::pair, whose members may themselves be references (as
     * `make_pair(std::ref(a), std::ref(b))` builds): `first` is read and written through
     * reference 0, and only then is `second` read and written through reference 1. It
     * needs at least two elements; any further referents are left alone. Unless `second`
     * refers to the cell reference 0 is bound to, this is the tuple assignment of the two
     * values read up front; if the two referents alias, the cell ends up holding `second`.
     */
    method AssignPair(other: Pairs.Pair<Pairs.Element<V>, Pairs.Element<V>>) returns (self: TupleOfIteratorReferences<V>)
      requires Valid() && |refs| >= 2
      requires Pairs.Within(other.first, store.Length) && Pairs.Within(other.second, store.Length)
      modifies store
      ensures self == this
      ensures var mid := old(store[..])[refs[0] := Pairs.ReadElement(other.first, old(store[..]))];
              store[..] == mid[refs[1] := Pairs.ReadElement(other.second, mid)]
      ensures var vals := [Pairs.ReadElement(other.first, old(store[..])), Pairs.ReadElement(other.second, old(store[..]))];
              !Pairs.RefersTo(other.second, refs[0]) ==>
                store[..] == WriteAll(old(store[..]), refs[..2], vals) &&
                (|refs| == 2 ==> store[..] == WriteAll(old(store[..]), refs, vals))
      ensures refs[0] == refs[1] ==> store[refs[0]] == Pairs.ReadElement(other.second, old(store[..])[refs[0] := Pairs.ReadElement(other.first, old(store[..]))])
    {
      ghost var before := store[..];
      var a := Pairs.ReadElement(other.first, store[..]);
      store[refs[0]] := a;
      var b := Pairs.ReadElement(other.second, store[..]);
      store[refs[1]] := b;
      TwoWrites(before, refs[..2], a, Pairs.ReadElement(other.second, before));
      assert |refs| == 2 ==> refs[..2] == refs;
      self := this;
    }

    /**
     * Assignment from a thrust::reference<tuple>: the referenced tuple is read once, by
     * `read`, from memory as it is before any write, into a temporary that is then
     * assigned as a tuple.
     */
    method AssignReference(read: seq<V> -> seq<V>) returns (self: TupleOfIteratorReferences<V>)
      requires Valid() && |read(store[..])| == |refs|
      modifies store
      ensures self == this
      ensures store[..] == WriteAll(old(store[..]), refs, read(old(store[..])))
      ensures Distinct(refs) ==> ToTuple() == read(old(store[..]))
    {
      var otherTuple := read(store[..]);
      self := AssignTuple(otherTuple);
    }
  }

  /**
   * tuple_element<i, tuple_of_iterator_references<Ts...>> as Thrust defines it, by
   * recursion on the type list: no nested type for the empty list, the head for index 0,
   * and otherwise the element i - 1 of the tail. It is the i-th type argument, and it is
   * defined exactly for the indices below the arity.
   */
  function TupleElement(i: nat, ts: seq<TypeDesc>): (r: Option<TypeDesc>)
    ensures r.Some? <==> i < |ts|
    ensures r.Some? ==> r.value == ts[i]
    decreases ts
  {
    if ts == [] then None
    else if i == 0 then Some(ts[0])
    else TupleElement(i - 1, ts[1..])
  }

  /** tuple_size<tuple_of_iterator_references<Ts...>>: the number of type arguments, exactly the defined indices. */
  function TupleSize(ts: seq<TypeDesc>): (n: nat)
    ensures n == |ts|
    ensures forall i: nat :: TupleElement(i, ts).Some? <==> i < n
  {
    |ts|
  }

  /** The arity of a proxy, taken from the object: it holds one reference per type argument. */
  lemma ProxyArity<V>(p: TupleOfIteratorReferences<V>)
    requires p.Valid()
    ensures TupleSize(p.types) == |p.refs| == |p.ToTuple()|
  {
  }

  /** The values in the worked example below: an int and a double. */
  datatype Scalar = IntVal(i: int) | DoubleVal(d: real)

  /**
   * Cells x = 1 and y = 2.0 under a proxy (int&, double&): assigning (10, 20.0) writes
   * both cells; the proxy converts to (10, 20.0); after x is set to 99 directly, element 0
   * of the proxy reads 99, since the proxy holds references and not copies.
   */
  method WorkedExample() returns (x: Scalar, y: Scalar, t: seq<Scalar>, x2: Scalar)
    ensures x == IntVal(10) && y == DoubleVal(20.0)
    ensures t == [IntVal(10), DoubleVal(20.0)]
    ensures x2 == IntVal(99)
  {
    var store := new Scalar[] [IntVal(1), DoubleVal(2.0)];
    var types := [LRef(Named("int")), LRef(Named("double"))];
    var p := new TupleOfIteratorReferences(RefTuple(types, [0, 1]), store);
    var self := p.AssignTuple([IntVal(10), DoubleVal(20.0)]);
    x, y := store[0], store[1];
    assert WriteAll([IntVal(1), DoubleVal(2.0)], [0, 1], [IntVal(10), DoubleVal(20.0)])
        == [IntVal(10), DoubleVal(20.0)] by {
      TwoWrites([IntVal(1), DoubleVal(2.0)], [0, 1], IntVal(10), DoubleVal(20.0));
    }
    t := p.ToTuple();
    store[0] := IntVal(99);
    x2 := p.Get(0);
  }

  /**
   * Cells [1, 2] under a proxy over cells 0 and 1, assigned make_pair(std::ref(cell 1),
   * std::ref(cell 0)): cell 0 receives 2, and only then is cell 0 read for the second
   * write, so both cells end with 2.
   */
  method AliasedPairExample() returns (s: seq<int>)
    ensures s == [2, 2]
  {
    var store := new int[] [1, 2];
    var p := new TupleOfIteratorReferences(RefTuple([LRef(Named("int")), LRef(Named("int"))], [0, 1]), store);
    var pair := Pairs.MakePair(Pairs.RefWrapperTo(1), Pairs.RefWrapperTo(0));
    var self := p.AssignPair(pair);
    s := store[..];
  }
}
