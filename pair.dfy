/**
 * thrust::pair: a pair of fields `first` and `second` that can be built from and
 * assigned from a foreign `std::pair`, takes part in the tuple protocol (`get<N>`,
 * `tuple_size`, `tuple_element`), and is built by `make_pair`, which turns a
 * `std::reference_wrapper` argument into a reference element.
 */
module Pairs {
  import opened Wrappers
  import opened CxxTypes

  /** A foreign `std::pair<T2, U2>` value; its element types convert to T and U as the identity. */
  datatype StdPair<A, B> = StdPair(first: A, second: B)

  class Pair<T, U> {
    var first: T
    var second: U

    /** The constructors inherited from the underlying pair: first and second from two values. */
    constructor (first: T, second: U)
      ensures this.first == first && this.second == second
    {
      this.first := first;
      this.second := second;
    }

    /** Construction from a `std::pair`: each field is copied from the matching field. */
    constructor FromStdPair(other: StdPair<T, U>)
      ensures Get0(this) == other.first && Get1(this) == other.second
    {
      first := other.first;
      second := other.second;
    }

    /**
     * Assignment from a `std::pair`: both fields are overwritten in place, so nothing of
     * their previous values remains, and `*this` is returned.
     */
    method AssignStdPair(other: StdPair<T, U>) returns (self: Pair<T, U>)
      modifies this
      ensures self == this
      ensures Get0(this) == other.first && Get1(this) == other.second
    {
      first := other.first;
      second := other.second;
      self := this;
    }
  }

  /** get<0>(p): the first field; reading never changes the pair. */
  function Get0<T, U>(p: Pair<T, U>): (r: T)
    reads p
    ensures r == p.first
  {
    p.first
  }

  /** get<1>(p): the second field; reading never changes the pair. */
  function Get1<T, U>(p: Pair<T, U>): (r: U)
    reads p
    ensures r == p.second
  {
    p.second
  }

  /** tuple_element<i, pair<T, U>>: the element type at index i, and no type past index 1. */
  function TupleElement(i: nat, t: TypeDesc, u: TypeDesc): (r: Option<TypeDesc>)
    ensures r.Some? <==> i < 2
    ensures r.Some? ==> r.value == [t, u][i]
  {
    if i == 0 then Some(t) else if i == 1 then Some(u) else None
  }

  /** tuple_size<pair<T, U>>: always 2, exactly the indices that have an element type. */
  function TupleSize(t: TypeDesc, u: TypeDesc): (n: nat)
    ensures n == 2
    ensures forall i: nat :: TupleElement(i, t, u).Some? <==> i < n
  {
    2
  }

  /** unwrap_refwrapper<T>: `reference_wrapper<X>` becomes `X&`, every other type is itself. */
  function UnwrapRefwrapper(t: TypeDesc): (r: TypeDesc)
    ensures t.RefWrapper? ==> r == LRef(t.of)
    ensures !t.RefWrapper? ==> r == t
  {
    if t.RefWrapper? then LRef(t.of) else t
  }

  /**
   * unwrap_decay_t<T>: unwrap_refwrapper applied to decay_t<T>. It is plain decay for
   * every type that does not decay to a `reference_wrapper`, and turns
   * `reference_wrapper<X>` (however qualified or referred to) into `X&`; for a well-formed
   * type the result is a reference exactly in the second case, and never an rvalue
   * reference.
   */
  function UnwrapDecay(t: TypeDesc): (r: TypeDesc)
    ensures !Decay(t).RefWrapper? ==> r == Decay(t)
    ensures Decay(t).RefWrapper? ==> r == LRef(Decay(t).of)
    ensures WellFormed(t) && !Decay(t).RefWrapper? ==> Decayed(r)
    ensures WellFormed(t) ==> (r.LRef? <==> Decay(t).RefWrapper?) && !r.RRef?
  {
    UnwrapRefwrapper(Decay(t))
  }

  /** A few instances: `const int&` gives `int`, `reference_wrapper<const int>&` gives `const int&`. */
  lemma UnwrapDecayExamples()
    ensures UnwrapDecay(LRef(Const(Named("int")))) == Named("int")
    ensures UnwrapDecay(RRef(Named("int"))) == Named("int")
    ensures UnwrapDecay(LRef(RefWrapper(Const(Named("int"))))) == LRef(Const(Named("int")))
    ensures UnwrapDecay(Const(RefWrapper(Named("int")))) == LRef(Named("int"))
  {
  }

  /** The element types of `make_pair(x, y)` for arguments of types T and U. */
  function MakePairTypes(t: TypeDesc, u: TypeDesc): (r: (TypeDesc, TypeDesc))
    requires WellFormed(t) && WellFormed(u)
    ensures r.0.LRef? <==> Decay(t).RefWrapper?
    ensures r.1.LRef? <==> Decay(u).RefWrapper?
    ensures !Decay(t).RefWrapper? ==> r.0 == Decay(t)
    ensures !Decay(u).RefWrapper? ==> r.1 == Decay(u)
  {
    (UnwrapDecay(t), UnwrapDecay(u))
  }

  /**
   * An argument of `make_pair` as a value: an ordinary object, or a
   * `std::reference_wrapper` bound to cell `cell` of memory.
   */
  datatype Argument<V> = Object(value: V) | RefWrapperTo(cell: nat)

  /** An element of a pair: a value the pair owns, or a reference bound to a cell of memory. */
  datatype Element<V> = Owned(value: V) | BoundTo(cell: nat)

  /** The argument kind agrees with the argument's type. */
  predicate HasType<V>(a: Argument<V>, t: TypeDesc) {
    a.RefWrapperTo? <==> Decay(t).RefWrapper?
  }

  /** The value-level counterpart of unwrap_decay_t: a wrapper yields a reference to its referent, anything else a copy. */
  function Unwrap<V>(a: Argument<V>): (e: Element<V>)
    ensures a.Object? ==> e == Owned(a.value)
    ensures a.RefWrapperTo? ==> e == BoundTo(a.cell)
  {
    match a
    case Object(v) => Owned(v)
    case RefWrapperTo(c) => BoundTo(c)
  }

  /** The element `make_pair` stores is a reference exactly when unwrap_decay_t says its type is one. */
  lemma UnwrapAgreesWithUnwrapDecay<V>(a: Argument<V>, t: TypeDesc)
    requires WellFormed(t) && HasType(a, t)
    ensures Unwrap(a).BoundTo? <==> UnwrapDecay(t).LRef?
  {
  }

  /** make_pair(x, y): a new pair whose elements are the unwrapped arguments. */
  method MakePair<V>(x: Argument<V>, y: Argument<V>) returns (p: Pair<Element<V>, Element<V>>)
    ensures fresh(p)
    ensures p.first == Unwrap(x) && p.second == Unwrap(y)
  {
    p := new Pair(Unwrap(x), Unwrap(y));
  }

  /** A reference element is bound to a cell of a memory of `size` cells. */
  predicate Within<V>(e: Element<V>, size: nat) {
    e.BoundTo? ==> e.cell < size
  }

  /** The element is a reference bound to cell `c`. */
  predicate RefersTo<V>(e: Element<V>, c: nat) {
    e.BoundTo? && e.cell == c
  }

  /** Reading an element: an owned value, or the current contents of the referenced cell. */
  function ReadElement<V>(e: Element<V>, mem: seq<V>): (v: V)
    requires Within(e, |mem|)
    ensures e.Owned? ==> v == e.value
    ensures e.BoundTo? ==> v == mem[e.cell]
  {
    match e
    case Owned(v) => v
    case BoundTo(c) => mem[c]
  }

  /**
   * `element = x`: a reference element writes through to its cell and stays bound to it;
   * an owned element is overwritten and memory is left alone.
   */
  function AssignElement<V>(e: Element<V>, x: V, mem: seq<V>): (r: (Element<V>, seq<V>))
    requires Within(e, |mem|)
    ensures |r.1| == |mem| && Within(r.0, |mem|)
    ensures ReadElement(r.0, r.1) == x
    ensures e.BoundTo? ==> r.0 == e && r.1 == mem[e.cell := x]
    ensures e.Owned? ==> r.1 == mem
  {
    match e
    case Owned(_) => (Owned(x), mem)
    case BoundTo(c) => (e, mem[c := x])
  }

  /**
   * make_pair with a plain value first and `std::ref(cell c)` second: assigning through
   * the second element is seen at cell c, assigning to the first element is not.
   */
  lemma MakePairWriteThrough<V>(v: V, c: nat, mem: seq<V>, x: V)
    requires c < |mem|
    ensures AssignElement(Unwrap(Argument<V>.RefWrapperTo(c)), x, mem).1[c] == x
    ensures AssignElement(Unwrap(Object(v)), x, mem).1 == mem
  {
  }

  /**
   * Assignment from a `std::pair` to a pair whose members may be references, as
   * `make_pair` builds for `std::ref`; the source's members may be references too, as
   * `std::make_pair(std::ref(a), std::ref(b))` builds. `other.first` is read and
   * assigned to `first`, and only then is `other.second` read and assigned to `second`.
   * A reference member writes through to its cell and stays bound to it; an owned member
   * is overwritten. Afterwards `second` reads back the value read for it, and `first`
   * reads back its value unless both members refer to one cell. Unless `other.second`
   * refers to the cell the first assignment wrote, that value is `other.second` as it
   * was before the assignment.
   */
  method AssignStdPairThrough<V>(p: Pair<Element<V>, Element<V>>, other: StdPair<Element<V>, Element<V>>, mem: array<V>)
    returns (self: Pair<Element<V>, Element<V>>)
    requires Within(p.first, mem.Length) && Within(p.second, mem.Length)
    requires Within(other.first, mem.Length) && Within(other.second, mem.Length)
    modifies p, mem
    ensures self == p
    ensures var a := ReadElement(other.first, old(mem[..]));
            var (f, m1) := AssignElement(old(p.first), a, old(mem[..]));
            var b := ReadElement(other.second, m1);
            var (s, m2) := AssignElement(old(p.second), b, m1);
            p.first == f && p.second == s && mem[..] == m2 &&
            ReadElement(p.second, mem[..]) == b &&
            (!(p.first.BoundTo? && RefersTo(p.second, p.first.cell)) ==> ReadElement(p.first, mem[..]) == a)
    ensures !(old(p.first).BoundTo? && RefersTo(other.second, old(p.first).cell)) ==>
              ReadElement(p.second, mem[..]) == ReadElement(other.second, old(mem[..]))
    ensures old(p.first).BoundTo? ==> p.first == old(p.first)
    ensures old(p.second).BoundTo? ==> p.second == old(p.second)
    ensures Within(p.first, mem.Length) && Within(p.second, mem.Length)
  {
    var a := ReadElement(other.first, mem[..]);
    if p.first.BoundTo? {
      mem[p.first.cell] := a;
    } else {
      p.first := Owned(a);
    }
    var b := ReadElement(other.second, mem[..]);
    if p.second.BoundTo? {
      mem[p.second.cell] := b;
    } else {
      p.second := Owned(b);
    }
    self := p;
  }

  /**
   * make_pair(1, std::ref(cell 0)) assigned from std::pair (5, 6): cell 0 receives 6 and
   * the second member stays bound to it, while the first member now owns 5.
   */
  method AssignThroughReferenceMember() returns (cell: int, first: Element<int>, second: Element<int>)
    ensures cell == 6 && first == Owned(5) && second == BoundTo(0)
  {
    var mem := new int[] [0];
    var p := MakePair(Object(1), RefWrapperTo(0));
    var self := AssignStdPairThrough(p, StdPair(Owned(5), Owned(6)), mem);
    cell, first, second := mem[0], p.first, p.second;
  }

  /**
   * Cells [1, 2], p = make_pair(std::ref(cell 0), std::ref(cell 1)), assigned
   * std::make_pair(std::ref(cell 1), std::ref(cell 0)): cell 0 receives 2, and only then
   * is cell 0 read for the second assignment, so both cells end with 2.
   */
  method AliasedStdPairExample() returns (s: seq<int>)
    ensures s == [2, 2]
  {
    var mem := new int[] [1, 2];
    var p := MakePair(RefWrapperTo(0), RefWrapperTo(1));
    var self := AssignStdPairThrough(p, StdPair(Unwrap(RefWrapperTo(1)), Unwrap(RefWrapperTo(0))), mem);
    s := mem[..];
  }
}
