# Thrust proxy reference tuples and pairs, modelled in Dafny

This project models two adapters of Thrust over the C++ tuple protocol.

- `thrust::detail::tuple_of_iterator_references<Ts...>` is the tuple of references that a
  zip-style iterator yields when it is dereferenced. Assigning to it writes through its
  references: from a `thrust::tuple`, from a `thrust::pair`, or from a
  `thrust::reference<thrust::tuple>`. It never rebinds them. It converts to a plain tuple by
  reading every element. It answers `tuple_size` and `tuple_element` for its type arguments.
- `thrust::pair<T, U>` can be built from a `std::pair` and assigned from one. `get<0>` and
  `get<1>` select its fields, and its `tuple_size` is 2. It is built by `make_pair`, whose
  element types come from `unwrap_decay_t`. That is `std::decay`, except that a
  `std::reference_wrapper<X>` turns into `X&`.

C++ references are explicit in the model. Memory is an array `store` of cells, and a
reference is the index of the cell it is bound to. The proxy is a class with `const`
fields: the type arguments, the bound cells `refs`, and the store. Since the fields are
`const`, no assignment can rebind a reference. Every assignment is a method that changes
only `store`. `AssignTuple` and `AssignReference` give the new store as `WriteAll` of the
old one. `WriteAll`, in module `WriteThrough`, is a pure function writing `vals[i]` through
`refs[i]` in ascending index order. `AssignPair` gives the new store as two sequential
writes, each of a value read just before it, and as `WriteAll` unless `second` refers to
reference 0's cell. The
properties of `WriteAll` are proved as lemmas: last write wins, read back after a
distinct-referent write, self-assignment is a no-op, and disjoint proxies do not see each
other. `thrust::pair` is a class whose fields `first` and `second` are updated in place.
Type-level metafunctions work on `CxxTypes.TypeDesc`, a small datatype of C++ type
descriptors. A metafunction that defines no nested `type` returns `None`.

Modules: `Wrappers` (Option), `CxxTypes` (type descriptors, `remove_reference`,
`remove_cv`, `decay`), `WriteThrough` (memory semantics), `Pairs` (thrust/pair.h) and
`ProxyReferences` (thrust/iterator/detail/tuple_of_iterator_references.h).

Two points where the code's behaviour is easy to misread:

- The standard `std::tuple` accepts assignment from a pair only when
  `sizeof...(Types) == 2` (section 23.5.3.2 of ISO C++17, [tuple.assign]). The Thrust code
  (thrust/iterator/detail/tuple_of_iterator_references.h:55-58) only uses `get<0>` and
  `get<1>`, so it also compiles for three or more elements and leaves the later referents
  alone. `AssignPair` therefore requires at least two elements and says
  what happens to the rest.
- The XXX comment at line 73 says only that the `thrust::reference<tuple>` path could be
  accelerated. The obvious acceleration copies each element straight from the referenced
  tuple, and it is not equivalent: `InterleavedDiffersOnOverlap` shows a different result
  when the referenced tuple shares cells with the proxy's referents.
  `InterleavedAgreesWhenDisjoint` shows that the two agree when they share no cell. The code
  reads into a temporary first (lines 73-75), and that is what `AssignReference` models.

## Model

| member | source | states |
|---|---|---|
| CxxTypes.RemoveReference | thrust/pair.h:146 | removes a top-level reference. The result of a well-formed type holds no reference, and a non-reference type is unchanged |
| CxxTypes.RemoveCv | thrust/pair.h:146 | the result has no top-level const or volatile. It holds no reference when the argument holds none, and leaves an unqualified type unchanged |
| CxxTypes.Decay | thrust/pair.h:146 | decaying a well-formed type leaves no reference and no top-level cv-qualifier, and an already decayed type decays to itself |
| CxxTypes.DecayIdempotent | thrust/pair.h:146 | decaying twice equals decaying once |
| CxxTypes.DecayIgnoresQualification | thrust/pair.h:146 | `T&`, `T&&`, `const T`, `volatile T` and `const T&` all decay to what `T` decays to |
| CxxTypes.DecayKeepsPointee | thrust/pair.h:146 | decay strips only the top level: `const (const T*)&` decays to `const T*` |
| WriteThrough.WriteAll | thrust/iterator/detail/tuple_of_iterator_references.h:45-49 | elementwise write through references in index order. The memory size is unchanged, and every cell no reference is bound to keeps its contents |
| WriteThrough.Materialize | thrust/iterator/detail/tuple_of_iterator_references.h:81-83 | reading through the references gives one value per element |
| WriteThrough.LastWriteWins | thrust/iterator/detail/tuple_of_iterator_references.h:45-49 | a cell that receives several writes holds the one written through its last reference |
| WriteThrough.WriteAllDistinct | thrust/iterator/detail/tuple_of_iterator_references.h:45-49 | with distinct referents, cell `refs[i]` holds `vals[i]` for every i |
| WriteThrough.ReadBackAfterWrite | thrust/iterator/detail/tuple_of_iterator_references.h:45-83 | with distinct referents, writing a tuple and converting the proxy back yields that tuple |
| WriteThrough.MaterializeReadsReferents | thrust/iterator/detail/tuple_of_iterator_references.h:81-83 | the converted tuple depends only on the referenced cells |
| WriteThrough.DisjointWriteInvisible | thrust/iterator/detail/tuple_of_iterator_references.h:45-49 | an assignment through one proxy does not change what a proxy over disjoint cells reads |
| WriteThrough.SelfAssignmentIsNoOp | thrust/iterator/detail/tuple_of_iterator_references.h:45-83 | assigning a proxy its own converted value leaves memory unchanged, aliased referents included |
| WriteThrough.TwoWrites | thrust/iterator/detail/tuple_of_iterator_references.h:55-59 | a two-element tuple write is the write of element 0 followed by the write of element 1, the order the pair assignment uses |
| WriteThrough.AliasedPairKeepsSecond | thrust/iterator/detail/tuple_of_iterator_references.h:55-59 | when both referents are one cell, that cell ends with the second value and every other cell is unchanged |
| WriteThrough.CopyInterleaved | thrust/iterator/detail/tuple_of_iterator_references.h:73-75 | the direct copy that reads each source cell just before writing it changes only target cells. This is also what assigning a tuple of references does, since `super_t::operator=` reads each element just before its write |
| WriteThrough.InterleavedAgreesWhenDisjoint | thrust/iterator/detail/tuple_of_iterator_references.h:73-75 | the direct copy equals "read the referenced tuple once, then assign" when source and target cells are disjoint |
| WriteThrough.InterleavedDiffersOnOverlap | thrust/iterator/detail/tuple_of_iterator_references.h:71-76 | on a swap of two cells, "read once, then assign" gives [2, 1] and the direct copy gives [2, 2] |
| ProxyReferences.TupleOfIteratorReferences.constructor | thrust/iterator/detail/tuple_of_iterator_references.h:36-39 | the proxy keeps the backing tuple's types and, at every index, its reference |
| ProxyReferences.TupleOfIteratorReferences.Get | thrust/iterator/detail/tuple_of_iterator_references.h:29-32 | reading element i gives the current contents of the cell that reference i is bound to |
| ProxyReferences.TupleOfIteratorReferences.ToTuple | thrust/iterator/detail/tuple_of_iterator_references.h:81-83 | conversion to a tuple has the proxy's arity, and element i is what `get<i>` reads. It is a read-only function |
| ProxyReferences.TupleOfIteratorReferences.AssignTuple | thrust/iterator/detail/tuple_of_iterator_references.h:43-49 | the new store is `WriteAll` of the old one. Unreferenced cells are unchanged, the references are not rebound, `*this` is returned, and with distinct referents the proxy reads back the assigned tuple |
| ProxyReferences.TupleOfIteratorReferences.AssignPair | thrust/iterator/detail/tuple_of_iterator_references.h:53-59 | reads `first` (a value or a reference) and writes it through reference 0. Only then does it read `second` and write it through reference 1. Later referents are untouched. Unless `second` refers to the cell of reference 0, this is the tuple assignment of the two values read up front, and for arity 2 of the whole proxy. Aliased referents end with `second` |
| ProxyReferences.TupleOfIteratorReferences.AssignReference | thrust/iterator/detail/tuple_of_iterator_references.h:66-77 | the referenced tuple is read once from the memory as it was before any write, and the result is assigned as a tuple. With distinct referents the proxy then converts to the tuple that was read |
| ProxyReferences.TupleElement | thrust/iterator/detail/tuple_of_iterator_references.h:98-114 | the recursive metafunction has a type exactly for indices below the arity, and it is the i-th type argument. The empty list has none |
| ProxyReferences.TupleSize | thrust/iterator/detail/tuple_of_iterator_references.h:93-96 | the number of type arguments, which are exactly the indices `tuple_element` defines |
| ProxyReferences.ProxyArity | thrust/iterator/detail/tuple_of_iterator_references.h:93-96 | a valid proxy's tuple_size equals its number of references and the length of its converted tuple |
| ProxyReferences.WorkedExample | thrust/iterator/detail/tuple_of_iterator_references.h:36-83 | cells (1, 2.0): after assigning (10, 20.0) both cells are written, the conversion gives (10, 20.0), and a direct write of 99 to cell 0 is seen through the proxy |
| ProxyReferences.AliasedPairExample | thrust/iterator/detail/tuple_of_iterator_references.h:55-59 | cells [1, 2] under a proxy over cells 0 and 1, assigned `make_pair(std::ref(cell 1), std::ref(cell 0))`, end as [2, 2], because `second` is read after the first write |
| Pairs.Pair.constructor | thrust/pair.h:77-78 | the inherited constructor from two values sets `first` and `second` |
| Pairs.Pair.FromStdPair | thrust/pair.h:81-85 | construction from `std::pair (a, b)` gives `get<0> == a` and `get<1> == b` |
| Pairs.Pair.AssignStdPair | thrust/pair.h:88-95 | assignment from `std::pair (c, d)` leaves `get<0> == c` and `get<1> == d` with nothing of the old values, and returns `*this` |
| Pairs.Get0 | thrust/pair.h:99-129 | `get<0>` yields `first` and reads the pair without changing it |
| Pairs.Get1 | thrust/pair.h:99-129 | `get<1>` yields `second` and reads the pair without changing it |
| Pairs.TupleElement | thrust/pair.h:183-193 | index 0 gives T and index 1 gives U. No type is defined past index 1 |
| Pairs.TupleSize | thrust/pair.h:179-181 | always 2, which is exactly the number of indices that have an element type |
| Pairs.UnwrapRefwrapper | thrust/pair.h:133-143 | `reference_wrapper<X>` becomes `X&`, and every other type is itself |
| Pairs.UnwrapDecay | thrust/pair.h:145-146 | unwrap_decay_t is plain decay unless the decayed type is a `reference_wrapper<X>`, which gives `X&`. For a well-formed type the result is a reference exactly in that case, and it is never an rvalue reference |
| Pairs.UnwrapDecayExamples | thrust/pair.h:133-146 | `const int&` and `int&&` give `int`; `reference_wrapper<const int>&` gives `const int&`; `const reference_wrapper<int>` gives `int&` |
| Pairs.MakePairTypes | thrust/pair.h:158-160 | each element type of `make_pair` is a reference exactly for a `reference_wrapper` argument, and plain decay otherwise |
| Pairs.Unwrap | thrust/pair.h:158-163 | an ordinary argument is copied into the pair, and a `reference_wrapper` becomes a reference bound to its referent |
| Pairs.UnwrapAgreesWithUnwrapDecay | thrust/pair.h:158-163 | the element `make_pair` stores is a reference exactly when `unwrap_decay_t` of the argument type is one |
| Pairs.MakePair | thrust/pair.h:158-163 | `make_pair(x, y)` is a new pair whose elements are the unwrapped arguments |
| Pairs.ReadElement | thrust/iterator/detail/tuple_of_iterator_references.h:57-58 | reading a pair member gives an owned member's value, or the current contents of the cell a reference member is bound to |
| Pairs.AssignElement | thrust/pair.h:158-163 | assigning to a reference element writes its cell and keeps the binding. Assigning to a value element leaves memory alone. Either way the element then reads the new value |
| Pairs.MakePairWriteThrough | thrust/pair.h:158-163 | for `make_pair(v, std::ref(c))`, a write through the second element is seen at cell c, and a write to the first element leaves memory unchanged |
| Pairs.AssignStdPairThrough | thrust/pair.h:88-95 | assignment from a `std::pair` to a pair, where the members of both may be references. `other.first` is read and assigned before `other.second` is read and assigned. A reference member writes its cell and stays bound, and an owned member is overwritten. `second` then reads back the value read for it, which is the old `other.second` unless that refers to the cell the first assignment wrote. `first` reads back its value unless both members refer to one cell |
| Pairs.AliasedStdPairExample | thrust/pair.h:92-93 | cells [1, 2] under `make_pair(std::ref(cell 0), std::ref(cell 1))`, assigned `std::make_pair(std::ref(cell 1), std::ref(cell 0))`, end as [2, 2], because `other.second` is read after the first write |
| Pairs.AssignThroughReferenceMember | thrust/pair.h:88-95 | `make_pair(1, std::ref(cell 0))` assigned `(5, 6)`: cell 0 holds 6, the second member is still bound to cell 0, and the first member holds 5 |

## Left out

- `THRUST_HOST_DEVICE`, `__thrust_exec_check_disable__`, `noexcept` and `inline` are annotations for the compiler and the two execution contexts. They have no behaviour to model.
- All values in one memory share the Dafny type `V`. The implicit conversions between the `Us...` and the target element types are the identity, and so are the `T2 -> T` and `U2 -> U` conversions of the pair constructor and assignment.
- Compile-time overload resolution and SFINAE are not modelled. What they reject appears as a `requires` clause: equal arity for tuple assignment, at least two elements for pair assignment, an index in range for `get`.
- The internals of `::cuda::std::pair`, `thrust::tuple` and `thrust::reference` are not part of this model. Tuple assignment (`super_t::operator=`) is taken to be elementwise assignment in ascending index order.
- The constructors inherited from `thrust::tuple` (line 32) are not modelled. The only proxy constructor is the one from a backing tuple of references.
- AssignReference: `thrust::reference<tuple>` is an abstract total read function of the memory contents. Its pointer and its memory space are not modelled.
- AssignTuple: the tuple being assigned is passed as values read before the first write. The main source this leaves out is a `thrust::tuple` whose elements are references, such as `thrust::tie(...)` or a `tuple_of_iterator_references` of other element types, which binds to `const thrust::tuple<Us...>&` by derived-to-base deduction. It also leaves out assignment between proxies of the same type, the usual `*out = *in` over zip iterators, which goes through the implicitly declared copy or move assignment and so also forwards to `super_t::operator=`. With `super_t::operator=` taken as elementwise writes in ascending order, such a source is read element by element just before each write. That is exactly `CopyInterleaved`, whose lemmas say when it agrees with `AssignTuple` (source and target cells disjoint) and show that it differs when they overlap.
- Pairs.Pair.AssignStdPair: treats both members of the target and of the source as values, with the source read before the first write. A `std::pair` source whose members are references into this pair's own fields (`p = std::make_pair(std::ref(p.second), std::ref(p.first))`) is therefore not modelled: the fields of the class are not cells of memory, so C++ leaves both fields equal to the old `second` where the model swaps them. `AssignStdPairThrough` models lines 92-93 when the members of the target or source are references into memory. It reads each source member just before its write, assigns through a reference member, and keeps the binding.
- AssignPair, AssignStdPairThrough: a pair member that is a reference refers to a cell of the same memory as the proxy's references. References into a separate memory, or into the owned fields of a pair, are not modelled.
- Get0, Get1: the four `get` overloads differ only in const and value category. They are modelled as one read-only selector each. Writing through the reference that the non-const `get` returns is not modelled, and neither are moves.
- The convenience aliases `thrust::tuple_element` and `thrust::tuple_size` (thrust/pair.h:50-60) only forward to `::cuda::std` and are not modelled separately.
- CxxTypes.Decay: `TypeDesc` has no array or function types, so the array-to-pointer and function-to-pointer cases of `std::decay` are not modelled.
