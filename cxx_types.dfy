/**
 * A small universe of C++ type descriptors, enough to speak about the element types of
 * a `thrust::pair` built by `make_pair` and of a tuple of iterator references, together
 * with the standard transformations `remove_reference`, `remove_cv` and `decay` that
 * `unwrap_decay_t` is built on (section 23.15.7 of ISO C++17, [meta.trans]).
 */
module CxxTypes {

  datatype TypeDesc =
    | Named(name: string)          // a class or fundamental type: int, double, ...
    | Const(of: TypeDesc)          // const T
    | Volatile(of: TypeDesc)       // volatile T
    | LRef(of: TypeDesc)           // T&
    | RRef(of: TypeDesc)           // T&&
    | Pointer(of: TypeDesc)        // T*
    | RefWrapper(of: TypeDesc)     // std::reference_wrapper<T>

  predicate IsReference(t: TypeDesc) {
    t.LRef? || t.RRef?
  }

  predicate IsCvQualified(t: TypeDesc) {
    t.Const? || t.Volatile?
  }

  /** No reference type occurs anywhere inside `t`. */
  predicate RefFree(t: TypeDesc) {
    match t
    case Named(_) => true
    case LRef(_) => false
    case RRef(_) => false
    case Const(x) => RefFree(x)
    case Volatile(x) => RefFree(x)
    case Pointer(x) => RefFree(x)
    case RefWrapper(x) => RefFree(x)
  }

  /**
   * A descriptor that denotes a C++ type: a reference may only occur at the top
   * (there are no pointers to references, references to references, cv-qualified
   * references or `reference_wrapper`s of references).
   */
  predicate WellFormed(t: TypeDesc) {
    if IsReference(t) then RefFree(t.of) else RefFree(t)
  }

  /** A type as `std::decay` leaves it: no reference and no top-level cv-qualifier. */
  predicate Decayed(t: TypeDesc) {
    RefFree(t) && !IsCvQualified(t)
  }

  /** std::remove_reference_t<T>. */
  function RemoveReference(t: TypeDesc): (r: TypeDesc)
    ensures WellFormed(t) ==> RefFree(r)
    ensures !IsReference(t) ==> r == t
  {
    if IsReference(t) then t.of else t
  }

  /** std::remove_cv_t<T>: strips the top-level const and volatile qualifiers. */
  function RemoveCv(t: TypeDesc): (r: TypeDesc)
    ensures !IsCvQualified(r)
    ensures RefFree(t) ==> RefFree(r)
    ensures !IsCvQualified(t) ==> r == t
  {
    if IsCvQualified(t) then RemoveCv(t.of) else t
  }

  /** std::decay_t<T> on the descriptors above (no array or function types). */
  function Decay(t: TypeDesc): (r: TypeDesc)
    ensures WellFormed(t) ==> Decayed(r)
    ensures Decayed(t) ==> r == t
  {
    RemoveCv(RemoveReference(t))
  }

  /** Decaying twice is decaying once. */
  lemma DecayIdempotent(t: TypeDesc)
    requires WellFormed(t)
    ensures Decay(Decay(t)) == Decay(t)
  {
  }

  /**
   * Decay ignores how the argument is qualified: a reference to `t`, an rvalue reference
   * to `t` and a cv-qualified `t` all decay to what `t` decays to.
   */
  lemma DecayIgnoresQualification(t: TypeDesc)
    requires RefFree(t)
    ensures Decay(LRef(t)) == Decay(t)
    ensures Decay(RRef(t)) == Decay(t)
    ensures Decay(Const(t)) == Decay(t)
    ensures Decay(Volatile(t)) == Decay(t)
    ensures Decay(LRef(Const(t))) == Decay(t)
  {
  }

  /** Only the top level is touched: the pointee of a pointer keeps its qualifiers. */
  lemma DecayKeepsPointee(t: TypeDesc)
    requires RefFree(t)
    ensures Decay(LRef(Const(Pointer(Const(t))))) == Pointer(Const(t))
  {
  }
}
