/**
  `mutate` (src/mutations.rs): replaces the path of a named field's path type.
 */
module Mutations {
  import opened Results
  import opened Syntax
  import opened Branch
  import opened Toffel

  /** `mutate`: only the replacement's `mocked_type` is read; its stream is ignored. */
  function Mutate(f: Field, replacement: Type): (r: Result<Field>)
    ensures r.Ok? <==> f.ident.Some?
    ensures r.Fail? ==> r.error == NotImplemented
    ensures r.Ok? ==> r.value.ident == f.ident && r.value.attrs == f.attrs && r.value.vis == f.vis
    ensures r.Ok? && f.ty.TypePath? && replacement.TypePath? ==>
      r.value.ty == TypePath(f.ty.qself, replacement.path)
    ensures r.Ok? && !(f.ty.TypePath? && replacement.TypePath?) ==> r.value == f
  {
    if f.ident.Some? then
      if f.ty.TypePath? && replacement.TypePath? then
        Ok(f.(ty := TypePath(f.ty.qself, replacement.path)))
      else Ok(f)
    else Fail(NotImplemented)
  }

  /** Mutating twice with the same replacement is the same as mutating once. */
  lemma MutateIdempotent(f: Field, replacement: Type)
    requires Mutate(f, replacement).Ok?
    ensures Mutate(Mutate(f, replacement).value, replacement) == Mutate(f, replacement)
  {
  }

  /** On a marked named field of unqualified path type, mutating with the resolver's
      output gives the `toffel` type, but keeps the attributes `toffel` clears. */
  lemma MutateAgreesWithToffel(f: Field)
    requires f.ident.Some? && f.ty.TypePath? && f.ty.qself.None?
    requires IsMarked(f) && MockingCandidate(f.ty).Ok?
    ensures Mutate(f, MockingCandidate(f.ty).value.mockedType) == Ok(ToffelField(f).value.(attrs := f.attrs))
  {
  }
}
