/**
  The type-expression resolver (src/branch.rs): classifies a field type and
  either renames its leaf, looks through a transparent wrapper, or fails.
 */
module Branch {
  import opened Results
  import opened Syntax
  import opened Extract

  /** Arrays, groups, parentheses and slices are looked through. */
  predicate IsTransparent(t: Type) {
    t.Array? || t.Group? || t.Paren? || t.Slice?
  }

  /** The element type under any number of transparent wrappers. */
  function Peel(t: Type): (r: Type)
    ensures !IsTransparent(r)
  {
    if IsTransparent(t) then Peel(t.elem) else t
  }

  /** `resolve_path_and_mock`: only the last segment's identifier gains `Mock`. */
  function ResolvePathAndMock(qself: Option<QSelf>, path: Path): (r: Result<MockPrepared>)
    ensures r.Ok? <==> |path.segments| > 0
    ensures r.Fail? ==> r.error == UnwrapNone
    ensures r.Ok? ==>
      var n := |path.segments|;
      var m := r.value.mockedType;
      && r.value.stream.None?
      && m.TypePath? && m.qself == qself && m.path.leadingColon == path.leadingColon
      && |m.path.segments| == n
      && m.path.segments[..n - 1] == path.segments[..n - 1]
      && Last(m.path.segments).arguments == Last(path.segments).arguments
      && StripMockSuffix(Last(m.path.segments).ident) == Some(Last(path.segments).ident)
  {
    if |path.segments| == 0 then Fail(UnwrapNone)
    else
      var n := |path.segments|;
      var leaf := path.segments[n - 1];
      var renamed := leaf.(ident := MockIdent(leaf.ident));
      Ok(MockPrepared(TypePath(qself, path.(segments := path.segments[n - 1 := renamed])), None))
  }

  /** `create_mock`: `quote!` does not interpolate the argument, so the struct is
      always called `mock_name`. */
  function CreateMock(mockName: string): (r: ItemStruct)
    ensures r.ident == "mock_name"
    ensures r.attrs == [] && r.generics.params == [] && r.fields == Named([])
  {
    ItemStruct([], Inherited, "mock_name", Generics([], None), Named([]))
  }

  /** The side declaration does not depend on the name it is given. */
  lemma CreateMockIgnoresName(a: string, b: string)
    ensures CreateMock(a) == CreateMock(b)
  {
  }

  /** `mock_and_impl_trait_for_it`: the bound name and the side struct
      (`CreateMock`) are built and then discarded, because the mocked type is
      `todo!()`; so `impl Trait` and `dyn Trait` never resolve. */
  function MockAndImplTraitForIt(bounds: seq<TypeParamBound>): (r: Result<MockPrepared>)
    ensures r == Fail(NotImplemented)
  {
    Fail(NotImplemented)
  }

  /** `get_mocking_candidate`. */
  function MockingCandidate(t: Type): (r: Result<MockPrepared>)
    ensures var leaf := Peel(t);
      r.Ok? <==> leaf.TypePath? && leaf.qself.None? && |leaf.path.segments| > 0
    ensures var leaf := Peel(t);
      leaf.TypePath? && leaf.qself.None? ==> r == ResolvePathAndMock(None, leaf.path)
    ensures var leaf := Peel(t);
      leaf.Infer? || leaf.Unknown? ==> r == Fail(Unreachable)
    ensures var leaf := Peel(t);
      !leaf.Infer? && !leaf.Unknown? && !(leaf.TypePath? && leaf.qself.None?) ==> r == Fail(NotImplemented)
    ensures r.Ok? ==> r.value.stream.None? && r.value.mockedType.TypePath? && r.value.mockedType.qself.None?
  {
    match t
    case Array(elem, _) => MockingCandidate(elem)
    case BareFn(_) => Fail(NotImplemented)
    case Group(elem) => MockingCandidate(elem)
    case ImplTrait(bounds) => MockAndImplTraitForIt(bounds)
    case Infer => Fail(Unreachable)
    case Macro(_) => Fail(NotImplemented)
    case Never => Fail(NotImplemented)
    case Paren(elem) => MockingCandidate(elem)
    case TypePath(Some(_), _) => Fail(NotImplemented)
    case TypePath(None, path) => ResolvePathAndMock(None, path)
    case Ptr(_, _) => Fail(NotImplemented)
    case Reference(_, _, _) => Fail(NotImplemented)
    case Slice(elem) => MockingCandidate(elem)
    case TraitObject(bounds) => MockAndImplTraitForIt(bounds)
    case Tuple(_) => Fail(NotImplemented)
    case Verbatim(_) => Fail(NotImplemented)
    case Unknown(_) => Fail(Unreachable)
  }

  /** A wrapper resolves exactly as its element: the container is dropped. */
  lemma WrappersAreTransparent(t: Type, len: Tokens)
    ensures MockingCandidate(Array(t, len)) == MockingCandidate(t)
    ensures MockingCandidate(Group(t)) == MockingCandidate(t)
    ensures MockingCandidate(Paren(t)) == MockingCandidate(t)
    ensures MockingCandidate(Slice(t)) == MockingCandidate(t)
  {
  }

  /** The name extracted from the resolved type is the mock name derived from the
      name of the type it replaces: the resolver and the deriver agree. */
  lemma ResolvedNameIsMockName(t: Type)
    requires MockingCandidate(t).Ok?
    ensures var mocked := MockingCandidate(t).value.mockedType;
      var original := ExtractName(Peel(t));
      && (original.Ok? ==> ExtractName(mocked) == Ok(PrepareMockName(original.value)))
      && (original.Fail? ==> ExtractName(mocked) == original)
  {
  }

  /** `Foo` resolves to `FooMock` and `qow::Fow` to `qow::FowMock`. */
  lemma ResolveExamples()
    ensures MockingCandidate(TypePath(None, Path(false, [PathSegment("Foo", NoArgs)])))
         == Ok(MockPrepared(TypePath(None, Path(false, [PathSegment("FooMock", NoArgs)])), None))
    ensures MockingCandidate(TypePath(None, Path(false, [PathSegment("qow", NoArgs), PathSegment("Fow", NoArgs)])))
         == Ok(MockPrepared(TypePath(None, Path(false, [PathSegment("qow", NoArgs), PathSegment("FowMock", NoArgs)])), None))
  {
    var foo := [PathSegment("Foo", NoArgs)];
    assert MockIdent("Foo") == "FooMock";
    assert foo[0 := PathSegment("FooMock", NoArgs)] == [PathSegment("FooMock", NoArgs)];
    var qow := [PathSegment("qow", NoArgs), PathSegment("Fow", NoArgs)];
    assert MockIdent("Fow") == "FowMock";
    assert qow[1 := PathSegment("FowMock", NoArgs)] == [PathSegment("qow", NoArgs), PathSegment("FowMock", NoArgs)];
  }
}
