/**
  Name extraction, the `Mock` name deriver, and the synthesis of the
  `mock_new` constructor for structs and enums (src/extract.rs).
 */
module Extract {
  import opened Results
  import opened Syntax

  const MockSuffix: string := "Mock"
  const MockNewName: Ident := "mock_new"

  const MockedWith: Ident := "mocked_with"
  const MockedValue: Ident := "mocked_value"
  const MockedValueWith: Ident := "mocked_value_with"

  /** A leaf identifier together with the angle-bracket arguments it carried. */
  datatype Extracted = Extracted(name: Ident, generics: Option<Tokens>)

  /** The substitute type and, for a freshly synthesized type, its side declaration. */
  datatype MockPrepared = MockPrepared(mockedType: Type, stream: Option<ItemStruct>)

  /** Extracted generics written back as the arguments of a path segment. */
  function AsArguments(g: Option<Tokens>): PathArguments {
    match g
    case None => NoArgs
    case Some(args) => Angle(args)
  }

  // ---------------------------------------------------------------------------
  // Name extraction

  /** `ExtractName for Path`: the last segment's identifier and its generics. */
  function PathExtractName(p: Path): (r: Result<Extracted>)
    ensures |p.segments| == 0 ==> r == Fail(UnwrapNone)
    ensures |p.segments| > 0 ==> (r.Ok? <==> !Last(p.segments).arguments.Parenthesized?)
    ensures |p.segments| > 0 && Last(p.segments).arguments.Parenthesized? ==> r == Fail(Unreachable)
    ensures r.Ok? ==> r.value.name == Last(p.segments).ident
    ensures r.Ok? ==> AsArguments(r.value.generics) == Last(p.segments).arguments
  {
    if |p.segments| == 0 then Fail(UnwrapNone)
    else
      var segment := Last(p.segments);
      match segment.arguments
      case Angle(args) => Ok(Extracted(segment.ident, Some(args)))
      case NoArgs => Ok(Extracted(segment.ident, None))
      case Parenthesized(_) => Fail(Unreachable)
  }

  /** Only plain trait bounds take part in naming: no lifetimes, no `?Trait`. */
  predicate Selected(b: TypeParamBound) {
    b.TraitBound? && b.modifier.NoModifier?
  }

  /** The identifiers of a path's segments, concatenated without separator. */
  function SegmentIdents(segments: seq<PathSegment>): string {
    if |segments| == 0 then ""
    else SegmentIdents(segments[..|segments| - 1]) + Last(segments).ident
  }

  /** What one bound adds to the bound name. */
  function Contribution(b: TypeParamBound): string {
    if Selected(b) then SegmentIdents(b.path.segments) else ""
  }

  /** The left fold shared by `extract_name_for_bounds` and
      `mock_and_impl_trait_for_it`. */
  function BoundName(bounds: seq<TypeParamBound>): string {
    if |bounds| == 0 then ""
    else BoundName(bounds[..|bounds| - 1]) + Contribution(Last(bounds))
  }

  /** The bound name of a concatenation is the concatenation of the bound names:
      bounds contribute in declared order. */
  lemma {:induction false} BoundNameAppend(a: seq<TypeParamBound>, b: seq<TypeParamBound>)
    ensures BoundName(a + b) == BoundName(a) + BoundName(b)
    decreases |b|
  {
    if |b| == 0 {
      assert a + b == a;
    } else {
      assert (a + b)[..|a + b| - 1] == a + b[..|b| - 1];
      assert Last(a + b) == Last(b);
      BoundNameAppend(a, b[..|b| - 1]);
    }
  }

  /** A single bound's name is its contribution. */
  lemma BoundNameSingle(b: TypeParamBound)
    ensures BoundName([b]) == Contribution(b)
  {
  }

  /** A lifetime or `?Trait` bound anywhere in the list changes nothing. */
  lemma BoundNameSkipsUnselected(a: seq<TypeParamBound>, b: TypeParamBound, c: seq<TypeParamBound>)
    requires !Selected(b)
    ensures BoundName(a + [b] + c) == BoundName(a + c)
  {
    BoundNameAppend(a + [b], c);
    BoundNameAppend(a, [b]);
    BoundNameAppend(a, c);
    BoundNameSingle(b);
  }

  lemma SegmentIdentsSingle(seg: PathSegment)
    ensures SegmentIdents([seg]) == seg.ident
  {
  }

  /** `impl Foo + ?Sized + 'a + Bar` is named `FooBar`. */
  lemma BoundNameExampleFooBar()
    ensures BoundName([
      TraitBound(NoModifier, Path(false, [PathSegment("Foo", NoArgs)])),
      TraitBound(Maybe, Path(false, [PathSegment("Sized", NoArgs)])),
      LifetimeBound("a"),
      TraitBound(NoModifier, Path(false, [PathSegment("Bar", NoArgs)]))]) == "FooBar"
  {
    var foo := TraitBound(NoModifier, Path(false, [PathSegment("Foo", NoArgs)]));
    var sized := TraitBound(Maybe, Path(false, [PathSegment("Sized", NoArgs)]));
    var lt := LifetimeBound("a");
    var bar := TraitBound(NoModifier, Path(false, [PathSegment("Bar", NoArgs)]));
    SegmentIdentsSingle(PathSegment("Foo", NoArgs));
    SegmentIdentsSingle(PathSegment("Bar", NoArgs));
    BoundNameSingle(foo);
    BoundNameSkipsUnselected([foo], sized, [lt, bar]);
    BoundNameSkipsUnselected([foo], lt, [bar]);
    assert [foo] + [sized] + [lt, bar] == [foo, sized, lt, bar];
    assert [foo] + [lt] + [bar] == [foo] + [lt, bar];
    BoundNameAppend([foo], [bar]);
    BoundNameSingle(bar);
    assert "Foo" + "Bar" == "FooBar";
  }

  /** `dyn std::fmt::Debug` is named `stdfmtDebug`. */
  lemma BoundNameExampleDebug()
    ensures BoundName([TraitBound(NoModifier, Path(false, [
      PathSegment("std", NoArgs), PathSegment("fmt", NoArgs), PathSegment("Debug", NoArgs)]))]) == "stdfmtDebug"
  {
    var debug := [PathSegment("std", NoArgs), PathSegment("fmt", NoArgs), PathSegment("Debug", NoArgs)];
    assert debug[..2] == [PathSegment("std", NoArgs), PathSegment("fmt", NoArgs)];
    assert debug[..2][..1] == [PathSegment("std", NoArgs)];
    SegmentIdentsSingle(PathSegment("std", NoArgs));
    assert "std" + "fmt" + "Debug" == "stdfmtDebug";
    BoundNameSingle(TraitBound(NoModifier, Path(false, debug)));
  }

  /** `extract_name_for_bounds`: `Ident::new` refuses the empty name. */
  function ExtractNameForBounds(bounds: seq<TypeParamBound>): (r: Result<Ident>)
    ensures r.Ok? <==> BoundName(bounds) != ""
    ensures r.Ok? ==> r.value == BoundName(bounds)
    ensures r.Fail? ==> r.error == EmptyIdent
  {
    var name := BoundName(bounds);
    if name == "" then Fail(EmptyIdent) else Ok(name)
  }

  /** `ExtractName for Type`: unqualified paths and `impl Trait` only. */
  function ExtractName(t: Type): (r: Result<Extracted>)
    ensures t.TypePath? && t.qself.None? ==> r == PathExtractName(t.path)
    ensures t.ImplTrait? ==> (r.Ok? <==> BoundName(t.bounds) != "")
    ensures t.ImplTrait? && r.Ok? ==> r.value == Extracted(BoundName(t.bounds), None)
    ensures t.Infer? ==> r == Fail(Unreachable)
    ensures !(t.TypePath? && t.qself.None?) && !t.ImplTrait? && !t.Infer? ==> r == Fail(NotImplemented)
  {
    match t
    case ImplTrait(bounds) =>
      var name :- ExtractNameForBounds(bounds);
      Ok(Extracted(name, None))
    case Infer => Fail(Unreachable)
    case TypePath(None, path) => PathExtractName(path)
    case _ => Fail(NotImplemented)
  }

  // ---------------------------------------------------------------------------
  // The `Mock` suffix

  /** The name a `Mock` suffix was appended to, if it carries one. */
  function StripMockSuffix(s: string): Option<string> {
    if |s| >= |MockSuffix| && s[|s| - |MockSuffix|..] == MockSuffix then Some(s[..|s| - |MockSuffix|])
    else None
  }

  /** `format!("{}Mock", name)`. */
  function MockIdent(name: Ident): (r: Ident)
    ensures StripMockSuffix(r) == Some(name)
    ensures |r| == |name| + |MockSuffix|
  {
    var r := name + MockSuffix;
    assert r[..|name|] == name;
    assert r[|name|..] == MockSuffix;
    r
  }

  /** `prepare_mock_name`: appends `Mock`, generics unchanged. */
  function PrepareMockName(e: Extracted): (r: Extracted)
    ensures r.generics == e.generics
    ensures StripMockSuffix(r.name) == Some(e.name)
  {
    Extracted(MockIdent(e.name), e.generics)
  }

  /** Deriving the mock name loses nothing: distinct names stay distinct. */
  lemma PrepareMockNameInjective(a: Extracted, b: Extracted)
    requires PrepareMockName(a) == PrepareMockName(b)
    ensures a == b
  {
  }

  /** The mock name never equals the name it was derived from, and deriving twice
      doubles the suffix rather than being idempotent. */
  lemma PrepareMockNameNotIdempotent(e: Extracted)
    ensures PrepareMockName(e).name != e.name
    ensures PrepareMockName(PrepareMockName(e)).name == e.name + "MockMock"
    ensures PrepareMockName(PrepareMockName(e)) != PrepareMockName(e)
  {
  }

  // ---------------------------------------------------------------------------
  // The struct constructor

  /** A value expression in generated code. */
  datatype Expr = DefaultCall | Opaque(tokens: Tokens)

  /** `Self {}`, `Self(v, ...)` or `Self { f: v, ... }`. */
  datatype CtorBody = Braced | Positional(values: seq<Expr>) | NamedInit(inits: seq<(Ident, Expr)>)

  /** `impl <implGenerics> selfName <selfGenerics> { pub fn fnName() -> Self { body } }` */
  datatype StructMockNew = StructMockNew(
    implGenerics: seq<GenericParam>, selfName: Ident, selfGenerics: seq<GenericParam>,
    fnName: Ident, body: CtorBody)

  /** The value one field contributes to `mock_new`. */
  function FieldValue(f: Field): (r: Result<Expr>)
    ensures !HasAttr(f.attrs, MockedWith) ==> r == Ok(DefaultCall)
    ensures forall i :: FirstAttr(f.attrs, i, MockedWith) ==>
      && (r.Ok? <==> f.attrs[i].meta.MetaList?)
      && (r.Ok? ==> r.value == Opaque(f.attrs[i].meta.tokens))
      && (r.Fail? ==> r.error == NotImplemented)
  {
    match FindAttr(f.attrs, MockedWith)
    case None => Ok(DefaultCall)
    case Some(a) => if a.meta.MetaList? then Ok(Opaque(a.meta.tokens)) else Fail(NotImplemented)
  }

  /** The identifiers of the named fields, in declaration order. */
  function FieldIdents(fs: seq<Field>): (r: seq<Ident>)
    ensures |r| <= |fs|
    ensures |r| == 0 <==> forall i :: 0 <= i < |fs| ==> fs[i].ident.None?
    ensures (forall i :: 0 <= i < |fs| ==> fs[i].ident.Some?) ==>
      |r| == |fs| && forall i :: 0 <= i < |fs| ==> fs[i].ident == Some(r[i])
  {
    if |fs| == 0 then []
    else
      var rest := FieldIdents(fs[1..]);
      assert forall j :: 0 < j < |fs| ==> fs[j] == fs[1..][j - 1];
      (if fs[0].ident.Some? then [fs[0].ident.value] else []) + rest
  }

  /** `parse_fields_and_generate_for_values`. */
  function GenerateForValues(s: ItemStruct): (r: Result<StructMockNew>)
    ensures var fs := FieldList(s.fields);
      r.Ok? <==> ((forall i :: 0 <= i < |fs| ==> FieldValue(fs[i]).Ok?)
                && (forall i :: 0 <= i < |s.generics.params| ==> !s.generics.params[i].ConstParam?))
    ensures r.Fail? ==> r.error == NotImplemented
    ensures r.Ok? ==> r.value.selfName == s.ident && r.value.fnName == MockNewName
    ensures r.Ok? ==> StripBounds(s.generics) == Ok(Generics(r.value.selfGenerics, s.generics.whereClause))
    ensures r.Ok? ==> (r.value.body.Braced? <==> |FieldList(s.fields)| == 0)
    ensures var fs := FieldList(s.fields);
      r.Ok? && |fs| > 0 && (forall i :: 0 <= i < |fs| ==> fs[i].ident.None?) ==>
        && r.value.body.Positional?
        && |r.value.body.values| == |fs|
        && forall i :: 0 <= i < |fs| ==> FieldValue(fs[i]) == Ok(r.value.body.values[i])
    ensures var fs := FieldList(s.fields);
      r.Ok? && (exists i :: 0 <= i < |fs| && fs[i].ident.Some?) ==>
        r.value.body.NamedInit? && r.value.implGenerics == r.value.selfGenerics
    ensures var fs := FieldList(s.fields);
      r.Ok? && |fs| > 0 && (forall i :: 0 <= i < |fs| ==> fs[i].ident.Some?) ==>
        && r.value.body.NamedInit?
        && |r.value.body.inits| == |fs|
        && forall i :: 0 <= i < |fs| ==>
             fs[i].ident == Some(r.value.body.inits[i].0) && FieldValue(fs[i]) == Ok(r.value.body.inits[i].1)
    ensures r.Ok? && !r.value.body.NamedInit? ==> r.value.implGenerics == s.generics.params
  {
    var fs := FieldList(s.fields);
    var values :- MapAll(FieldValue, fs);
    var idents := FieldIdents(fs);
    var stripped :- StripBounds(s.generics);
    if |idents| == 0 && |values| == 0 then
      Ok(StructMockNew(s.generics.params, s.ident, stripped.params, MockNewName, Braced))
    else if |idents| == 0 then
      Ok(StructMockNew(s.generics.params, s.ident, stripped.params, MockNewName, Positional(values)))
    else
      Ok(StructMockNew(stripped.params, s.ident, stripped.params, MockNewName, NamedInit(Zip(idents, values))))
  }

  // ---------------------------------------------------------------------------
  // The enum constructor

  /** `Self::V`, `Self::V(payload)` or `Self::default()`. */
  datatype VariantCtor = UnitVariant(variant: Ident) | PayloadVariant(variant: Ident, payload: Tokens) | SelfDefault

  /** `impl selfName { pub fn fnName() -> Self { body } }` */
  datatype EnumMockNew = EnumMockNew(selfName: Ident, fnName: Ident, body: VariantCtor)

  predicate AnyMarked(vs: seq<Variant>, name: Ident) {
    exists i :: 0 <= i < |vs| && HasAttr(vs[i].attrs, name)
  }

  /** Index `i` is the first variant carrying an attribute `name`. */
  predicate FirstMarked(vs: seq<Variant>, i: int, name: Ident) {
    && 0 <= i < |vs|
    && HasAttr(vs[i].attrs, name)
    && forall j :: 0 <= j < i ==> !HasAttr(vs[j].attrs, name)
  }

  /** `variants.iter().find(...)`, as an index. */
  function FindVariant(vs: seq<Variant>, name: Ident): (r: Option<nat>)
    ensures r.None? <==> !AnyMarked(vs, name)
    ensures r.Some? ==> FirstMarked(vs, r.value, name)
  {
    if |vs| == 0 then None
    else if HasAttr(vs[0].attrs, name) then Some(0)
    else
      var r := FindVariant(vs[1..], name);
      assert forall j :: 0 < j < |vs| ==> vs[j] == vs[1..][j - 1];
      if r.Some? then Some(r.value + 1) else None
  }

  /** `parse_fields_and_generate_variant`: `mocked_value` beats `mocked_value_with`,
      which beats `Self::default()`; the first carrier in declaration order wins. */
  function GenerateVariant(e: ItemEnum): (r: Result<EnumMockNew>)
    ensures r.Ok? ==> r.value.selfName == e.ident && r.value.fnName == MockNewName
    ensures forall i :: FirstMarked(e.variants, i, MockedValue) ==>
      r == Ok(EnumMockNew(e.ident, MockNewName, UnitVariant(e.variants[i].ident)))
    ensures forall i :: FirstMarked(e.variants, i, MockedValueWith) && !AnyMarked(e.variants, MockedValue) ==>
      var first := e.variants[i].attrs[0];
      if first.meta.MetaList? then
        r == Ok(EnumMockNew(e.ident, MockNewName, PayloadVariant(e.variants[i].ident, first.meta.tokens)))
      else
        r == Fail(Unreachable)
    ensures !AnyMarked(e.variants, MockedValue) && !AnyMarked(e.variants, MockedValueWith) ==>
      r == Ok(EnumMockNew(e.ident, MockNewName, SelfDefault))
  {
    match FindVariant(e.variants, MockedValue)
    case Some(i) => Ok(EnumMockNew(e.ident, MockNewName, UnitVariant(e.variants[i].ident)))
    case None =>
      match FindVariant(e.variants, MockedValueWith)
      case Some(i) =>
        var first := e.variants[i].attrs[0];
        if first.meta.MetaList? then
          Ok(EnumMockNew(e.ident, MockNewName, PayloadVariant(e.variants[i].ident, first.meta.tokens)))
        else
          Fail(Unreachable)
      case None => Ok(EnumMockNew(e.ident, MockNewName, SelfDefault))
  }

  // ---------------------------------------------------------------------------
  // Generics without bounds

  /** `q` is `p` with its bounds cleared, as `extract_generics_from_bounds` does. */
  predicate Stripped(p: GenericParam, q: GenericParam) {
    match p
    case TypeParam(ident, _, _, default) => q == TypeParam(ident, false, [], default)
    case LifetimeParam(_, _) => q == p
    case ConstParam(_, _, _) => false
  }

  function StripParam(p: GenericParam): (r: Result<GenericParam>)
    ensures r.Ok? <==> !p.ConstParam?
    ensures r.Ok? ==> Stripped(p, r.value)
    ensures r.Fail? ==> r.error == NotImplemented
  {
    match p
    case TypeParam(ident, _, _, default) => Ok(TypeParam(ident, false, [], default))
    case LifetimeParam(_, _) => Ok(p)
    case ConstParam(_, _, _) => Fail(NotImplemented)
  }

  /** `extract_generics_from_bounds`. */
  function StripBounds(g: Generics): (r: Result<Generics>)
    ensures r.Ok? <==> forall i :: 0 <= i < |g.params| ==> !g.params[i].ConstParam?
    ensures r.Fail? ==> r.error == NotImplemented
    ensures r.Ok? ==> r.value.whereClause == g.whereClause && |r.value.params| == |g.params|
    ensures r.Ok? ==> forall i :: 0 <= i < |g.params| ==> Stripped(g.params[i], r.value.params[i])
  {
    var params :- MapAll(StripParam, g.params);
    Ok(Generics(params, g.whereClause))
  }

  /** Stripping the bounds twice is the same as stripping them once. */
  lemma StripBoundsIdempotent(g: Generics)
    requires StripBounds(g).Ok?
    ensures StripBounds(StripBounds(g).value) == StripBounds(g)
  {
    var h := StripBounds(g).value;
    forall i | 0 <= i < |h.params|
      ensures StripParam(h.params[i]) == Ok(h.params[i])
    {
      assert Stripped(g.params[i], h.params[i]);
    }
    MapAllIdentity(StripParam, h.params);
  }

  // ---------------------------------------------------------------------------
  // Attribute filtering

  /** The attribute test of `clean_out_attributes`: a bare single-identifier path.
      The comparison with `"mocked"` is mapped and then discarded by `is_some`. */
  predicate IsBareIdentAttr(a: Attribute) {
    a.meta.MetaPath? && GetIdent(a.meta.path).Some?
  }

  /** The attributes `extract_if` pulls out, in their original order. */
  function KeepBareIdents(attrs: seq<Attribute>): (r: seq<Attribute>)
    ensures |r| <= |attrs|
    ensures forall a :: a in r <==> a in attrs && IsBareIdentAttr(a)
  {
    if |attrs| == 0 then []
    else (if IsBareIdentAttr(attrs[0]) then [attrs[0]] else []) + KeepBareIdents(attrs[1..])
  }

  /** Filtering distributes over concatenation, so relative order is kept. */
  lemma {:induction false} KeepBareIdentsAppend(a: seq<Attribute>, b: seq<Attribute>)
    ensures KeepBareIdents(a + b) == KeepBareIdents(a) + KeepBareIdents(b)
  {
    if |a| == 0 {
      assert a + b == b;
    } else {
      assert (a + b)[1..] == a[1..] + b;
      KeepBareIdentsAppend(a[1..], b);
    }
  }

  /** A list of bare identifiers is kept whole, so filtering is idempotent. */
  lemma {:induction false} KeepBareIdentsIdempotent(attrs: seq<Attribute>)
    ensures KeepBareIdents(KeepBareIdents(attrs)) == KeepBareIdents(attrs)
  {
    KeepAllBare(KeepBareIdents(attrs));
  }

  lemma {:induction false} KeepAllBare(attrs: seq<Attribute>)
    requires forall i :: 0 <= i < |attrs| ==> IsBareIdentAttr(attrs[i])
    ensures KeepBareIdents(attrs) == attrs
  {
    if |attrs| > 0 {
      KeepAllBare(attrs[1..]);
    }
  }

  function CleanField(f: Field): Field {
    f.(attrs := KeepBareIdents(f.attrs))
  }

  function CleanFieldList(fs: seq<Field>): (r: seq<Field>)
    ensures |r| == |fs| && forall i :: 0 <= i < |fs| ==> r[i] == CleanField(fs[i])
  {
    seq(|fs|, i requires 0 <= i < |fs| => CleanField(fs[i]))
  }

  function CleanFields(fs: Fields): Fields {
    match fs
    case Named(named) => Named(CleanFieldList(named))
    case Unnamed(unnamed) => Unnamed(CleanFieldList(unnamed))
    case Unit => Unit
  }

  function CleanVariant(v: Variant): Variant {
    v.(attrs := KeepBareIdents(v.attrs))
  }

  /** `clean_out_attributes`: struct fields and enum variants keep only their
      bare-identifier attributes; any other item is refused. */
  function CleanOutAttributes(item: Item): (r: Result<Item>)
    ensures r.Ok? <==> !item.OtherItem?
    ensures item.OtherItem? ==> r == Fail(Unreachable)
    ensures item.StructItem? ==>
      && r.Ok? && r.value.StructItem?
      && r.value.s == item.s.(fields := r.value.s.fields)
      && r.value.s.fields.Named? == item.s.fields.Named?
      && r.value.s.fields.Unnamed? == item.s.fields.Unnamed?
      && |FieldList(r.value.s.fields)| == |FieldList(item.s.fields)|
      && forall i :: 0 <= i < |FieldList(item.s.fields)| ==>
           FieldList(r.value.s.fields)[i] == FieldList(item.s.fields)[i].(attrs := KeepBareIdents(FieldList(item.s.fields)[i].attrs))
    ensures item.EnumItem? ==>
      && r.Ok? && r.value.EnumItem?
      && r.value.e == item.e.(variants := r.value.e.variants)
      && |r.value.e.variants| == |item.e.variants|
      && forall i :: 0 <= i < |item.e.variants| ==>
           r.value.e.variants[i] == item.e.variants[i].(attrs := KeepBareIdents(item.e.variants[i].attrs))
  {
    match item
    case StructItem(s) => Ok(StructItem(s.(fields := CleanFields(s.fields))))
    case EnumItem(e) =>
      Ok(EnumItem(e.(variants := seq(|e.variants|, i requires 0 <= i < |e.variants| => CleanVariant(e.variants[i])))))
    case OtherItem(_) => Fail(Unreachable)
  }
}
