/**
  The rewrite logic of the `toffel` and `mock` attribute entry points
  (src/lib.rs), and how the three entry points agree on the mock's name.
 */
module Lib {
  import opened Results
  import opened Syntax
  import opened Extract
  import opened Branch
  import opened Pimpl
  import opened Toffel

  /** What the `mock` attribute accepts: a struct or an enum. */
  datatype MockableType = StructType(s: ItemStruct) | EnumType(e: ItemEnum)

  function ItemIdent(m: MockableType): Ident {
    match m
    case StructType(s) => s.ident
    case EnumType(e) => e.ident
  }

  function WithIdent(m: MockableType, name: Ident): (r: MockableType)
    ensures ItemIdent(r) == name
  {
    match m
    case StructType(s) => StructType(s.(ident := name))
    case EnumType(e) => EnumType(e.(ident := name))
  }

  /** The `toffel` entry: named-field structs only; neither the outer attributes,
      the visibility nor the where clause are re-emitted. */
  function ToffelEntry(s: ItemStruct): (r: Result<ItemStruct>)
    ensures !s.fields.Named? ==> r == Fail(NotImplemented)
    ensures s.fields.Named? ==> (r.Ok? <==> forall i :: 0 <= i < |s.fields.named| ==> ToffelField(s.fields.named[i]).Ok?)
    ensures r.Ok? ==>
      && r.value.attrs == [] && r.value.vis == Inherited
      && r.value.ident == s.ident && r.value.generics == Generics(s.generics.params, None)
      && r.value.fields.Named?
      && |r.value.fields.named| == |s.fields.named|
      && forall i :: 0 <= i < |s.fields.named| ==> ToffelField(s.fields.named[i]) == Ok(r.value.fields.named[i])
  {
    match s.fields
    case Named(fs) =>
      var fs' :- MapAll(ToffelField, fs);
      Ok(ItemStruct([], Inherited, s.ident, Generics(s.generics.params, None), Named(fs')))
    case _ => Fail(NotImplemented)
  }

  /** On a named-field struct the entry and `Toffelise` produce the same struct,
      except that the entry drops the outer attributes. */
  lemma ToffelEntryMatchesToffelise(s: ItemStruct)
    requires s.fields.Named?
    ensures ToffelEntry(s).Ok? == ToffelStruct(s).Ok?
    ensures ToffelEntry(s).Ok? ==> ToffelEntry(s).value == ToffelStruct(s).value.(attrs := [])
  {
  }

  /** The `mock` entry: the original, unchanged, followed by a copy named `<Name>Mock`. */
  function MockEntry(item: MockableType): (r: seq<MockableType>)
    ensures |r| == 2 && r[0] == item
    ensures r[1] == WithIdent(item, ItemIdent(r[1]))
    ensures StripMockSuffix(ItemIdent(r[1])) == Some(ItemIdent(item))
  {
    [item, WithIdent(item, MockIdent(ItemIdent(item)))]
  }

  /** Restoring the original name of the copy gives back the original declaration. */
  lemma MockEntryRoundTrip(item: MockableType)
    ensures WithIdent(MockEntry(item)[1], StripMockSuffix(ItemIdent(MockEntry(item)[1])).value) == item
  {
  }

  /** `#[mock] struct Foo` also declares `FooMock`, and `#[mock] enum Bar` declares `BarMock`. */
  lemma MockEntryExamples(s: ItemStruct, e: ItemEnum)
    requires s.ident == "Foo" && e.ident == "Bar"
    ensures ItemIdent(MockEntry(StructType(s))[1]) == "FooMock"
    ensures ItemIdent(MockEntry(EnumType(e))[1]) == "BarMock"
  {
  }

  /** A field of type `Name<...>` marked for `toffel` is given the type whose
      declaration `mock` emitted for `Name`. */
  lemma ToffelTargetsMockCopy(item: MockableType, args: PathArguments)
    ensures var t := TypePath(None, Path(false, [PathSegment(ItemIdent(item), args)]));
      && MockingCandidate(t).Ok?
      && MockingCandidate(t).value.mockedType == TypePath(None, Path(false, [PathSegment(ItemIdent(MockEntry(item)[1]), args)]))
  {
  }

  /** An impl block on `Name<...>` is re-targeted at the type `mock` emitted for `Name`. */
  lemma MockImplTargetsMockCopy(item: MockableType, args: PathArguments, ctx: MockContext, imp: ItemImpl)
    requires imp.selfTy == TypePath(None, Path(false, [PathSegment(ItemIdent(item), args)]))
    requires MockImpl(ctx, imp).Ok?
    ensures MockImpl(ctx, imp).value.selfName == ItemIdent(MockEntry(item)[1])
  {
  }

  /** Two `#[mock]` declarations with distinct names never emit clashing copies. */
  lemma MockCopiesDistinct(a: MockableType, b: MockableType)
    requires ItemIdent(a) != ItemIdent(b)
    ensures ItemIdent(MockEntry(a)[1]) != ItemIdent(MockEntry(b)[1])
  {
  }

  /** `#[toffel] #[derive(Default)] struct Foo { #[assert_field_type = BarMock] #[mocked] foo: Bar }`
      is emitted as `struct Foo { foo: BarMock }`: the entry drops the outer `derive` and
      both field attributes. */
  lemma ToffelEntryExample(vis: Visibility)
    ensures var bar := TypePath(None, Path(false, [PathSegment("Bar", NoArgs)]));
      var barMock := TypePath(None, Path(false, [PathSegment("BarMock", NoArgs)]));
      var derive := Attribute(MetaList(Path(false, [PathSegment("derive", NoArgs)]), ["Default"]));
      var check := Attribute(MetaNameValue(Path(false, [PathSegment("assert_field_type", NoArgs)]), ["BarMock"]));
      var marker := Attribute(MetaPath(Path(false, [PathSegment("mocked", NoArgs)])));
      var s := ItemStruct([derive], vis, "Foo", Generics([], None),
                          Named([Field([check, marker], Inherited, Some("foo"), bar)]));
      ToffelEntry(s) == Ok(ItemStruct([], Inherited, "Foo", Generics([], None), Named([Field([], Inherited, Some("foo"), barMock)])))
  {
    var bar := TypePath(None, Path(false, [PathSegment("Bar", NoArgs)]));
    var check := Attribute(MetaNameValue(Path(false, [PathSegment("assert_field_type", NoArgs)]), ["BarMock"]));
    var marker := Attribute(MetaPath(Path(false, [PathSegment("mocked", NoArgs)])));
    var field := Field([check, marker], Inherited, Some("foo"), bar);
    assert IsIdent(field.attrs[1].meta.path, Mocked);
    assert MockIdent("Bar") == "BarMock";
    assert [PathSegment("Bar", NoArgs)][0 := PathSegment("BarMock", NoArgs)] == [PathSegment("BarMock", NoArgs)];
    var out := ToffelField(field);
    assert out == Ok(Field([], Inherited, Some("foo"), TypePath(None, Path(false, [PathSegment("BarMock", NoArgs)]))));
    var all := MapAll(ToffelField, [field]);
    assert all.Ok? && |all.value| == 1 && all.value[0] == out.value;
    assert all.value == [out.value];
  }
}
