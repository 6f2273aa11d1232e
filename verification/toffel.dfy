/**
  The `toffel` field-type substitution (src/toffel.rs): every field marked
  `#[mocked]` gets the resolver's type and loses all its attributes.
 */
module Toffel {
  import opened Results
  import opened Syntax
  import opened Extract
  import opened Branch

  const Mocked: Ident := "mocked"

  predicate IsMarked(f: Field) {
    HasAttr(f.attrs, Mocked)
  }

  /** The per-field rule shared by both impls of `Toffelise` and the `toffel` entry. */
  function ToffelField(f: Field): (r: Result<Field>)
    ensures !IsMarked(f) ==> r == Ok(f)
    ensures IsMarked(f) ==> (r.Ok? <==> MockingCandidate(f.ty).Ok?)
    ensures IsMarked(f) && r.Ok? ==> r.value == f.(attrs := [], ty := MockingCandidate(f.ty).value.mockedType)
    ensures IsMarked(f) && r.Fail? ==> r == Fail(MockingCandidate(f.ty).error)
  {
    if IsMarked(f) then
      var prepared :- MockingCandidate(f.ty);
      Ok(f.(attrs := [], ty := prepared.mockedType))
    else Ok(f)
  }

  /** A rewritten field carries no `mocked` marker, so rewriting it again is the identity. */
  lemma ToffelFieldIdempotent(f: Field)
    requires ToffelField(f).Ok?
    ensures ToffelField(ToffelField(f).value) == ToffelField(f)
  {
  }

  /** `Toffelise::replace_mocks` for `ItemStruct`: visibility and the where clause
      are not re-emitted. */
  function ToffelStruct(s: ItemStruct): (r: Result<ItemStruct>)
    ensures s.fields.Unit? ==> r == Fail(Unreachable)
    ensures !s.fields.Unit? ==> (r.Ok? <==> forall i :: 0 <= i < |FieldList(s.fields)| ==> ToffelField(FieldList(s.fields)[i]).Ok?)
    ensures r.Ok? ==>
      && r.value.attrs == s.attrs && r.value.ident == s.ident
      && r.value.vis == Inherited && r.value.generics == Generics(s.generics.params, None)
      && r.value.fields.Named? == s.fields.Named? && r.value.fields.Unnamed? == s.fields.Unnamed?
      && |FieldList(r.value.fields)| == |FieldList(s.fields)|
      && forall i :: 0 <= i < |FieldList(s.fields)| ==> ToffelField(FieldList(s.fields)[i]) == Ok(FieldList(r.value.fields)[i])
  {
    match s.fields
    case Named(fs) =>
      assert FieldList(s.fields) == fs;
      var fs' :- MapAll(ToffelField, fs);
      Ok(ItemStruct(s.attrs, Inherited, s.ident, Generics(s.generics.params, None), Named(fs')))
    case Unnamed(fs) =>
      assert FieldList(s.fields) == fs;
      var fs' :- MapAll(ToffelField, fs);
      Ok(ItemStruct(s.attrs, Inherited, s.ident, Generics(s.generics.params, None), Unnamed(fs')))
    case Unit => Fail(Unreachable)
  }

  /** Rewriting the fields of an already rewritten struct changes nothing. */
  lemma ToffelStructIdempotent(s: ItemStruct)
    requires ToffelStruct(s).Ok?
    ensures ToffelStruct(ToffelStruct(s).value) == ToffelStruct(s)
  {
    var t := ToffelStruct(s).value;
    var fs := FieldList(t.fields);
    forall i | 0 <= i < |fs|
      ensures ToffelField(fs[i]) == Ok(fs[i])
    {
      ToffelFieldIdempotent(FieldList(s.fields)[i]);
    }
    MapAllIdentity(ToffelField, fs);
  }

  /** A struct with no `mocked` field comes back with the same fields. */
  lemma ToffelStructUnmarked(s: ItemStruct)
    requires !s.fields.Unit?
    requires forall i :: 0 <= i < |FieldList(s.fields)| ==> !IsMarked(FieldList(s.fields)[i])
    ensures ToffelStruct(s) == Ok(s.(vis := Inherited, generics := Generics(s.generics.params, None)))
  {
    MapAllIdentity(ToffelField, FieldList(s.fields));
  }

  /** The struct rewrite turns `struct Foo { #[mocked] foo: Bar }` into `struct Foo { foo: BarMock }`. */
  lemma ToffelExample(vis: Visibility)
    ensures var bar := TypePath(None, Path(false, [PathSegment("Bar", NoArgs)]));
      var barMock := TypePath(None, Path(false, [PathSegment("BarMock", NoArgs)]));
      var marker := Attribute(MetaPath(Path(false, [PathSegment("mocked", NoArgs)])));
      var s := ItemStruct([], vis, "Foo", Generics([], None), Named([Field([marker], Inherited, Some("foo"), bar)]));
      ToffelStruct(s) == Ok(ItemStruct([], Inherited, "Foo", Generics([], None), Named([Field([], Inherited, Some("foo"), barMock)])))
  {
    var bar := TypePath(None, Path(false, [PathSegment("Bar", NoArgs)]));
    var marker := Attribute(MetaPath(Path(false, [PathSegment("mocked", NoArgs)])));
    var field := Field([marker], Inherited, Some("foo"), bar);
    assert IsIdent(field.attrs[0].meta.path, Mocked);
    assert MockIdent("Bar") == "BarMock";
    assert [PathSegment("Bar", NoArgs)][0 := PathSegment("BarMock", NoArgs)] == [PathSegment("BarMock", NoArgs)];
    var out := ToffelField(field);
    assert out == Ok(Field([], Inherited, Some("foo"), TypePath(None, Path(false, [PathSegment("BarMock", NoArgs)]))));
    var all := MapAll(ToffelField, [field]);
    assert all.Ok? && |all.value| == 1 && all.value[0] == out.value;
    assert all.value == [out.value];
  }

  /** A tuple variant's marked fields are rewritten; unit variants pass unchanged. */
  function ToffelVariant(v: Variant): (r: Result<Variant>)
    ensures v.fields.Named? ==> r == Fail(Unreachable)
    ensures v.fields.Unit? ==> r == Ok(v)
    ensures v.fields.Unnamed? ==>
      && (r.Ok? <==> forall i :: 0 <= i < |v.fields.unnamed| ==> ToffelField(v.fields.unnamed[i]).Ok?)
      && (r.Ok? ==>
            && r.value == v.(fields := r.value.fields)
            && r.value.fields.Unnamed?
            && |r.value.fields.unnamed| == |v.fields.unnamed|
            && forall i :: 0 <= i < |v.fields.unnamed| ==> ToffelField(v.fields.unnamed[i]) == Ok(r.value.fields.unnamed[i]))
  {
    match v.fields
    case Unnamed(fs) =>
      var fs' :- MapAll(ToffelField, fs);
      Ok(v.(fields := Unnamed(fs')))
    case Unit => Ok(v)
    case Named(_) => Fail(Unreachable)
  }

  /** `Toffelise::replace_mocks` for `ItemEnum`. */
  function ToffelEnum(e: ItemEnum): (r: Result<ItemEnum>)
    ensures r.Ok? <==> forall i :: 0 <= i < |e.variants| ==> ToffelVariant(e.variants[i]).Ok?
    ensures r.Ok? ==>
      && r.value.attrs == e.attrs && r.value.ident == e.ident
      && r.value.vis == Inherited && r.value.generics == Generics(e.generics.params, None)
      && |r.value.variants| == |e.variants|
      && forall i :: 0 <= i < |e.variants| ==> ToffelVariant(e.variants[i]) == Ok(r.value.variants[i])
  {
    var variants :- MapAll(ToffelVariant, e.variants);
    Ok(ItemEnum(e.attrs, Inherited, e.ident, Generics(e.generics.params, None), variants))
  }

  /** Variant names, attributes and order survive, and unit variants are untouched. */
  lemma ToffelEnumKeepsVariants(e: ItemEnum, i: int)
    requires ToffelEnum(e).Ok? && 0 <= i < |e.variants|
    ensures ToffelEnum(e).value.variants[i].ident == e.variants[i].ident
    ensures ToffelEnum(e).value.variants[i].attrs == e.variants[i].attrs
    ensures e.variants[i].fields.Unit? ==> ToffelEnum(e).value.variants[i] == e.variants[i]
  {
  }

  /** Rewriting a rewritten variant changes nothing. */
  lemma ToffelVariantIdempotent(v: Variant)
    requires ToffelVariant(v).Ok?
    ensures ToffelVariant(ToffelVariant(v).value) == ToffelVariant(v)
  {
    if v.fields.Unnamed? {
      var fs := ToffelVariant(v).value.fields.unnamed;
      forall i | 0 <= i < |fs|
        ensures ToffelField(fs[i]) == Ok(fs[i])
      {
        ToffelFieldIdempotent(v.fields.unnamed[i]);
      }
      MapAllIdentity(ToffelField, fs);
    }
  }

  /** Rewriting a rewritten enum changes nothing. */
  lemma ToffelEnumIdempotent(e: ItemEnum)
    requires ToffelEnum(e).Ok?
    ensures ToffelEnum(ToffelEnum(e).value) == ToffelEnum(e)
  {
    var vs := ToffelEnum(e).value.variants;
    forall i | 0 <= i < |vs|
      ensures ToffelVariant(vs[i]) == Ok(vs[i])
    {
      ToffelVariantIdempotent(e.variants[i]);
    }
    MapAllIdentity(ToffelVariant, vs);
  }
}
