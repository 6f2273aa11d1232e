/**
  A simplified form of the Rust syntax tree the macro crate reads and writes
  (the parts of `syn` the rewriting pass inspects). Token streams that the
  pass copies without looking inside are kept opaque as `Tokens`.
 */
module Syntax {
  import opened Results

  type Ident = string

  /** Opaque token text: attribute payloads, generic argument lists, patterns. */
  type Tokens = seq<string>

  datatype PathArguments =
    | NoArgs
    | Angle(args: Tokens)            // `Foo<A, B>`
    | Parenthesized(inputs: Tokens)  // `Fn(A) -> B`

  datatype PathSegment = PathSegment(ident: Ident, arguments: PathArguments)

  datatype Path = Path(leadingColon: bool, segments: seq<PathSegment>)

  /** `?Sized` carries `Maybe`; a plain bound carries `NoModifier`. */
  datatype BoundModifier = NoModifier | Maybe

  datatype TypeParamBound =
    | TraitBound(modifier: BoundModifier, path: Path)
    | LifetimeBound(lifetime: Ident)

  /** The `<T as Trait>` part of a qualified path. */
  datatype QSelf = QSelf(ty: Type, position: nat)

  /** Every shape of `syn::Type`; `Unknown` stands for the variants a
      non-exhaustive match reaches through its `_` arm. */
  datatype Type =
    | Array(elem: Type, len: Tokens)
    | BareFn(tokens: Tokens)
    | Group(elem: Type)
    | ImplTrait(bounds: seq<TypeParamBound>)
    | Infer
    | Macro(tokens: Tokens)
    | Never
    | Paren(elem: Type)
    | TypePath(qself: Option<QSelf>, path: Path)
    | Ptr(mutable: bool, elem: Type)
    | Reference(lifetime: Option<Ident>, mutable: bool, elem: Type)
    | Slice(elem: Type)
    | TraitObject(bounds: seq<TypeParamBound>)
    | Tuple(elems: seq<Type>)
    | Verbatim(tokens: Tokens)
    | Unknown(tokens: Tokens)

  datatype Meta =
    | MetaPath(path: Path)                     // `#[mocked]`
    | MetaList(path: Path, tokens: Tokens)     // `#[mocked_with(1 + 2)]`
    | MetaNameValue(path: Path, value: Tokens) // `#[doc = "..."]`

  datatype Attribute = Attribute(meta: Meta)

  datatype Visibility = Inherited | Public | Restricted(scope: Tokens)

  datatype Field = Field(attrs: seq<Attribute>, vis: Visibility, ident: Option<Ident>, ty: Type)

  datatype Fields = Named(named: seq<Field>) | Unnamed(unnamed: seq<Field>) | Unit

  datatype GenericParam =
    | TypeParam(ident: Ident, colon: bool, bounds: seq<TypeParamBound>, default: Option<Type>)
    | LifetimeParam(lifetime: Ident, outlives: seq<Ident>)
    | ConstParam(ident: Ident, ty: Type, constDefault: Option<Tokens>)

  datatype Generics = Generics(params: seq<GenericParam>, whereClause: Option<Tokens>)

  datatype ItemStruct = ItemStruct(attrs: seq<Attribute>, vis: Visibility, ident: Ident, generics: Generics, fields: Fields)

  datatype Variant = Variant(attrs: seq<Attribute>, ident: Ident, fields: Fields, discriminant: Option<Tokens>)

  datatype ItemEnum = ItemEnum(attrs: seq<Attribute>, vis: Visibility, ident: Ident, generics: Generics, variants: seq<Variant>)

  datatype Item = StructItem(s: ItemStruct) | EnumItem(e: ItemEnum) | OtherItem(tokens: Tokens)

  datatype FnArg = Receiver(tokens: Tokens) | Typed(pat: Tokens, ty: Type)

  datatype ReturnType = DefaultReturn | ReturnTy(ty: Type)

  datatype Signature = Signature(ident: Ident, generics: Generics, inputs: seq<FnArg>, output: ReturnType)

  datatype ImplItemFn = ImplItemFn(attrs: seq<Attribute>, vis: Visibility, sig: Signature, block: Tokens)

  datatype ImplItemType = ImplItemType(attrs: seq<Attribute>, vis: Visibility, ident: Ident, generics: Generics, ty: Type)

  datatype ImplItem = FnItem(f: ImplItemFn) | TypeItem(t: ImplItemType) | OtherImplItem(tokens: Tokens)

  /** `impl !Trait for T` has `negative` set. */
  datatype TraitRef = TraitRef(negative: bool, path: Path)

  datatype ItemImpl = ItemImpl(attrs: seq<Attribute>, generics: Generics, traitRef: Option<TraitRef>, selfTy: Type, items: seq<ImplItem>)

  function FieldList(fs: Fields): seq<Field> {
    match fs
    case Named(named) => named
    case Unnamed(unnamed) => unnamed
    case Unit => []
  }

  /** `Path::get_ident`: the identifier of a path that is one bare segment. */
  function GetIdent(p: Path): (r: Option<Ident>)
    ensures r.Some? <==> !p.leadingColon && |p.segments| == 1 && p.segments[0].arguments.NoArgs?
    ensures r.Some? ==> r.value == p.segments[0].ident
  {
    if !p.leadingColon && |p.segments| == 1 && p.segments[0].arguments.NoArgs? then Some(p.segments[0].ident)
    else None
  }

  /** `Path::is_ident(name)`. */
  predicate IsIdent(p: Path, name: Ident) {
    GetIdent(p) == Some(name)
  }

  /** `attrs.iter().any(|attr| attr.meta.path().is_ident(name))`. */
  predicate HasAttr(attrs: seq<Attribute>, name: Ident) {
    exists i :: 0 <= i < |attrs| && IsIdent(attrs[i].meta.path, name)
  }

  /** Index `i` holds the first attribute whose path is the identifier `name`. */
  predicate FirstAttr(attrs: seq<Attribute>, i: int, name: Ident) {
    && 0 <= i < |attrs|
    && IsIdent(attrs[i].meta.path, name)
    && forall j :: 0 <= j < i ==> !IsIdent(attrs[j].meta.path, name)
  }

  /** `attrs.iter().find(|attr| attr.meta.path().is_ident(name))`. */
  function FindAttr(attrs: seq<Attribute>, name: Ident): (r: Option<Attribute>)
    ensures r.None? <==> !HasAttr(attrs, name)
    ensures r.Some? ==> exists i :: FirstAttr(attrs, i, name) && attrs[i] == r.value
  {
    if |attrs| == 0 then None
    else if IsIdent(attrs[0].meta.path, name) then
      assert FirstAttr(attrs, 0, name);
      Some(attrs[0])
    else
      var r := FindAttr(attrs[1..], name);
      assert forall j :: 0 < j < |attrs| ==> attrs[j] == attrs[1..][j - 1];
      if r.Some? then
        var k :| FirstAttr(attrs[1..], k, name) && attrs[1..][k] == r.value;
        assert FirstAttr(attrs, k + 1, name);
        r
      else r
  }

  function Last<T>(s: seq<T>): T
    requires |s| > 0
  {
    s[|s| - 1]
  }
}
