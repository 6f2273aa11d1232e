/**
  The impl-block rewriter (src/pimpl.rs): re-targets an `impl` block at the
  mock type, substituting the mocked type in parameters, return types and
  associated types, and replacing every method body.
 */
module Pimpl {
  import opened Results
  import opened Syntax
  import opened Extract

  /** Built once per rewritten block from the original self type. */
  datatype MockContext = MockContext(originalType: Type, mockedExtract: Extracted)

  /** The body a rewritten method receives. */
  datatype FnBody =
    | EmptyBody                 // `{}`
    | DefaultBody               // `{ Default::default() }`
    | MockNewCall(target: Ident) // `{ <target>::mock_new() }`

  /** A rewritten item: a method keeps only visibility, name, inputs and output. */
  datatype ImplItemOut =
    | FnOut(vis: Visibility, ident: Ident, inputs: seq<FnArg>, output: ReturnType, body: FnBody)
    | TypeOut(item: ImplItemType)

  /** The emitted block header: `impl <G> Trait<A> for NameMock` or `impl <G> NameMock<A>`. */
  datatype ImplOut =
    | TraitImplOut(implGenerics: seq<GenericParam>, traitName: Ident, traitGenerics: Option<Tokens>,
                   selfName: Ident, items: seq<ImplItemOut>)
    | InherentImplOut(implGenerics: seq<GenericParam>, selfName: Ident, selfGenerics: Option<Tokens>,
                      items: seq<ImplItemOut>)

  /** `NameMock` followed by `generics`, as a one-segment path type. */
  function MockPathType(name: Ident, arguments: PathArguments): Type {
    TypePath(None, Path(false, [PathSegment(name, arguments)]))
  }

  /** `MockContext::new`. */
  function NewContext(originalType: Type): (r: Result<MockContext>)
    ensures r.Ok? <==> ExtractName(originalType).Ok?
    ensures r.Fail? ==> r == Fail(ExtractName(originalType).error)
    ensures r.Ok? ==>
      && r.value.originalType == originalType
      && r.value.mockedExtract.generics == ExtractName(originalType).value.generics
      && StripMockSuffix(r.value.mockedExtract.name) == Some(ExtractName(originalType).value.name)
  {
    var original :- ExtractName(originalType);
    Ok(MockContext(originalType, PrepareMockName(original)))
  }

  /** A context as `MockContext::new` builds it (its fields are private). */
  predicate ValidContext(ctx: MockContext) {
    NewContext(ctx.originalType) == Ok(ctx)
  }

  /** One parameter of `replace_self_from_function_with_mocks`. */
  function ReplaceInput(ctx: MockContext, arg: FnArg): (r: Result<FnArg>)
    ensures arg.Receiver? ==> r == Ok(arg)
    ensures arg.Typed? && (arg.ty != ctx.originalType || !arg.ty.TypePath?) ==> r == Ok(arg)
    ensures arg.Typed? && arg.ty == ctx.originalType && arg.ty.TypePath? ==>
      if |arg.ty.path.segments| == 0 then r == Fail(UnwrapNone)
      else r == Ok(Typed(arg.pat, MockPathType(ctx.mockedExtract.name, Last(arg.ty.path.segments).arguments)))
  {
    match arg
    case Receiver(_) => Ok(arg)
    case Typed(pat, ty) =>
      if ty == ctx.originalType && ty.TypePath? then
        if |ty.path.segments| == 0 then Fail(UnwrapNone)
        else Ok(Typed(pat, MockPathType(ctx.mockedExtract.name, Last(ty.path.segments).arguments)))
      else Ok(arg)
  }

  function ReplaceInputs(ctx: MockContext, inputs: seq<FnArg>): (r: Result<seq<FnArg>>)
    ensures r.Ok? <==> forall i :: 0 <= i < |inputs| ==> ReplaceInput(ctx, inputs[i]).Ok?
    ensures r.Ok? ==> |r.value| == |inputs| && forall i :: 0 <= i < |inputs| ==> ReplaceInput(ctx, inputs[i]) == Ok(r.value[i])
  {
    MapAll(arg => ReplaceInput(ctx, arg), inputs)
  }

  /** Under a valid context a replaced parameter type is never the original type
      again, so a second pass changes nothing. */
  lemma ReplaceInputIdempotent(ctx: MockContext, arg: FnArg)
    requires ValidContext(ctx)
    requires ReplaceInput(ctx, arg).Ok?
    ensures ReplaceInput(ctx, ReplaceInput(ctx, arg).value) == ReplaceInput(ctx, arg)
  {
  }

  /** Rewriting the parameter list twice is the same as rewriting it once. */
  lemma ReplaceInputsIdempotent(ctx: MockContext, inputs: seq<FnArg>)
    requires ValidContext(ctx)
    requires ReplaceInputs(ctx, inputs).Ok?
    ensures ReplaceInputs(ctx, ReplaceInputs(ctx, inputs).value) == ReplaceInputs(ctx, inputs)
  {
    var out := ReplaceInputs(ctx, inputs).value;
    forall i | 0 <= i < |out|
      ensures ReplaceInput(ctx, out[i]) == Ok(out[i])
    {
      ReplaceInputIdempotent(ctx, inputs[i]);
    }
    MapAllIdentity(arg => ReplaceInput(ctx, arg), out);
  }

  /** `replace_self_from_function_with_mocks`. */
  function ReplaceFunction(ctx: MockContext, f: ImplItemFn): (r: Result<ImplItemOut>)
    ensures var original := ExtractName(ctx.originalType);
      r.Ok? <==> && ReplaceInputs(ctx, f.sig.inputs).Ok?
                 && original.Ok?
                 && (f.sig.output.ReturnTy? && f.sig.output.ty.TypePath? ==> PathExtractName(f.sig.output.ty.path).Ok?)
    ensures r.Ok? ==>
      && r.value.FnOut?
      && r.value.vis == f.vis && r.value.ident == f.sig.ident
      && ReplaceInputs(ctx, f.sig.inputs) == Ok(r.value.inputs)
    ensures r.Ok? && f.sig.output.DefaultReturn? ==> r.value.output == DefaultReturn && r.value.body == EmptyBody
    ensures var original := ExtractName(ctx.originalType);
      var out := f.sig.output;
      r.Ok? && out.ReturnTy? && out.ty.TypePath? && Last(out.ty.path.segments).ident == original.value.name ==>
        && r.value.output == ReturnTy(MockPathType(ctx.mockedExtract.name, AsArguments(original.value.generics)))
        && r.value.body == MockNewCall(ctx.mockedExtract.name)
    ensures var original := ExtractName(ctx.originalType);
      var out := f.sig.output;
      r.Ok? && out.ReturnTy? && !(out.ty.TypePath? && Last(out.ty.path.segments).ident == original.value.name) ==>
        r.value.output == out && r.value.body == DefaultBody
  {
    var inputs :- ReplaceInputs(ctx, f.sig.inputs);
    var original :- ExtractName(ctx.originalType);
    match f.sig.output
    case DefaultReturn => Ok(FnOut(f.vis, f.sig.ident, inputs, DefaultReturn, EmptyBody))
    case ReturnTy(ty) =>
      if ty.TypePath? then
        var returned :- PathExtractName(ty.path);
        if returned.name == original.name then
          Ok(FnOut(f.vis, f.sig.ident, inputs,
                   ReturnTy(MockPathType(ctx.mockedExtract.name, AsArguments(original.generics))),
                   MockNewCall(ctx.mockedExtract.name)))
        else
          Ok(FnOut(f.vis, f.sig.ident, inputs, ReturnTy(ty), DefaultBody))
      else
        Ok(FnOut(f.vis, f.sig.ident, inputs, ReturnTy(ty), DefaultBody))
  }

  /** `replace_mocks_in_associated_types`. */
  function ReplaceAssociatedType(ctx: MockContext, item: ImplItemType): (r: Result<ImplItemType>)
    ensures r.Ok? <==> ExtractName(item.ty).Ok? && ExtractName(ctx.originalType).Ok?
    ensures r.Ok? ==> r.value == item.(ty := r.value.ty)
    ensures r.Ok? && ExtractName(item.ty).value.name == ExtractName(ctx.originalType).value.name ==>
      var mocked := PrepareMockName(ExtractName(ctx.originalType).value);
      r.value.ty == MockPathType(mocked.name, AsArguments(mocked.generics))
    ensures r.Ok? && ExtractName(item.ty).value.name != ExtractName(ctx.originalType).value.name ==>
      r.value == item
  {
    var declared :- ExtractName(item.ty);
    var original :- ExtractName(ctx.originalType);
    if declared.name == original.name then
      var mocked := PrepareMockName(original);
      Ok(item.(ty := MockPathType(mocked.name, AsArguments(mocked.generics))))
    else
      Ok(item)
  }

  /** An item of a trait impl: functions and associated types only. */
  function ReplaceTraitItem(ctx: MockContext, item: ImplItem): (r: Result<ImplItemOut>)
    ensures item.FnItem? ==> r == ReplaceFunction(ctx, item.f)
    ensures item.TypeItem? ==>
      && (r.Ok? <==> ReplaceAssociatedType(ctx, item.t).Ok?)
      && (r.Ok? ==> r == Ok(TypeOut(ReplaceAssociatedType(ctx, item.t).value)))
    ensures item.OtherImplItem? ==> r == Fail(NotImplemented)
  {
    match item
    case FnItem(f) => ReplaceFunction(ctx, f)
    case TypeItem(t) =>
      var t' :- ReplaceAssociatedType(ctx, t);
      Ok(TypeOut(t'))
    case OtherImplItem(_) => Fail(NotImplemented)
  }

  /** An item of an inherent impl: functions only. */
  function ReplaceInherentItem(ctx: MockContext, item: ImplItem): (r: Result<ImplItemOut>)
    ensures item.FnItem? ==> r == ReplaceFunction(ctx, item.f)
    ensures !item.FnItem? ==> r == Fail(Unreachable)
  {
    match item
    case FnItem(f) => ReplaceFunction(ctx, f)
    case _ => Fail(Unreachable)
  }

  /** `MockContext::mock_impl`. */
  function MockImpl(ctx: MockContext, imp: ItemImpl): (r: Result<ImplOut>)
    ensures var selfName := ExtractName(imp.selfTy);
      r.Ok? <==> && selfName.Ok?
                 && (imp.traitRef.Some? ==> PathExtractName(imp.traitRef.value.path).Ok?)
                 && forall i :: 0 <= i < |imp.items| ==>
                      if imp.traitRef.Some? then ReplaceTraitItem(ctx, imp.items[i]).Ok?
                      else ReplaceInherentItem(ctx, imp.items[i]).Ok?
    ensures r.Ok? ==>
      && r.value.implGenerics == imp.generics.params
      && StripMockSuffix(r.value.selfName) == Some(ExtractName(imp.selfTy).value.name)
      && |r.value.items| == |imp.items|
    ensures r.Ok? && imp.traitRef.Some? ==>
      var traitPath := imp.traitRef.value.path;
      && r.value.TraitImplOut?
      && r.value.traitName == Last(traitPath.segments).ident
      && AsArguments(r.value.traitGenerics) == Last(traitPath.segments).arguments
      && forall i :: 0 <= i < |imp.items| ==> ReplaceTraitItem(ctx, imp.items[i]) == Ok(r.value.items[i])
    ensures r.Ok? && imp.traitRef.None? ==>
      && r.value.InherentImplOut?
      && r.value.selfGenerics == ExtractName(imp.selfTy).value.generics
      && forall i :: 0 <= i < |imp.items| ==> ReplaceInherentItem(ctx, imp.items[i]) == Ok(r.value.items[i])
  {
    var originalName :- ExtractName(imp.selfTy);
    var name := PrepareMockName(originalName).name;
    match imp.traitRef
    case Some(tr) =>
      var traitName :- PathExtractName(tr.path);
      var items :- MapAll(item => ReplaceTraitItem(ctx, item), imp.items);
      Ok(TraitImplOut(imp.generics.params, traitName.name, traitName.generics, name, items))
    case None =>
      var items :- MapAll(item => ReplaceInherentItem(ctx, item), imp.items);
      Ok(InherentImplOut(imp.generics.params, name, originalName.generics, items))
  }

  /** Under a valid context, a rewritten return type names exactly the mock the
      context was built for: extracting its name gives back `NameMock` with the
      original type's generics. */
  lemma MockedReturnNamesContext(ctx: MockContext, f: ImplItemFn)
    requires ValidContext(ctx)
    requires ReplaceFunction(ctx, f).Ok? && ReplaceFunction(ctx, f).value.body.MockNewCall?
    ensures ReplaceFunction(ctx, f).value.output.ReturnTy?
    ensures ExtractName(ReplaceFunction(ctx, f).value.output.ty) == Ok(ctx.mockedExtract)
  {
  }

  /** Under a valid context, a rewritten associated type also names the context's mock. */
  lemma MockedAssociatedTypeNamesContext(ctx: MockContext, item: ImplItemType)
    requires ValidContext(ctx)
    requires ReplaceAssociatedType(ctx, item).Ok?
    requires ExtractName(item.ty).value.name == ExtractName(ctx.originalType).value.name
    ensures ExtractName(ReplaceAssociatedType(ctx, item).value.ty) == Ok(ctx.mockedExtract)
  {
  }

  /** When the block is rewritten with the context of its own self type, the header
      names the same mock type as the rewritten items. */
  lemma HeaderAgreesWithContext(ctx: MockContext, imp: ItemImpl)
    requires ValidContext(ctx) && ctx.originalType == imp.selfTy
    requires MockImpl(ctx, imp).Ok?
    ensures MockImpl(ctx, imp).value.selfName == ctx.mockedExtract.name
    ensures imp.traitRef.None? ==> MockImpl(ctx, imp).value.selfGenerics == ctx.mockedExtract.generics
  {
  }
}
