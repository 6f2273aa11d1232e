# mocktoffel, modelled in Dafny

mocktoffel is a Rust procedural-macro crate. It derives test doubles ("mocks") from
type declarations.

- `#[mock]` re-emits a struct or enum next to a copy of it named `<Name>Mock`.
- `#[toffel]` rewrites every field marked `#[mocked]` so that its type becomes the mock
  of the declared type.
- An impl-block rewriter (`MockContext`) re-targets an `impl` at the mock type. It
  substitutes the mock for the original type in parameters, return types and
  associated types, and gives every method a stub body.
- Helpers derive the mock's name from a type, synthesise `mock_new` constructors,
  strip generic bounds and filter attributes.

This project models that rewriting logic on a simplified syntax tree. The tree keeps the
shapes the crate inspects: paths, path arguments, fields, variants, generics, attributes
and impl items, and the fifteen kinds of `syn::Type` plus `Unknown`, which stands for the
kinds the resolver's `_` arm catches (src/branch.rs:36). It proves what each rewrite
produces and how the rewrites agree with each other.

Every panic in the crate becomes an explicit failure value (module `Results`):

| panic in the crate | failure value |
|---|---|
| `todo!()` | `NotImplemented` |
| `unreachable!()` | `Unreachable` |
| `.unwrap()` on `None` | `UnwrapNone` |
| `Ident::new("")` | `EmptyIdent` |

So a rewrite either produces its whole output or fails. An iterator chain that can panic
part-way is modelled by `MapAll`, which stops at the first failing element. Token
streams produced by `quote!` are modelled as structured output datatypes:

- `StructMockNew`, `EnumMockNew` for the `mock_new` constructors;
- `ImplOut`, `ImplItemOut` for rewritten impl blocks and their items;
- re-emitted `ItemStruct` and `ItemEnum` values for declarations.

Printing a `syn::Generics` with `quote!` emits only its parameter list, so the where
clause disappears wherever the crate re-emits `#generics`.

Modules, one per source file plus two shared ones:

| module | file | models |
|---|---|---|
| `Results` | results.dfy | Option, Result, `MapAll`, `Zip` |
| `Syntax` | syntax.dfy | the syntax tree, `get_ident`, `is_ident`, attribute search |
| `Extract` | extract.dfy | src/extract.rs |
| `Branch` | branch.dfy | src/branch.rs |
| `Pimpl` | pimpl.dfy | src/pimpl.rs |
| `Toffel` | toffel.dfy | src/toffel.rs |
| `Lib` | lib.dfy | the `toffel` and `mock` entry points of src/lib.rs |
| `Mutations` | mutations.dfy | src/mutations.rs |

Code behaviours worth noting, each modelled as written:

- References, pointers, tuples, bare functions and qualified paths fail (`todo!()`,
  src/branch.rs:40-42, 74-84, 93-95), so the resolver only ever renames unqualified paths.
- `impl Trait` and `dyn Trait` compute a bound name and a side declaration and then fail
  (`todo!()` at src/branch.rs:59).
- The side declaration is always named `mock_name`, because `quote!` does not
  interpolate the argument (src/branch.rs:63-65).
- Enum variant selection has three levels, in this order (src/extract.rs:180-221):
  1. the first `mocked_value` variant;
  2. otherwise the first `mocked_value_with` variant, whose FIRST attribute must be a
     list;
  3. otherwise `Self::default()`.
- `mock` does not strip attributes from either copy (src/lib.rs:53-67).
- `clean_out_attributes` keeps every bare single-identifier attribute, not only
  `mocked`, because the comparison is discarded by `.is_some()` (src/extract.rs:246, 260).
- In an inherent impl, the generics after the mock's name come from the self type's
  last path segment (src/pimpl.rs:60-63).
- A returned path's name is compared after extraction, so a return type whose last
  segment has parenthesized arguments fails (`unreachable!()`) instead of being skipped
  (the pattern guard at src/pimpl.rs:96).
- `src/toffel.rs` is not declared as a module by src/lib.rs:9-10, so the `Toffelise`
  rewrite is not reachable from the entry points; it is modelled on its own, and
  `Lib.ToffelEntryMatchesToffelise` relates it to the `toffel` entry.

## Model

| member | source | states |
|---|---|---|
| Syntax.FindAttr | src/extract.rs:115 | `find` over the attributes: None exactly when no attribute has that bare name; otherwise the FIRST such attribute |
| Extract.PathExtractName | src/extract.rs:68-82 | the name is the last segment's identifier and its angle arguments become the generics; an empty path is an unwrap failure; parenthesized arguments are unreachable |
| Extract.ExtractName | src/extract.rs:51-66 | an unqualified path delegates to the path rule; `impl Trait` gives the bound name with no generics, failing exactly when that name is empty; `_` is unreachable; every other type kind is `todo!()` |
| Extract.ExtractNameForBounds | src/extract.rs:84-102 | succeeds exactly when the concatenated bound name is non-empty, with that name; otherwise `Ident::new` panics |
| Extract.BoundNameAppend | src/extract.rs:85-100 | the left fold over bounds distributes over concatenation, so bound names concatenate in bound order |
| Extract.BoundNameSingle | src/extract.rs:85-99 | one bound contributes its path's identifiers when it is a plain trait bound and nothing otherwise |
| Extract.BoundNameSkipsUnselected | src/extract.rs:85-90 | a `?Trait` or lifetime bound anywhere in the list does not change the name |
| Extract.SegmentIdentsSingle | src/extract.rs:92-95 | a one-segment path contributes its identifier |
| Extract.BoundNameExampleFooBar | src/extract.rs:84-101 | `Foo + ?Sized + 'a + Bar` is named `FooBar` |
| Extract.BoundNameExampleDebug | src/extract.rs:84-101 | `std::fmt::Debug` is named `stdfmtDebug`: segment identifiers are joined without separators |
| Extract.MockIdent | src/extract.rs:105 | appending `Mock` is undone by stripping the suffix, and adds exactly four characters |
| Extract.PrepareMockName | src/extract.rs:104-107 | the generics are kept and the name strips back to the original name |
| Extract.PrepareMockNameInjective | src/extract.rs:104-107 | distinct extracted names give distinct mock names |
| Extract.PrepareMockNameNotIdempotent | src/extract.rs:104-107 | the mock name always differs from the original, and applying the rule twice gives `NameMockMock` |
| Extract.FieldValue | src/extract.rs:115-131 | no `mocked_with` gives `Default::default()`; otherwise the first `mocked_with` decides: a list attribute gives its tokens, any other form is `todo!()` |
| Extract.FieldIdents | src/extract.rs:114-135 | collects the named fields' identifiers in order; empty exactly when no field is named; aligned with the fields when all are named |
| Extract.GenerateForValues | src/extract.rs:109-174 | fails exactly on a bad `mocked_with` or a const generic; `Self {}` exactly for no fields; all-unnamed fields give positional values in field order; any named field gives a named initialiser with stripped generics in both header positions; all-named fields pair each identifier with its value; the self-type generics are the stripped generics |
| Extract.FindVariant | src/extract.rs:180-199 | None exactly when no variant carries the marker; otherwise the index of the first that does |
| Extract.GenerateVariant | src/extract.rs:177-225 | the first `mocked_value` variant wins; otherwise the first `mocked_value_with` variant with the tokens of its first attribute, unreachable when that attribute is not a list; otherwise `Self::default()` |
| Extract.StripParam | src/extract.rs:228-235 | a type parameter loses its colon and bounds and keeps its name and default; a lifetime is unchanged; a const parameter is `todo!()` |
| Extract.StripBounds | src/extract.rs:227-236 | succeeds exactly when there is no const parameter; keeps the parameter count, order and where clause; strips each parameter |
| Extract.StripBoundsIdempotent | src/extract.rs:227-236 | stripping already stripped generics changes nothing |
| Extract.KeepBareIdents | src/extract.rs:242-251 | an attribute is kept exactly when it is a bare single-identifier path, and nothing is added |
| Extract.KeepBareIdentsAppend | src/extract.rs:242-251 | filtering distributes over concatenation, so kept attributes keep their relative order |
| Extract.KeepAllBare | src/extract.rs:242-251 | a list of bare identifiers is kept whole |
| Extract.KeepBareIdentsIdempotent | src/extract.rs:242-251 | cleaning twice is cleaning once |
| Extract.CleanFieldList | src/extract.rs:241-252 | every field is kept in place, with only its attributes filtered |
| Extract.CleanOutAttributes | src/extract.rs:238-270 | structs and enums always succeed and change nothing but the filtered field or variant attributes, keeping field kind and count; any other item is unreachable |
| Branch.ResolvePathAndMock | src/branch.rs:86-91 | fails exactly on an empty path; otherwise the qualifier, leading colon, every segment but the last and the last segment's arguments are kept, and the last identifier gains `Mock`; no side stream |
| Branch.CreateMock | src/branch.rs:62-68 | the side declaration is an empty struct literally named `mock_name` |
| Branch.CreateMockIgnoresName | src/branch.rs:62-68 | the side declaration is the same whatever name is passed |
| Branch.MockAndImplTraitForIt | src/branch.rs:44-60 | `impl Trait` and `dyn Trait` always end in `todo!()` |
| Branch.MockingCandidate | src/branch.rs:12-38 | after transparent wrappers are peeled, succeeds exactly on a non-empty unqualified path and then renames its leaf; `_` and unknown kinds are unreachable; every other kind is `todo!()` |
| Branch.WrappersAreTransparent | src/branch.rs:14-32 | an array, group, parenthesised or slice type resolves exactly as its element, dropping the container |
| Branch.ResolvedNameIsMockName | src/branch.rs:86-91 | the name extracted from the resolved type is the mock name of the original type's extracted name, with the same generics |
| Branch.ResolveExamples | src/branch.rs:115-133 | `Foo` resolves to `FooMock` and `qow::Fow` to `qow::FowMock` |
| Pimpl.NewContext | src/pimpl.rs:18-24 | fails exactly when the type's name cannot be extracted; stores the type and a mock name that strips back to the type's name, with its generics |
| Pimpl.ReplaceInput | src/pimpl.rs:74-87 | receivers, and typed parameters whose type differs from the context's or is not a path, are unchanged; the context's type becomes the mock name carrying the original last segment's arguments; an empty path fails on unwrap |
| Pimpl.ReplaceInputs | src/pimpl.rs:74-87 | every parameter is rewritten in place, and the list fails exactly when some parameter fails |
| Pimpl.ReplaceInputIdempotent | src/pimpl.rs:74-87 | under a context built by `new`, a rewritten parameter is not rewritten again |
| Pimpl.ReplaceInputsIdempotent | src/pimpl.rs:74-87 | under a context built by `new`, rewriting a parameter list twice is rewriting it once |
| Pimpl.ReplaceFunction | src/pimpl.rs:71-123 | keeps visibility, name and rewritten inputs; no return type gives an empty body; a path return type whose name is the original's becomes the mock type with a `mock_new` call; any other return type is kept with a `Default::default()` body; fails exactly when an input, the original name or the returned path's name fails |
| Pimpl.ReplaceAssociatedType | src/pimpl.rs:125-137 | only the type changes; it becomes the mock name with the original generics when its name is the original's, and is left alone otherwise |
| Pimpl.ReplaceTraitItem | src/pimpl.rs:33-40 | trait-impl functions and associated types are rewritten; any other item is `todo!()` |
| Pimpl.ReplaceInherentItem | src/pimpl.rs:54-57 | inherent-impl functions are rewritten; any other item is unreachable |
| Pimpl.MockImpl | src/pimpl.rs:27-68 | fails exactly when the self name, the trait name or some item fails; the header keeps the impl generics and names the self type's mock; a trait impl names the trait's last segment with its generics; an inherent impl carries the self type's generics; items are rewritten one for one |
| Pimpl.MockedReturnNamesContext | src/pimpl.rs:92-102 | under a context built by `new`, a return type rewritten to the mock extracts to exactly the context's mock name and generics |
| Pimpl.MockedAssociatedTypeNamesContext | src/pimpl.rs:125-137 | under a context built by `new`, a rewritten associated type extracts to the context's mock name and generics |
| Pimpl.HeaderAgreesWithContext | src/pimpl.rs:27-30 | with the context of its own self type, the header's mock name and inherent generics are the context's |
| Toffel.ToffelField | src/toffel.rs:21-31 | an unmarked field is unchanged; a `#[mocked]` field loses all attributes and takes the resolved type, failing exactly as the resolver does |
| Toffel.ToffelFieldIdempotent | src/toffel.rs:21-31 | a rewritten field carries no marker, so rewriting it again is the identity |
| Toffel.ToffelStruct | src/toffel.rs:11-69 | a unit struct is unreachable; otherwise succeeds exactly when every field does; keeps attributes, name, field kind and count; each field is rewritten in place; visibility and where clause are not re-emitted |
| Toffel.ToffelStructIdempotent | src/toffel.rs:11-69 | rewriting a rewritten struct changes nothing |
| Toffel.ToffelStructUnmarked | src/toffel.rs:11-69 | a struct with no marked field keeps its fields and loses only visibility and where clause |
| Toffel.ToffelExample | src/toffel.rs:16-39 | the struct rewrite turns an attribute-free `struct Foo { #[mocked] foo: Bar }` into `struct Foo { foo: BarMock }` |
| Toffel.ToffelVariant | src/toffel.rs:82-94 | tuple-variant fields are rewritten in place; unit variants are unchanged; named variants are unreachable |
| Toffel.ToffelEnum | src/toffel.rs:73-106 | succeeds exactly when every variant does; keeps attributes, name, variant order and count; visibility and where clause are not re-emitted |
| Toffel.ToffelVariantIdempotent | src/toffel.rs:82-94 | rewriting a rewritten variant changes nothing |
| Toffel.ToffelEnumIdempotent | src/toffel.rs:73-106 | rewriting a rewritten enum changes nothing |
| Toffel.ToffelEnumKeepsVariants | src/toffel.rs:78-98 | each variant keeps its name and attributes, and unit variants are unchanged |
| Lib.WithIdent | src/lib.rs:54-63 | renaming sets the item's name |
| Lib.ToffelEntry | src/lib.rs:13-48 | only named-field structs are accepted (others are `todo!()`); succeeds exactly when every field does; emits the name and generic parameters with no attributes, visibility or where clause; each field rewritten in place |
| Lib.ToffelEntryMatchesToffelise | src/lib.rs:16-45 | on a named-field struct the entry agrees with the struct rewrite of src/toffel.rs except that it drops the outer attributes |
| Lib.MockEntry | src/lib.rs:51-70 | emits the original unchanged followed by a copy that differs only in its name, which strips back to the original name |
| Lib.MockEntryRoundTrip | src/lib.rs:51-70 | restoring the copy's original name gives back the original declaration |
| Lib.MockEntryExamples | tests/basic_mock.rs:4-25 | `#[mock] struct Foo` also declares `FooMock`; `#[mock] enum Bar` also declares `BarMock` |
| Lib.ToffelTargetsMockCopy | src/lib.rs:20-33 | a marked field of type `Name<...>` is given exactly the path naming the copy `mock` emits for `Name`, with the same arguments |
| Lib.MockImplTargetsMockCopy | src/pimpl.rs:28-30 | an impl on `Name<...>` is re-targeted at the copy `mock` emits for `Name` |
| Lib.MockCopiesDistinct | src/lib.rs:55-62 | two `#[mock]` declarations with distinct names emit copies with distinct names |
| Lib.ToffelEntryExample | tests/basic_toffel.rs:10-17 | `#[toffel] #[derive(Default)] struct Foo { #[assert_field_type = BarMock] #[mocked] foo: Bar }` is emitted with no outer attributes as `struct Foo { foo: BarMock }`, the field carrying no attributes |
| Mutations.Mutate | src/mutations.rs:18-26 | an unnamed field is `todo!()`; otherwise attributes, name and visibility are kept; when both types are paths, the field keeps its qualifier and takes the replacement's path; otherwise the field is unchanged |
| Mutations.MutateIdempotent | src/mutations.rs:18-26 | mutating twice with the same replacement is mutating once |
| Mutations.MutateAgreesWithToffel | src/mutations.rs:18-26 | on a marked named field of unqualified path type, mutating with the resolver's output gives the `toffel` type, but keeps the attributes `toffel` clears |

## Left out

- src/muast.rs, the `assert_proc` helper crate and the tests' macro setup: they are
  outside the rewriting core. The two integration tests are restated as the example
  lemmas `Lib.MockEntryExamples` and `Lib.ToffelEntryExample`.
- Parsing, `TokenStream` conversion and the `proc_macro` entry plumbing. Inputs are
  syntax trees and outputs are structured datatypes, not token text.
- Attribute payloads and the tokens of `mocked_with` and `mocked_value_with`: they are
  kept as opaque token lists.
- The `stream` of `MockPrepared`: it is always empty on every path that succeeds, and
  side declarations are never emitted.
- `Ident::new` validity beyond emptiness, and raw identifiers. A generated name is
  checked only for being empty.
- Method signature qualifiers (`const`, `async`, `unsafe`, ABI, variadics), impl
  attributes, `unsafe` and `default` on impls, the trait's `!`, method attributes and
  generics. The rewriter's output does not re-emit any of them.
- Where clauses on impl blocks and on re-emitted declarations. `quote!` of `Generics`
  prints only the parameters.
- Pimpl.ReplaceFunction: the inner `else` branch at src/pimpl.rs:103-105 is unreachable
  behind its guard and is not modelled.
- Extract.GenerateForValues: a struct mixing named and unnamed fields cannot be written
  in Rust. For it the named initialiser pairs identifiers and values up to the shorter
  list, as a `quote!` repetition over two lists does.
- Mutations.Mutate: takes the replacement's type alone, since `mutate` never reads the
  stream of its `MockPrepared`.
- The nightly `let_chains` and `extract_if` features: they are modelled by their
  meaning, not their implementation.
