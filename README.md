# Flow type-annotation nodes: data model, interchange schema and fold

This project models the node model for Flow type annotations in swc's
ECMAScript syntax tree (`ecmascript/ast/src/flow.rs`). That file declares
only structs and enums. All of its behaviour comes from attributes:
`ast_node` tags, `tag` on union variants, `serde` renames and defaults, and
the derived `Fold`. The Dafny model states that behaviour as functions and
proves it:

- `json.dfy` (module `Json`): an abstract JSON value, where an object is a map
  from keys to values. It also holds the typed decoding errors, `Result`, and
  `Codec<T>`. A `Codec<T>` is the encoder/decoder pair of a type defined
  outside this file.
- `flow_ast.dfy` (module `FlowAst`): one datatype per node kind. Spans,
  identifiers, expressions and module items are the type parameters
  `S`, `I`, `X` and `M`. It also holds the closed 9-way `KeywordTypeKind`
  catalog and its external strings.
- `flow_serde.dfy` (module `FlowSerde`): encoding and decoding for every node
  kind. Each node becomes an object whose `"type"` key holds the node's tag.
  A union member is written as the node it holds, and decoding dispatches on
  that tag.
- `flow_serde_laws.dfy` (module `FlowSerdeLaws`): round trips for every node
  kind, keyword and tag rejection, the two field renames, which keys may be
  left out, and that every required key must be present.
- `flow_fold.dfy` (module `FlowFold`): the derived fold. Each node is rebuilt
  field by field under a visitor that rewrites leaves and may override the
  two unions.
- `flow_fold_laws.dfy` (module `FlowFoldLaws`): the proved fold properties.
  The identity visitor returns the same tree, spans included. Union members
  are preserved when the union's hook is not overridden. Two passes that
  leave the type-node union's hook alone fuse into one.

Decisions where the source leaves room:

- The discriminant key that `ast_node` emits is not visible in the file. The
  model uses the fixed key `"type"`. As a modelling decision, every struct
  decoder reads the discriminant first and checks that it names its own node
  kind, standalone or nested. A different tag is `UnexpectedNodeType(tag)`.
  A missing tag is `MissingRequiredField("type")`.
- An absent optional field is written as `null`, not left out. No
  `skip_serializing_if` appears anywhere in the file. Decoding reads `null`
  as `None`.
- A missing key of an `Option` field reads as `None`, as serde's derive does
  for every `Option` field, with or without `#[serde(default)]`. On
  `TypeParam.bound` and `TypeParam.default` the `#[serde(default)]` therefore
  agrees with what the derive does anyway. Every non-`Option` field is
  required; a missing one is `MissingRequiredField(key)`.
- No `rename_all` is visible, so the fields other than the two renames keep
  their Rust spelling (`type_params`, `type_ann`, `predicate`, ...).
- The type-node union has exactly its three members: `KeywordType`,
  `ThisTypeAnnotation` and `FunctionTypeAnnotation`. The declaration nodes,
  `BooleanLiteralTypeAnnotation` and `ModuleBlock` are standalone nodes with
  their own codecs.
- `DeclareFunction` has one `predicate` field of the predicate union. The
  predicate structs are declared once. This is because the file declares
  both twice over (lines 98/100 and 62-73/103-114).
- Two extra error kinds cover malformed shapes: `InvalidFieldType(key)` (a
  key holds the wrong JSON kind) and `NotAnObject`.
- In Dafny the `DeclareFunction` field is named `pred`, because `predicate`
  is a keyword. Its key in the encoding is still `"predicate"`.

## Model

| member | source | states |
|---|---|---|
| `FlowSerdeLaws.KeywordNamesExact` | ecmascript/ast/src/flow.rs:197-224 | the nine keywords map to nine distinct strings, and the set of strings is exactly `any`, `boolean`, `string`, `number`, `null`, `*`, `void`, `mixed`, `empty` |
| `FlowAst.KeywordFromName` | ecmascript/ast/src/flow.rs:195-224 | a string decodes exactly when it is one of the nine names, to the keyword whose name it is; any other string fails with `UnknownKeyword` carrying that string |
| `FlowSerdeLaws.KeywordRoundTrip` | ecmascript/ast/src/flow.rs:197-224 | decoding the name of a keyword gives back that keyword |
| `FlowSerdeLaws.UnknownKeywordRejected` | ecmascript/ast/src/flow.rs:188-224 | a `KeywordType` object whose `kind` is outside the catalog fails with `UnknownKeyword(kind)`, never a default keyword |
| `FlowSerde.DecodeKeywordType` | ecmascript/ast/src/flow.rs:188-193 | success implies the `KeywordType` tag; an unknown `kind` string is reported as `UnknownKeyword` |
| `FlowSerde.EncodeFlowType` | ecmascript/ast/src/flow.rs:175-186 | the encoding of a union member carries that member's tag (`KeywordType`, `ThisTypeAnnotation`, `FunctionTypeAnnotation`) |
| `FlowSerde.DecodeFlowType` | ecmascript/ast/src/flow.rs:175-186 | success implies the object's tag is the tag of the decoded member; a tag outside the three fails with `UnexpectedNodeType(tag)`; a missing tag fails with `MissingRequiredField("type")` |
| `FlowSerdeLaws.UnknownFlowTypeTag` | ecmascript/ast/src/flow.rs:175-186 | an object whose tag is none of the three fails with `UnexpectedNodeType` carrying that string, whatever its other keys |
| `FlowSerdeLaws.NumberKeywordExample` | ecmascript/ast/src/flow.rs:188-208 | a `number` keyword node encodes as `{"type": "KeywordType", "span": …, "kind": "number"}` and decodes back to itself |
| `FlowSerdeLaws.KeywordTypeRoundTrip` | ecmascript/ast/src/flow.rs:188-193 | a keyword node decodes back to itself |
| `FlowSerdeLaws.FlowTypeRoundTrip` | ecmascript/ast/src/flow.rs:175-186 | every type node, at any depth, decodes back to itself |
| `FlowSerdeLaws.FunctionTypeRoundTrip` | ecmascript/ast/src/flow.rs:160-167 | a function type decodes back to itself: its span, its id, its params in order, and whether `type_params` is present |
| `FlowSerdeLaws.TypeParamsRoundTrip` | ecmascript/ast/src/flow.rs:165 | a sequence of type parameters decodes back to the same sequence, in order |
| `FlowSerde.EncodeTypeParams` | ecmascript/ast/src/flow.rs:165 | the array of type parameters has one element per parameter, and element i encodes parameter i |
| `FlowSerde.DecodeTypeParams` | ecmascript/ast/src/flow.rs:165 | a parameter array decodes exactly when every element decodes; the result has one parameter per element, in order |
| `FlowSerdeLaws.TypeParamRoundTrip` | ecmascript/ast/src/flow.rs:42-53 | a type parameter decodes back to itself, including absent `bound`/`default` written as null |
| `FlowSerdeLaws.TypeParamDefaults` | ecmascript/ast/src/flow.rs:44-53 | when `bound`, `default` or both are None, leaving those keys out still decodes to the same parameter, in all four combinations |
| `FlowSerde.DecodeOptFlowType` | ecmascript/ast/src/flow.rs:48-52 | an optional type field whose key is missing, or holds null, reads as None |
| `FlowSerde.DecodeOptTypeParamDecl` | ecmascript/ast/src/flow.rs:166 | an optional parameter-declaration field whose key is missing, or holds null, reads as None |
| `FlowSerdeLaws.OptFlowTypeRoundTrip` | ecmascript/ast/src/flow.rs:48-52 | an optional type stored under a key decodes back to itself |
| `FlowSerdeLaws.OptTypeParamDeclRoundTrip` | ecmascript/ast/src/flow.rs:166 | an optional parameter declaration stored under a key decodes back to itself |
| `FlowSerdeLaws.FunctionTypeDefaults` | ecmascript/ast/src/flow.rs:160-167 | when `type_params` is None, leaving its key out still decodes to the same function type |
| `FlowSerdeLaws.DeclareModuleDefaults` | ecmascript/ast/src/flow.rs:122-128 | when `body` is None, leaving its key out still decodes to the same module declaration |
| `FlowSerdeLaws.DeclareModuleExportsDefaults` | ecmascript/ast/src/flow.rs:130-135 | when `type_ann` is None, leaving its key out still decodes to the same module-exports declaration |
| `FlowSerdeLaws.DeclareTypeAliasDefaults` | ecmascript/ast/src/flow.rs:137-143 | when `type_params`, `type_ann` or both are None, leaving those keys out still decodes to the same type alias, in all four combinations |
| `FlowSerdeLaws.DeclareOpaqueTypeDefaults` | ecmascript/ast/src/flow.rs:152-158 | when `type_ann` is None, leaving its key out still decodes to the same opaque type declaration |
| `FlowSerdeLaws.KeywordTypeRequired` | ecmascript/ast/src/flow.rs:188-193 | leaving out a required key (`span`, `kind`) of an encoded node fails with `MissingRequiredField` naming that key; no default is substituted |
| `FlowSerdeLaws.ThisTypeRequired` | ecmascript/ast/src/flow.rs:20-24 | leaving out a required key (`span`) of an encoded node fails with `MissingRequiredField` naming that key; no default is substituted |
| `FlowSerdeLaws.FunctionTypeRequired` | ecmascript/ast/src/flow.rs:160-167 | leaving out a required key (`span`, `id`, `params`) of an encoded node fails with `MissingRequiredField` naming that key; no default is substituted |
| `FlowSerdeLaws.TypeParamRequired` | ecmascript/ast/src/flow.rs:42-53 | leaving out a required key (`span`, `name`) of an encoded node fails with `MissingRequiredField` naming that key; no default is substituted |
| `FlowSerdeLaws.TypeParamDeclRequired` | ecmascript/ast/src/flow.rs:34-40 | leaving out a required key (`span`, `parameters`) of an encoded node fails with `MissingRequiredField` naming that key; no default is substituted |
| `FlowSerdeLaws.TypeAnnRequired` | ecmascript/ast/src/flow.rs:26-32 | leaving out a required key (`span`, `typeAnnotation`) of an encoded node fails with `MissingRequiredField` naming that key; no default is substituted |
| `FlowSerdeLaws.InferredPredicateRequired` | ecmascript/ast/src/flow.rs:62-66 | leaving out a required key (`span`) of an encoded node fails with `MissingRequiredField` naming that key; no default is substituted |
| `FlowSerdeLaws.DeclaredPredicateRequired` | ecmascript/ast/src/flow.rs:68-73 | leaving out a required key (`span`, `value`) of an encoded node fails with `MissingRequiredField` naming that key; no default is substituted |
| `FlowSerdeLaws.BooleanLiteralRequired` | ecmascript/ast/src/flow.rs:55-60 | leaving out a required key (`span`, `value`) of an encoded node fails with `MissingRequiredField` naming that key; no default is substituted |
| `FlowSerdeLaws.DeclareClassRequired` | ecmascript/ast/src/flow.rs:85-91 | leaving out a required key (`span`, `declare`, `id`) of an encoded node fails with `MissingRequiredField` naming that key; no default is substituted |
| `FlowSerdeLaws.DeclareFunctionRequired` | ecmascript/ast/src/flow.rs:93-101 | leaving out a required key (`span`, `declare`, `id`, `predicate`) of an encoded node fails with `MissingRequiredField` naming that key; no default is substituted |
| `FlowSerdeLaws.DeclareInterfaceRequired` | ecmascript/ast/src/flow.rs:116-120 | leaving out a required key (`span`) of an encoded node fails with `MissingRequiredField` naming that key; no default is substituted |
| `FlowSerdeLaws.ModuleBlockRequired` | ecmascript/ast/src/flow.rs:145-150 | leaving out a required key (`span`, `body`) of an encoded node fails with `MissingRequiredField` naming that key; no default is substituted |
| `FlowSerdeLaws.DeclareModuleRequired` | ecmascript/ast/src/flow.rs:122-128 | leaving out a required key (`span`, `id`) of an encoded node fails with `MissingRequiredField` naming that key; no default is substituted |
| `FlowSerdeLaws.DeclareModuleExportsRequired` | ecmascript/ast/src/flow.rs:130-135 | leaving out a required key (`span`) of an encoded node fails with `MissingRequiredField` naming that key; no default is substituted |
| `FlowSerdeLaws.DeclareTypeAliasRequired` | ecmascript/ast/src/flow.rs:137-143 | leaving out a required key (`span`) of an encoded node fails with `MissingRequiredField` naming that key; no default is substituted |
| `FlowSerdeLaws.DeclareOpaqueTypeRequired` | ecmascript/ast/src/flow.rs:152-158 | leaving out a required key (`span`, `id`) of an encoded node fails with `MissingRequiredField` naming that key; no default is substituted |
| `FlowSerdeLaws.TypeAnnRenamed` | ecmascript/ast/src/flow.rs:26-32 | a `TypeAnn` is written with exactly the keys `type`, `span`, `typeAnnotation`, never `type_ann`, and an object that carries `type_ann` instead fails with `MissingRequiredField("typeAnnotation")` |
| `FlowSerdeLaws.TypeAnnRoundTrip` | ecmascript/ast/src/flow.rs:26-32 | a type annotation wrapper decodes back to itself |
| `FlowSerde.DecodeTypeAnn` | ecmascript/ast/src/flow.rs:30-31 | success implies the `TypeAnnotation` tag; without a `typeAnnotation` key decoding fails |
| `FlowSerdeLaws.TypeParamDeclRenamed` | ecmascript/ast/src/flow.rs:34-40 | a `TypeParamDecl` is written with exactly the keys `type`, `span`, `parameters`, never `params`, and an object that carries `params` instead fails with `MissingRequiredField("parameters")` |
| `FlowSerdeLaws.TypeParamDeclRoundTrip` | ecmascript/ast/src/flow.rs:34-40 | a parameter declaration decodes back to itself |
| `FlowSerde.DecodeTypeParamDecl` | ecmascript/ast/src/flow.rs:38-39 | success implies the `TypeParamDecl` tag; without a `parameters` key decoding fails |
| `FlowSerde.DecodeThisType` | ecmascript/ast/src/flow.rs:20-24 | success implies the `ThisTypeAnnotation` tag |
| `FlowSerde.DecodeFunctionType` | ecmascript/ast/src/flow.rs:160-167 | success implies the `FunctionTypeAnnotation` tag |
| `FlowSerde.DecodeTypeParam` | ecmascript/ast/src/flow.rs:42-53 | success implies the `TypeParameter` tag |
| `FlowSerde.EncodePredicate` | ecmascript/ast/src/flow.rs:77-83 | a predicate is written with the tag of its member, `InferredPredicate` or `DeclaredPredicate` |
| `FlowSerde.DecodePredicate` | ecmascript/ast/src/flow.rs:77-83 | success implies the object's tag is the decoded member's tag; any other tag fails with `UnexpectedNodeType(tag)`; a missing tag with `MissingRequiredField("type")` |
| `FlowSerdeLaws.UnknownPredicateTag` | ecmascript/ast/src/flow.rs:77-83 | an object tagged with neither predicate tag fails with `UnexpectedNodeType` carrying that string |
| `FlowSerdeLaws.PredicateRoundTrip` | ecmascript/ast/src/flow.rs:62-83 | inferred and declared predicates each decode back to themselves, as the same member |
| `FlowSerde.DecodeInferredPredicate` | ecmascript/ast/src/flow.rs:62-66 | success implies the `InferredPredicate` tag |
| `FlowSerde.DecodeDeclaredPredicate` | ecmascript/ast/src/flow.rs:68-73 | success implies the `DeclaredPredicate` tag |
| `FlowSerdeLaws.BooleanLiteralRoundTrip` | ecmascript/ast/src/flow.rs:55-60 | a boolean literal type, with its expression, decodes back to itself |
| `FlowSerde.DecodeBooleanLiteral` | ecmascript/ast/src/flow.rs:55-60 | success implies the `BooleanLiteralTypeAnnotation` tag |
| `FlowSerdeLaws.DeclareClassRoundTrip` | ecmascript/ast/src/flow.rs:85-91 | a class declaration, with its `declare` flag, decodes back to itself |
| `FlowSerde.DecodeDeclareClass` | ecmascript/ast/src/flow.rs:85-91 | success implies the `DeclareClass` tag |
| `FlowSerdeLaws.DeclareFunctionRoundTrip` | ecmascript/ast/src/flow.rs:93-101 | a function declaration, with its single predicate, decodes back to itself |
| `FlowSerde.DecodeDeclareFunction` | ecmascript/ast/src/flow.rs:93-101 | success implies the `DeclareFunction` tag |
| `FlowSerdeLaws.DeclareInterfaceRoundTrip` | ecmascript/ast/src/flow.rs:116-120 | an interface declaration decodes back to itself |
| `FlowSerde.DecodeDeclareInterface` | ecmascript/ast/src/flow.rs:116-120 | success implies the `DeclareInterface` tag |
| `FlowSerdeLaws.ModuleBlockRoundTrip` | ecmascript/ast/src/flow.rs:145-150 | a module block decodes back to itself, its items in order |
| `FlowSerde.DecodeModuleBlock` | ecmascript/ast/src/flow.rs:145-150 | success implies the `ModuleBlock` tag |
| `FlowSerdeLaws.DeclareModuleRoundTrip` | ecmascript/ast/src/flow.rs:122-128 | a module declaration decodes back to itself, with its body present or absent |
| `FlowSerde.DecodeDeclareModule` | ecmascript/ast/src/flow.rs:122-128 | success implies the `DeclareModule` tag; without a `body` key the body reads as None, and decoding succeeds when the tag, span and id do |
| `FlowSerdeLaws.DeclareModuleExportsRoundTrip` | ecmascript/ast/src/flow.rs:130-135 | a module-exports declaration decodes back to itself |
| `FlowSerde.DecodeDeclareModuleExports` | ecmascript/ast/src/flow.rs:130-135 | success implies the `DeclareModuleExports` tag |
| `FlowSerdeLaws.DeclareTypeAliasRoundTrip` | ecmascript/ast/src/flow.rs:137-143 | a type alias declaration decodes back to itself, with either option present or absent |
| `FlowSerde.DecodeDeclareTypeAlias` | ecmascript/ast/src/flow.rs:137-143 | success implies the `DeclareTypeAlias` tag |
| `FlowSerdeLaws.DeclareOpaqueTypeRoundTrip` | ecmascript/ast/src/flow.rs:152-158 | an opaque type declaration decodes back to itself |
| `FlowSerde.DecodeDeclareOpaqueType` | ecmascript/ast/src/flow.rs:152-158 | success implies the `DeclareOpaqueType` tag |
| `Json.DecodeSeq` | ecmascript/ast/src/flow.rs:149 | an array of module items decodes exactly when every element decodes, to one item per element in order |
| `Json.SeqRoundTrip` | ecmascript/ast/src/flow.rs:149 | a sequence of module items decodes back to itself, given a lawful item codec |
| `FlowFold.FoldTypeParams` | ecmascript/ast/src/flow.rs:16-17 | folding a parameter sequence keeps its length and order, folding element i into result i |
| `FlowFold.FoldOptFlowType` | ecmascript/ast/src/flow.rs:16-17 | folding keeps an optional type present or absent |
| `FlowFold.FoldOptTypeParamDecl` | ecmascript/ast/src/flow.rs:16-17 | folding keeps an optional parameter declaration present or absent |
| `FlowFoldLaws.IdentityVisitorIsIdentity` | ecmascript/ast/src/flow.rs:16-17 | the visitor that overrides nothing rewrites no leaf and no union member |
| `FlowFoldLaws.FoldFlowTypeIdentity` | ecmascript/ast/src/flow.rs:175-196 | folding any type node with an identity visitor gives back the same tree, every span included |
| `FlowFoldLaws.FoldFunctionTypeIdentity` | ecmascript/ast/src/flow.rs:160-167 | an identity fold gives back the same function type |
| `FlowFoldLaws.FoldTypeParamsIdentity` | ecmascript/ast/src/flow.rs:165 | an identity fold gives back the same parameter sequence |
| `FlowFoldLaws.FoldTypeParamIdentity` | ecmascript/ast/src/flow.rs:42-53 | an identity fold gives back the same type parameter |
| `FlowFoldLaws.FoldTypeParamDeclIdentity` | ecmascript/ast/src/flow.rs:34-40 | an identity fold gives back the same parameter declaration |
| `FlowFoldLaws.FoldTypeAnnIdentity` | ecmascript/ast/src/flow.rs:26-32 | an identity fold gives back the same type annotation wrapper |
| `FlowFoldLaws.FoldPredicateIdentity` | ecmascript/ast/src/flow.rs:62-83 | an identity fold gives back the same predicate |
| `FlowFoldLaws.FoldModuleBlockIdentity` | ecmascript/ast/src/flow.rs:145-150 | an identity fold gives back the same module block, its span and every item |
| `FlowFoldLaws.FoldDeclarationsIdentity` | ecmascript/ast/src/flow.rs:85-158 | an identity fold gives back every ambient declaration and module block unchanged |
| `FlowFoldLaws.FoldPreservesVariant` | ecmascript/ast/src/flow.rs:175-196 | without an override of the type-node union, a keyword type stays a keyword type with its span and kind folded |
| `FlowFoldLaws.FoldFlowTypeFusion` | ecmascript/ast/src/flow.rs:16-17 | two folds in a row that leave the type-node union's hook alone equal one fold with the composed visitor, for every type node |
| `FlowFoldLaws.FoldFunctionTypeFusion` | ecmascript/ast/src/flow.rs:160-167 | two such folds of a function type equal one composed fold |
| `FlowFoldLaws.FoldTypeParamsFusion` | ecmascript/ast/src/flow.rs:165 | two such folds of a parameter sequence equal one composed fold |
| `FlowFoldLaws.FoldTypeParamFusion` | ecmascript/ast/src/flow.rs:42-53 | two such folds of a type parameter equal one composed fold |
| `FlowFoldLaws.FoldTypeParamDeclFusion` | ecmascript/ast/src/flow.rs:34-40 | two such folds of a parameter declaration equal one composed fold |
| `FlowFoldLaws.FoldModuleBlockFusion` | ecmascript/ast/src/flow.rs:145-150 | any two folds of a module block, span and items, equal one fold with the composed visitor |
| `FlowAst.KeywordName` | ecmascript/ast/src/flow.rs:197-224 | every keyword's external name is one of the nine catalog strings (its partner `KeywordFromName` reads it back) |
| `FlowSerde.EncodeKeywordType` | ecmascript/ast/src/flow.rs:188-193 | writes the `KeywordType` tag and exactly the keys `type`, `span`, `kind` |
| `FlowSerde.EncodeThisType` | ecmascript/ast/src/flow.rs:20-24 | writes the `ThisTypeAnnotation` tag and exactly the keys `type`, `span` |
| `FlowSerde.EncodeFunctionType` | ecmascript/ast/src/flow.rs:160-167 | writes the `FunctionTypeAnnotation` tag and exactly the keys `type`, `span`, `id`, `params`, `type_params` |
| `FlowSerde.EncodeTypeParam` | ecmascript/ast/src/flow.rs:42-53 | writes the `TypeParameter` tag and exactly the keys `type`, `span`, `name`, `bound`, `default` |
| `FlowSerde.EncodeTypeParamDecl` | ecmascript/ast/src/flow.rs:34-40 | writes the `TypeParamDecl` tag and exactly the keys `type`, `span`, `parameters` |
| `FlowSerde.EncodeTypeAnn` | ecmascript/ast/src/flow.rs:26-32 | writes the `TypeAnnotation` tag and exactly the keys `type`, `span`, `typeAnnotation` |
| `FlowSerde.EncodeOptFlowType` | ecmascript/ast/src/flow.rs:49 | a None type is written as null and nothing else is; a present type carries its member's tag |
| `FlowSerde.EncodeOptTypeParamDecl` | ecmascript/ast/src/flow.rs:166 | a None declaration is written as null and nothing else is; a present one carries the `TypeParamDecl` tag |
| `FlowSerde.EncodeInferredPredicate` | ecmascript/ast/src/flow.rs:62-66 | writes the `InferredPredicate` tag and exactly the keys `type`, `span` |
| `FlowSerde.EncodeDeclaredPredicate` | ecmascript/ast/src/flow.rs:68-73 | writes the `DeclaredPredicate` tag and exactly the keys `type`, `span`, `value` |
| `FlowSerde.EncodeBooleanLiteral` | ecmascript/ast/src/flow.rs:55-60 | writes the `BooleanLiteralTypeAnnotation` tag and exactly the keys `type`, `span`, `value` |
| `FlowSerde.EncodeDeclareClass` | ecmascript/ast/src/flow.rs:85-91 | writes the `DeclareClass` tag and exactly the keys `type`, `span`, `declare`, `id` |
| `FlowSerde.EncodeDeclareFunction` | ecmascript/ast/src/flow.rs:93-101 | writes the `DeclareFunction` tag and exactly the keys `type`, `span`, `declare`, `id`, `predicate` |
| `FlowSerde.EncodeDeclareInterface` | ecmascript/ast/src/flow.rs:116-120 | writes the `DeclareInterface` tag and exactly the keys `type`, `span` |
| `FlowSerde.EncodeModuleBlock` | ecmascript/ast/src/flow.rs:145-150 | writes the `ModuleBlock` tag and exactly the keys `type`, `span`, `body` |
| `FlowSerde.EncodeDeclareModule` | ecmascript/ast/src/flow.rs:122-128 | writes the `DeclareModule` tag and exactly the keys `type`, `span`, `id`, `body` |
| `FlowSerde.EncodeDeclareModuleExports` | ecmascript/ast/src/flow.rs:130-135 | writes the `DeclareModuleExports` tag and exactly the keys `type`, `span`, `type_ann` |
| `FlowSerde.EncodeDeclareTypeAlias` | ecmascript/ast/src/flow.rs:137-143 | writes the `DeclareTypeAlias` tag and exactly the keys `type`, `span`, `type_params`, `type_ann` |
| `FlowSerde.EncodeDeclareOpaqueType` | ecmascript/ast/src/flow.rs:152-158 | writes the `DeclareOpaqueType` tag and exactly the keys `type`, `span`, `id`, `type_ann` |
| `FlowFold.FoldKeywordType` | ecmascript/ast/src/flow.rs:188-193 | a visitor that rewrites no span and no keyword kind gives back the same keyword node |
| `FlowFold.FoldThisType` | ecmascript/ast/src/flow.rs:20-24 | a visitor that rewrites no span gives back the same `this` type |
| `FlowFold.FoldFlowType` | ecmascript/ast/src/flow.rs:175-186 | unless the type-node union's hook is overridden, the folded node is the same member of the union (keyword, `this` or function type) |
| `FlowFold.FoldFunctionType` | ecmascript/ast/src/flow.rs:160-167 | folding keeps the number of parameters and whether `type_params` is present |
| `FlowFold.FoldTypeParam` | ecmascript/ast/src/flow.rs:42-53 | folding keeps `bound` and `default` each present or absent |
| `FlowFold.FoldTypeParamDecl` | ecmascript/ast/src/flow.rs:34-40 | folding keeps the number of parameters |
| `FlowFold.FoldTypeAnn` | ecmascript/ast/src/flow.rs:26-32 | unless the type-node union's hook is overridden, the wrapped type stays the same member of the union |
| `FlowFold.FoldBooleanLiteral` | ecmascript/ast/src/flow.rs:55-60 | a visitor that rewrites no span and no expression gives back the same boolean literal type |
| `FlowFold.FoldPredicate` | ecmascript/ast/src/flow.rs:77-83 | unless the predicate union's hook is overridden, an inferred predicate stays inferred and a declared one stays declared |
| `FlowFold.FoldDeclareClass` | ecmascript/ast/src/flow.rs:85-91 | the `declare` flag passes through unchanged |
| `FlowFold.FoldDeclareFunction` | ecmascript/ast/src/flow.rs:93-101 | the `declare` flag passes through unchanged; unless the predicate union's hook is overridden, the predicate stays the same member |
| `FlowFold.FoldDeclareInterface` | ecmascript/ast/src/flow.rs:116-120 | a visitor that rewrites no span gives back the same interface declaration |
| `FlowFold.FoldDeclareModule` | ecmascript/ast/src/flow.rs:122-128 | folding keeps the body present or absent, and a present body keeps its number of items |
| `FlowFold.FoldDeclareModuleExports` | ecmascript/ast/src/flow.rs:130-135 | folding keeps `type_ann` present or absent |
| `FlowFold.FoldDeclareTypeAlias` | ecmascript/ast/src/flow.rs:137-143 | folding keeps `type_params` and `type_ann` each present or absent |
| `FlowFold.FoldDeclareOpaqueType` | ecmascript/ast/src/flow.rs:152-158 | folding keeps `type_ann` present or absent |

## Left out

- JSON text, key order and duplicate keys: an object is a map. Unknown keys are ignored, as serde does by default.
- Span, identifier, expression and module-item internals and their serde impls: these are external. They appear as `Codec` parameters, and the round-trip lemmas assume each codec undoes its own encoding (`ExtLawful`).
- DecodeTypeParam, DecodeTypeParamDecl, DecodeTypeAnn, DecodeModuleBlock and the DecodeDeclare… decoders check the `"type"` discriminant of the object they read, even where it is nested in another node. serde's derived struct deserialiser may not check that tag, so an untagged or mistagged nested object that serde would accept is rejected here.
- Which error is reported when several fields are wrong at once: the model checks the fields in declaration order. serde's order of reporting depends on the input.
- The derived `Hash` and `Eq`: Dafny's structural equality over datatypes stands in for `Eq`, spans included. Hashing is not modelled.
- Visitor state and visiting order: swc's folder takes `&mut self`. The model's visitor is a set of pure functions, so the order in which fields are visited cannot be observed.
- Fold overrides: only the leaves and the two unions can be overridden. An override sees a node after its children were folded. Overrides of other node types, and overrides that skip the children, are not modelled.
- FoldFlowTypeFusion: stated only for visitors that do not override the type-node union's hook, and only for the type-node family and module blocks; an override could rewrite a node between the two passes.
- The `declare` flags are plain booleans, so the fold passes them through unchanged.
- The `ast_node` expansion itself (the derives it adds beyond serde and fold): not visible, so not modelled.
- The file's duplicate declarations and misspelt attributes (`Ee`, `Deserialze`, `cfd_attr`, `ArrayPay`), and the imported but unused pattern and literal types: not reproduced.
