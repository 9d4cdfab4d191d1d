/** What the interchange schema promises: every node reads back as itself,
    discriminants dispatch, the renamed keys are the only spelling, a key
    holding a None optional field may be left out, and a required key may
    not. */
module FlowSerdeLaws {

  import opened Json
  import opened FlowAst
  import opened FlowSerde

  // ---------------------------------------------------------------------
  // Keywords
  // ---------------------------------------------------------------------

  /** Nine keywords, nine distinct strings: exactly the external catalog. */
  lemma KeywordNamesExact()
    ensures forall a, b :: KeywordName(a) == KeywordName(b) ==> a == b
    ensures (set k: KeywordTypeKind | true :: KeywordName(k)) == KeywordNames
  {
    var all := set k: KeywordTypeKind | true :: KeywordName(k);
    assert KeywordName(AnyTypeAnnotation) in all;
    assert KeywordName(BooleanTypeAnnotation) in all;
    assert KeywordName(StringTypeAnnotation) in all;
    assert KeywordName(NumberTypeAnnotation) in all;
    assert KeywordName(NullLiteralTypeAnnotation) in all;
    assert KeywordName(ExistsTypeAnnotation) in all;
    assert KeywordName(VoidTypeAnnotation) in all;
    assert KeywordName(MixedTypeAnnotation) in all;
    assert KeywordName(EmptyTypeAnnotation) in all;
  }

  lemma KeywordRoundTrip(k: KeywordTypeKind)
    ensures KeywordFromName(KeywordName(k)) == Ok(k)
  {
    KeywordNamesExact();
  }

  // ---------------------------------------------------------------------
  // Round trips of the type-node family
  // ---------------------------------------------------------------------

  lemma KeywordTypeRoundTrip<S(!new), I(!new), X(!new), M(!new)>(ext: Ext<S, I, X, M>, k: KeywordType<S>)
    requires ExtLawful(ext)
    ensures DecodeKeywordType(ext, EncodeKeywordType(ext, k)) == Ok(k)
  {
    KeywordRoundTrip(k.kind);
  }

  lemma {:induction false} FlowTypeRoundTrip<S(!new), I(!new), X(!new), M(!new)>(ext: Ext<S, I, X, M>, t: FlowType<S, I>)
    requires ExtLawful(ext)
    ensures DecodeFlowType(ext, EncodeFlowType(ext, t)) == Ok(t)
    decreases t
  {
    match t
    case KeywordTy(k) => KeywordTypeRoundTrip(ext, k);
    case ThisTy(th) =>
    case FunctionTy(f) => FunctionTypeRoundTrip(ext, f);
  }

  /** Keeps the order of `params` and whether `type_params` is present. */
  lemma {:induction false} FunctionTypeRoundTrip<S(!new), I(!new), X(!new), M(!new)>(
    ext: Ext<S, I, X, M>, f: FunctionTypeAnnotation<S, I>)
    requires ExtLawful(ext)
    ensures DecodeFunctionType(ext, EncodeFunctionType(ext, f)) == Ok(f)
    decreases f
  {
    var v := EncodeFunctionType(ext, f);
    TypeParamsRoundTrip(ext, f.params);
    OptTypeParamDeclRoundTrip(ext, f.typeParams, v, "type_params");
  }

  lemma {:induction false} TypeParamsRoundTrip<S(!new), I(!new), X(!new), M(!new)>(
    ext: Ext<S, I, X, M>, ps: seq<TypeParam<S, I>>)
    requires ExtLawful(ext)
    ensures DecodeTypeParams(ext, EncodeTypeParams(ext, ps)) == Ok(ps)
    decreases ps
  {
    if ps != [] {
      var e := EncodeTypeParams(ext, ps);
      TypeParamRoundTrip(ext, ps[0]);
      TypeParamsRoundTrip(ext, ps[1..]);
      assert e[1..] == EncodeTypeParams(ext, ps[1..]);
      assert [ps[0]] + ps[1..] == ps;
    }
  }

  lemma {:induction false} TypeParamRoundTrip<S(!new), I(!new), X(!new), M(!new)>(
    ext: Ext<S, I, X, M>, p: TypeParam<S, I>)
    requires ExtLawful(ext)
    ensures DecodeTypeParam(ext, EncodeTypeParam(ext, p)) == Ok(p)
    decreases p
  {
    var v := EncodeTypeParam(ext, p);
    OptFlowTypeRoundTrip(ext, p.bound, v, "bound");
    OptFlowTypeRoundTrip(ext, p.default, v, "default");
  }

  lemma {:induction false} TypeParamDeclRoundTrip<S(!new), I(!new), X(!new), M(!new)>(
    ext: Ext<S, I, X, M>, d: TypeParamDecl<S, I>)
    requires ExtLawful(ext)
    ensures DecodeTypeParamDecl(ext, EncodeTypeParamDecl(ext, d)) == Ok(d)
    decreases d
  {
    TypeParamsRoundTrip(ext, d.params);
  }

  /** An optional field stored under `key` reads back. */
  lemma {:induction false} OptFlowTypeRoundTrip<S(!new), I(!new), X(!new), M(!new)>(
    ext: Ext<S, I, X, M>, o: Option<FlowType<S, I>>, v: Value, key: string)
    requires ExtLawful(ext)
    requires v.Obj? && key in v.fields && v.fields[key] == EncodeOptFlowType(ext, o)
    ensures DecodeOptFlowType(ext, v, key) == Ok(o)
    decreases o
  {
    match o
    case None =>
    case Some(t) =>
      FlowTypeRoundTrip(ext, t);
      assert EncodeFlowType(ext, t) != Null by {
        assert TagOf(EncodeFlowType(ext, t)).Some?;
      }
  }

  lemma {:induction false} OptTypeParamDeclRoundTrip<S(!new), I(!new), X(!new), M(!new)>(
    ext: Ext<S, I, X, M>, o: Option<TypeParamDecl<S, I>>, v: Value, key: string)
    requires ExtLawful(ext)
    requires v.Obj? && key in v.fields && v.fields[key] == EncodeOptTypeParamDecl(ext, o)
    ensures DecodeOptTypeParamDecl(ext, v, key) == Ok(o)
    decreases o
  {
    match o
    case None =>
    case Some(d) => TypeParamDeclRoundTrip(ext, d);
  }

  lemma TypeAnnRoundTrip<S(!new), I(!new), X(!new), M(!new)>(ext: Ext<S, I, X, M>, a: TypeAnn<S, I>)
    requires ExtLawful(ext)
    ensures DecodeTypeAnn(ext, EncodeTypeAnn(ext, a)) == Ok(a)
  {
    FlowTypeRoundTrip(ext, a.typeAnn);
  }

  // ---------------------------------------------------------------------
  // Discriminants, renames and defaults
  // ---------------------------------------------------------------------

  /** A discriminant no member of the union owns is reported with its own
      string, whatever else the object holds. */
  lemma UnknownFlowTypeTag<S, I, X, M>(ext: Ext<S, I, X, M>, fields: map<string, Value>, tag: string)
    requires tag !in FlowTypeTags
    ensures DecodeFlowType<S, I, X, M>(ext, Obj(fields["type" := Str(tag)])) == Err(UnexpectedNodeType(tag))
  {
  }

  lemma UnknownPredicateTag<S, I, X, M>(ext: Ext<S, I, X, M>, fields: map<string, Value>, tag: string)
    requires tag !in PredicateTags
    ensures DecodePredicate<S, I, X, M>(ext, Obj(fields["type" := Str(tag)])) == Err(UnexpectedNodeType(tag))
  {
  }

  /** A keyword node whose "kind" is outside the catalog is rejected with
      that string; it is never read as some default keyword. */
  lemma UnknownKeywordRejected<S(!new), I(!new), X(!new), M(!new)>(ext: Ext<S, I, X, M>, k: KeywordType<S>, word: string)
    requires ExtLawful(ext)
    requires word !in KeywordNames
    ensures DecodeFlowType(ext, Obj(EncodeKeywordType(ext, k).fields["kind" := Str(word)])) == Err(UnknownKeyword(word))
  {
    var v := Obj(EncodeKeywordType(ext, k).fields["kind" := Str(word)]);
    assert v.fields["span"] == ext.span.enc(k.span);
  }

  /** A `number` keyword node is the object with "type" KeywordType and
      "kind" number beside its span. */
  lemma NumberKeywordExample<S(!new), I(!new), X(!new), M(!new)>(ext: Ext<S, I, X, M>, span: S)
    requires ExtLawful(ext)
    ensures var v := EncodeFlowType(ext, KeywordTy(KeywordType(span, NumberTypeAnnotation)));
            && v == Obj(map["type" := Str("KeywordType"), "span" := ext.span.enc(span), "kind" := Str("number")])
            && DecodeFlowType(ext, v) == Ok(KeywordTy(KeywordType(span, NumberTypeAnnotation)))
  {
    FlowTypeRoundTrip(ext, KeywordTy(KeywordType(span, NumberTypeAnnotation)));
  }

  /** `type_ann` is written and read under "typeAnnotation" only. */
  lemma TypeAnnRenamed<S(!new), I(!new), X(!new), M(!new)>(ext: Ext<S, I, X, M>, a: TypeAnn<S, I>, w: Value)
    requires ExtLawful(ext)
    ensures EncodeTypeAnn(ext, a).fields.Keys == {"type", "span", "typeAnnotation"}
    ensures "type_ann" !in EncodeTypeAnn(ext, a).fields
    ensures var v := EncodeTypeAnn(ext, a).fields - {"typeAnnotation"};
            DecodeTypeAnn(ext, Obj(v["type_ann" := w])) == Err(MissingRequiredField("typeAnnotation"))
  {
    var v := (EncodeTypeAnn(ext, a).fields - {"typeAnnotation"})["type_ann" := w];
    assert v["type"] == Str("TypeAnnotation");
    assert v["span"] == ext.span.enc(a.span);
  }

  /** `params` is written and read under "parameters" only. */
  lemma TypeParamDeclRenamed<S(!new), I(!new), X(!new), M(!new)>(ext: Ext<S, I, X, M>, d: TypeParamDecl<S, I>, w: Value)
    requires ExtLawful(ext)
    ensures EncodeTypeParamDecl(ext, d).fields.Keys == {"type", "span", "parameters"}
    ensures "params" !in EncodeTypeParamDecl(ext, d).fields
    ensures var v := EncodeTypeParamDecl(ext, d).fields - {"parameters"};
            DecodeTypeParamDecl(ext, Obj(v["params" := w])) == Err(MissingRequiredField("parameters"))
  {
    var v := (EncodeTypeParamDecl(ext, d).fields - {"parameters"})["params" := w];
    assert v["type"] == Str("TypeParamDecl");
    assert v["span"] == ext.span.enc(d.span);
  }

  /** `bound` and `default` may be left out when they are None: all four
      combinations of present and absent keys read back as the same node. */
  lemma TypeParamDefaults<S(!new), I(!new), X(!new), M(!new)>(ext: Ext<S, I, X, M>, p: TypeParam<S, I>, omit: set<string>)
    requires ExtLawful(ext)
    requires omit <= {"bound", "default"}
    requires "bound" in omit ==> p.bound == None
    requires "default" in omit ==> p.default == None
    ensures DecodeTypeParam(ext, Obj(EncodeTypeParam(ext, p).fields - omit)) == Ok(p)
  {
    var v := Obj(EncodeTypeParam(ext, p).fields - omit);
    assert v.fields["type"] == Str("TypeParameter");
    assert v.fields["span"] == ext.span.enc(p.span);
    assert v.fields["name"] == ext.ident.enc(p.name);
    if "bound" !in omit {
      OptFlowTypeRoundTrip(ext, p.bound, v, "bound");
    }
    if "default" !in omit {
      OptFlowTypeRoundTrip(ext, p.default, v, "default");
    }
  }

  /** `type_params` may be left out when it is None. */
  lemma FunctionTypeDefaults<S(!new), I(!new), X(!new), M(!new)>(
    ext: Ext<S, I, X, M>, f: FunctionTypeAnnotation<S, I>, omit: set<string>)
    requires ExtLawful(ext)
    requires omit <= {"type_params"}
    requires "type_params" in omit ==> f.typeParams == None
    ensures DecodeFunctionType(ext, Obj(EncodeFunctionType(ext, f).fields - omit)) == Ok(f)
  {
    var v := Obj(EncodeFunctionType(ext, f).fields - omit);
    assert v.fields["type"] == Str("FunctionTypeAnnotation");
    assert v.fields["span"] == ext.span.enc(f.span);
    assert v.fields["id"] == ext.ident.enc(f.id);
    assert v.fields["params"] == Arr(EncodeTypeParams(ext, f.params));
    TypeParamsRoundTrip(ext, f.params);
    if "type_params" !in omit {
      OptTypeParamDeclRoundTrip(ext, f.typeParams, v, "type_params");
    }
  }

  /** `body` may be left out when it is None. */
  lemma DeclareModuleDefaults<S(!new), I(!new), X(!new), M(!new)>(ext: Ext<S, I, X, M>, d: DeclareModule<S, I, M>, omit: set<string>)
    requires ExtLawful(ext)
    requires omit <= {"body"}
    requires "body" in omit ==> d.body == None
    ensures DecodeDeclareModule(ext, Obj(EncodeDeclareModule(ext, d).fields - omit)) == Ok(d)
  {
    var v := Obj(EncodeDeclareModule(ext, d).fields - omit);
    assert v.fields["type"] == Str("DeclareModule");
    assert v.fields["span"] == ext.span.enc(d.span);
    assert v.fields["id"] == ext.ident.enc(d.id);
    if "body" !in omit && d.body.Some? {
      assert v.fields["body"] == EncodeModuleBlock(ext, d.body.value);
      ModuleBlockRoundTrip(ext, d.body.value);
    }
  }

  /** `type_ann` may be left out when it is None. */
  lemma DeclareModuleExportsDefaults<S(!new), I(!new), X(!new), M(!new)>(
    ext: Ext<S, I, X, M>, d: DeclareModuleExports<S, I>, omit: set<string>)
    requires ExtLawful(ext)
    requires omit <= {"type_ann"}
    requires "type_ann" in omit ==> d.typeAnn == None
    ensures DecodeDeclareModuleExports(ext, Obj(EncodeDeclareModuleExports(ext, d).fields - omit)) == Ok(d)
  {
    var v := Obj(EncodeDeclareModuleExports(ext, d).fields - omit);
    assert v.fields["type"] == Str("DeclareModuleExports");
    assert v.fields["span"] == ext.span.enc(d.span);
    if "type_ann" !in omit {
      OptFlowTypeRoundTrip(ext, d.typeAnn, v, "type_ann");
    }
  }

  /** `type_params` and `type_ann` may each be left out when it is None: all
      four combinations of present and absent keys read back as the same
      node. */
  lemma DeclareTypeAliasDefaults<S(!new), I(!new), X(!new), M(!new)>(ext: Ext<S, I, X, M>, d: DeclareTypeAlias<S, I>, omit: set<string>)
    requires ExtLawful(ext)
    requires omit <= {"type_params", "type_ann"}
    requires "type_params" in omit ==> d.typeParams == None
    requires "type_ann" in omit ==> d.typeAnn == None
    ensures DecodeDeclareTypeAlias(ext, Obj(EncodeDeclareTypeAlias(ext, d).fields - omit)) == Ok(d)
  {
    var v := Obj(EncodeDeclareTypeAlias(ext, d).fields - omit);
    assert v.fields["type"] == Str("DeclareTypeAlias");
    assert v.fields["span"] == ext.span.enc(d.span);
    if "type_params" !in omit {
      OptTypeParamDeclRoundTrip(ext, d.typeParams, v, "type_params");
    }
    if "type_ann" !in omit {
      OptFlowTypeRoundTrip(ext, d.typeAnn, v, "type_ann");
    }
  }

  /** `type_ann` may be left out when it is None. */
  lemma DeclareOpaqueTypeDefaults<S(!new), I(!new), X(!new), M(!new)>(ext: Ext<S, I, X, M>, d: DeclareOpaqueType<S, I>, omit: set<string>)
    requires ExtLawful(ext)
    requires omit <= {"type_ann"}
    requires "type_ann" in omit ==> d.typeAnn == None
    ensures DecodeDeclareOpaqueType(ext, Obj(EncodeDeclareOpaqueType(ext, d).fields - omit)) == Ok(d)
  {
    var v := Obj(EncodeDeclareOpaqueType(ext, d).fields - omit);
    assert v.fields["type"] == Str("DeclareOpaqueType");
    assert v.fields["span"] == ext.span.enc(d.span);
    assert v.fields["id"] == ext.ident.enc(d.id);
    if "type_ann" !in omit {
      OptFlowTypeRoundTrip(ext, d.typeAnn, v, "type_ann");
    }
  }

  // ---------------------------------------------------------------------
  // Required keys: a missing non-optional field is never defaulted
  // ---------------------------------------------------------------------

  /** `span` and `kind` are required: leaving any one out fails with
      `MissingRequiredField` naming that key. */
  lemma KeywordTypeRequired<S(!new), I(!new), X(!new), M(!new)>(ext: Ext<S, I, X, M>, n: KeywordType<S>, k: string)
    requires ExtLawful(ext)
    requires k in {"span", "kind"}
    ensures DecodeKeywordType(ext, Obj(EncodeKeywordType(ext, n).fields - {k})) == Err(MissingRequiredField(k))
  {
  }

  /** `span` is required: leaving it out fails with `MissingRequiredField`. */
  lemma ThisTypeRequired<S(!new), I(!new), X(!new), M(!new)>(ext: Ext<S, I, X, M>, n: ThisTypeAnnotation<S>, k: string)
    requires ExtLawful(ext)
    requires k == "span"
    ensures DecodeThisType(ext, Obj(EncodeThisType(ext, n).fields - {k})) == Err(MissingRequiredField(k))
  {
  }

  /** `span`, `id` and `params` are required: leaving any one out fails with
      `MissingRequiredField` naming that key. */
  lemma FunctionTypeRequired<S(!new), I(!new), X(!new), M(!new)>(ext: Ext<S, I, X, M>, n: FunctionTypeAnnotation<S, I>, k: string)
    requires ExtLawful(ext)
    requires k in {"span", "id", "params"}
    ensures DecodeFunctionType(ext, Obj(EncodeFunctionType(ext, n).fields - {k})) == Err(MissingRequiredField(k))
  {
  }

  /** `span` and `name` are required: leaving any one out fails with
      `MissingRequiredField` naming that key. */
  lemma TypeParamRequired<S(!new), I(!new), X(!new), M(!new)>(ext: Ext<S, I, X, M>, n: TypeParam<S, I>, k: string)
    requires ExtLawful(ext)
    requires k in {"span", "name"}
    ensures DecodeTypeParam(ext, Obj(EncodeTypeParam(ext, n).fields - {k})) == Err(MissingRequiredField(k))
  {
  }

  /** `span` and `parameters` are required: leaving any one out fails with
      `MissingRequiredField` naming that key. */
  lemma TypeParamDeclRequired<S(!new), I(!new), X(!new), M(!new)>(ext: Ext<S, I, X, M>, n: TypeParamDecl<S, I>, k: string)
    requires ExtLawful(ext)
    requires k in {"span", "parameters"}
    ensures DecodeTypeParamDecl(ext, Obj(EncodeTypeParamDecl(ext, n).fields - {k})) == Err(MissingRequiredField(k))
  {
  }

  /** `span` and `typeAnnotation` are required: leaving any one out fails with
      `MissingRequiredField` naming that key. */
  lemma TypeAnnRequired<S(!new), I(!new), X(!new), M(!new)>(ext: Ext<S, I, X, M>, n: TypeAnn<S, I>, k: string)
    requires ExtLawful(ext)
    requires k in {"span", "typeAnnotation"}
    ensures DecodeTypeAnn(ext, Obj(EncodeTypeAnn(ext, n).fields - {k})) == Err(MissingRequiredField(k))
  {
  }

  /** `span` is required: leaving it out fails with `MissingRequiredField`. */
  lemma InferredPredicateRequired<S(!new), I(!new), X(!new), M(!new)>(ext: Ext<S, I, X, M>, n: InferredPredicate<S>, k: string)
    requires ExtLawful(ext)
    requires k == "span"
    ensures DecodeInferredPredicate(ext, Obj(EncodeInferredPredicate(ext, n).fields - {k})) == Err(MissingRequiredField(k))
  {
  }

  /** `span` and `value` are required: leaving any one out fails with
      `MissingRequiredField` naming that key. */
  lemma DeclaredPredicateRequired<S(!new), I(!new), X(!new), M(!new)>(ext: Ext<S, I, X, M>, n: DeclaredPredicate<S, X>, k: string)
    requires ExtLawful(ext)
    requires k in {"span", "value"}
    ensures DecodeDeclaredPredicate(ext, Obj(EncodeDeclaredPredicate(ext, n).fields - {k})) == Err(MissingRequiredField(k))
  {
  }

  /** `span` and `value` are required: leaving any one out fails with
      `MissingRequiredField` naming that key. */
  lemma BooleanLiteralRequired<S(!new), I(!new), X(!new), M(!new)>(ext: Ext<S, I, X, M>, n: BooleanLiteralTypeAnnotation<S, X>, k: string)
    requires ExtLawful(ext)
    requires k in {"span", "value"}
    ensures DecodeBooleanLiteral(ext, Obj(EncodeBooleanLiteral(ext, n).fields - {k})) == Err(MissingRequiredField(k))
  {
  }

  /** `span`, `declare` and `id` are required: leaving any one out fails with
      `MissingRequiredField` naming that key. */
  lemma DeclareClassRequired<S(!new), I(!new), X(!new), M(!new)>(ext: Ext<S, I, X, M>, n: DeclareClass<S, I>, k: string)
    requires ExtLawful(ext)
    requires k in {"span", "declare", "id"}
    ensures DecodeDeclareClass(ext, Obj(EncodeDeclareClass(ext, n).fields - {k})) == Err(MissingRequiredField(k))
  {
  }

  /** `span`, `declare`, `id` and `predicate` are required: leaving any one out fails with
      `MissingRequiredField` naming that key. */
  lemma DeclareFunctionRequired<S(!new), I(!new), X(!new), M(!new)>(ext: Ext<S, I, X, M>, n: DeclareFunction<S, I, X>, k: string)
    requires ExtLawful(ext)
    requires k in {"span", "declare", "id", "predicate"}
    ensures DecodeDeclareFunction(ext, Obj(EncodeDeclareFunction(ext, n).fields - {k})) == Err(MissingRequiredField(k))
  {
  }

  /** `span` is required: leaving it out fails with `MissingRequiredField`. */
  lemma DeclareInterfaceRequired<S(!new), I(!new), X(!new), M(!new)>(ext: Ext<S, I, X, M>, n: DeclareInterface<S>, k: string)
    requires ExtLawful(ext)
    requires k == "span"
    ensures DecodeDeclareInterface(ext, Obj(EncodeDeclareInterface(ext, n).fields - {k})) == Err(MissingRequiredField(k))
  {
  }

  /** `span` and `body` are required: leaving any one out fails with
      `MissingRequiredField` naming that key. */
  lemma ModuleBlockRequired<S(!new), I(!new), X(!new), M(!new)>(ext: Ext<S, I, X, M>, n: ModuleBlock<S, M>, k: string)
    requires ExtLawful(ext)
    requires k in {"span", "body"}
    ensures DecodeModuleBlock(ext, Obj(EncodeModuleBlock(ext, n).fields - {k})) == Err(MissingRequiredField(k))
  {
  }

  /** `span` and `id` are required: leaving any one out fails with
      `MissingRequiredField` naming that key. */
  lemma DeclareModuleRequired<S(!new), I(!new), X(!new), M(!new)>(ext: Ext<S, I, X, M>, n: DeclareModule<S, I, M>, k: string)
    requires ExtLawful(ext)
    requires k in {"span", "id"}
    ensures DecodeDeclareModule(ext, Obj(EncodeDeclareModule(ext, n).fields - {k})) == Err(MissingRequiredField(k))
  {
  }

  /** `span` is required: leaving it out fails with `MissingRequiredField`. */
  lemma DeclareModuleExportsRequired<S(!new), I(!new), X(!new), M(!new)>(ext: Ext<S, I, X, M>, n: DeclareModuleExports<S, I>, k: string)
    requires ExtLawful(ext)
    requires k == "span"
    ensures DecodeDeclareModuleExports(ext, Obj(EncodeDeclareModuleExports(ext, n).fields - {k})) == Err(MissingRequiredField(k))
  {
  }

  /** `span` is required: leaving it out fails with `MissingRequiredField`. */
  lemma DeclareTypeAliasRequired<S(!new), I(!new), X(!new), M(!new)>(ext: Ext<S, I, X, M>, n: DeclareTypeAlias<S, I>, k: string)
    requires ExtLawful(ext)
    requires k == "span"
    ensures DecodeDeclareTypeAlias(ext, Obj(EncodeDeclareTypeAlias(ext, n).fields - {k})) == Err(MissingRequiredField(k))
  {
  }

  /** `span` and `id` are required: leaving any one out fails with
      `MissingRequiredField` naming that key. */
  lemma DeclareOpaqueTypeRequired<S(!new), I(!new), X(!new), M(!new)>(ext: Ext<S, I, X, M>, n: DeclareOpaqueType<S, I>, k: string)
    requires ExtLawful(ext)
    requires k in {"span", "id"}
    ensures DecodeDeclareOpaqueType(ext, Obj(EncodeDeclareOpaqueType(ext, n).fields - {k})) == Err(MissingRequiredField(k))
  {
  }
  // ---------------------------------------------------------------------
  // Round trips of the predicates and the ambient declarations
  // ---------------------------------------------------------------------

  /** Each predicate reads back as the same member of the union. */
  lemma PredicateRoundTrip<S(!new), I(!new), X(!new), M(!new)>(ext: Ext<S, I, X, M>, p: InferredOrDeclaredPredicate<S, X>)
    requires ExtLawful(ext)
    ensures DecodePredicate(ext, EncodePredicate(ext, p)) == Ok(p)
  {
  }

  lemma BooleanLiteralRoundTrip<S(!new), I(!new), X(!new), M(!new)>(ext: Ext<S, I, X, M>, b: BooleanLiteralTypeAnnotation<S, X>)
    requires ExtLawful(ext)
    ensures DecodeBooleanLiteral(ext, EncodeBooleanLiteral(ext, b)) == Ok(b)
  {
  }

  lemma DeclareClassRoundTrip<S(!new), I(!new), X(!new), M(!new)>(ext: Ext<S, I, X, M>, d: DeclareClass<S, I>)
    requires ExtLawful(ext)
    ensures DecodeDeclareClass(ext, EncodeDeclareClass(ext, d)) == Ok(d)
  {
  }

  lemma DeclareFunctionRoundTrip<S(!new), I(!new), X(!new), M(!new)>(ext: Ext<S, I, X, M>, d: DeclareFunction<S, I, X>)
    requires ExtLawful(ext)
    ensures DecodeDeclareFunction(ext, EncodeDeclareFunction(ext, d)) == Ok(d)
  {
    PredicateRoundTrip(ext, d.pred);
  }

  lemma DeclareInterfaceRoundTrip<S(!new), I(!new), X(!new), M(!new)>(ext: Ext<S, I, X, M>, d: DeclareInterface<S>)
    requires ExtLawful(ext)
    ensures DecodeDeclareInterface(ext, EncodeDeclareInterface(ext, d)) == Ok(d)
  {
  }

  lemma ModuleBlockRoundTrip<S(!new), I(!new), X(!new), M(!new)>(ext: Ext<S, I, X, M>, b: ModuleBlock<S, M>)
    requires ExtLawful(ext)
    ensures DecodeModuleBlock(ext, EncodeModuleBlock(ext, b)) == Ok(b)
  {
    SeqRoundTrip(ext.item, b.body);
  }

  lemma DeclareModuleRoundTrip<S(!new), I(!new), X(!new), M(!new)>(ext: Ext<S, I, X, M>, d: DeclareModule<S, I, M>)
    requires ExtLawful(ext)
    ensures DecodeDeclareModule(ext, EncodeDeclareModule(ext, d)) == Ok(d)
  {
    if d.body.Some? {
      ModuleBlockRoundTrip(ext, d.body.value);
    }
  }

  lemma DeclareModuleExportsRoundTrip<S(!new), I(!new), X(!new), M(!new)>(ext: Ext<S, I, X, M>, d: DeclareModuleExports<S, I>)
    requires ExtLawful(ext)
    ensures DecodeDeclareModuleExports(ext, EncodeDeclareModuleExports(ext, d)) == Ok(d)
  {
    OptFlowTypeRoundTrip(ext, d.typeAnn, EncodeDeclareModuleExports(ext, d), "type_ann");
  }

  lemma DeclareTypeAliasRoundTrip<S(!new), I(!new), X(!new), M(!new)>(ext: Ext<S, I, X, M>, d: DeclareTypeAlias<S, I>)
    requires ExtLawful(ext)
    ensures DecodeDeclareTypeAlias(ext, EncodeDeclareTypeAlias(ext, d)) == Ok(d)
  {
    var v := EncodeDeclareTypeAlias(ext, d);
    OptTypeParamDeclRoundTrip(ext, d.typeParams, v, "type_params");
    OptFlowTypeRoundTrip(ext, d.typeAnn, v, "type_ann");
  }

  lemma DeclareOpaqueTypeRoundTrip<S(!new), I(!new), X(!new), M(!new)>(ext: Ext<S, I, X, M>, d: DeclareOpaqueType<S, I>)
    requires ExtLawful(ext)
    ensures DecodeDeclareOpaqueType(ext, EncodeDeclareOpaqueType(ext, d)) == Ok(d)
  {
    OptFlowTypeRoundTrip(ext, d.typeAnn, EncodeDeclareOpaqueType(ext, d), "type_ann");
  }
}
