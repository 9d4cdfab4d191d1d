/** The interchange schema of the Flow nodes: every node is an object whose
    "type" key holds the node kind's tag, plus one key per field under the
    field's external name. A union is written as the object of the node it
    holds, and read back by dispatching on that object's tag. An absent
    optional field is written as null. */
module FlowSerde {

  import opened Json
  import opened FlowAst

  /** The codecs of the externally defined types: spans, identifiers,
      expressions and module items. */
  datatype Ext<!S, !I, !X, !M> = Ext(span: Codec<S>, ident: Codec<I>, expr: Codec<X>, item: Codec<M>)

  ghost predicate ExtLawful<S(!new), I(!new), X(!new), M(!new)>(ext: Ext<S, I, X, M>) {
    Lawful(ext.span) && Lawful(ext.ident) && Lawful(ext.expr) && Lawful(ext.item)
  }

  /** The tag of each member of the type-node union. */
  function FlowTypeTag<S, I>(t: FlowType<S, I>): string {
    match t
    case KeywordTy(_) => "KeywordType"
    case ThisTy(_) => "ThisTypeAnnotation"
    case FunctionTy(_) => "FunctionTypeAnnotation"
  }

  const FlowTypeTags: set<string> := {"KeywordType", "ThisTypeAnnotation", "FunctionTypeAnnotation"}

  /** The tag of each member of the predicate union. */
  function PredicateTag<S, X>(p: InferredOrDeclaredPredicate<S, X>): string {
    match p
    case Inferred(_) => "InferredPredicate"
    case Declared(_) => "DeclaredPredicate"
  }

  const PredicateTags: set<string> := {"InferredPredicate", "DeclaredPredicate"}

  /** The discriminant string of `v`, when it has one. */
  function TagOf(v: Value): Option<string> {
    if v.Obj? && "type" in v.fields && v.fields["type"].Str? then Some(v.fields["type"].s) else None
  }

  // ---------------------------------------------------------------------
  // Encoding
  // ---------------------------------------------------------------------

  function EncodeKeywordType<S, I, X, M>(ext: Ext<S, I, X, M>, k: KeywordType<S>): (r: Value)
    ensures TagOf(r) == Some("KeywordType")
    ensures r.Obj? && r.fields.Keys == {"type", "span", "kind"}
  {
    Obj(map["type" := Str("KeywordType"), "span" := ext.span.enc(k.span), "kind" := Str(KeywordName(k.kind))])
  }

  function EncodeThisType<S, I, X, M>(ext: Ext<S, I, X, M>, t: ThisTypeAnnotation<S>): (r: Value)
    ensures TagOf(r) == Some("ThisTypeAnnotation")
    ensures r.Obj? && r.fields.Keys == {"type", "span"}
  {
    Obj(map["type" := Str("ThisTypeAnnotation"), "span" := ext.span.enc(t.span)])
  }

  /** A member of the union is written as the node it holds. */
  function EncodeFlowType<S, I, X, M>(ext: Ext<S, I, X, M>, t: FlowType<S, I>): (r: Value)
    ensures TagOf(r) == Some(FlowTypeTag(t))
    decreases t
  {
    match t
    case KeywordTy(k) => EncodeKeywordType(ext, k)
    case ThisTy(th) => EncodeThisType(ext, th)
    case FunctionTy(f) => EncodeFunctionType(ext, f)
  }

  function EncodeFunctionType<S, I, X, M>(ext: Ext<S, I, X, M>, f: FunctionTypeAnnotation<S, I>): (r: Value)
    ensures TagOf(r) == Some("FunctionTypeAnnotation")
    ensures r.Obj? && r.fields.Keys == {"type", "span", "id", "params", "type_params"}
    decreases f
  {
    Obj(map[
      "type" := Str("FunctionTypeAnnotation"),
      "span" := ext.span.enc(f.span),
      "id" := ext.ident.enc(f.id),
      "params" := Arr(EncodeTypeParams(ext, f.params)),
      "type_params" := EncodeOptTypeParamDecl(ext, f.typeParams)])
  }

  /** Type parameters are written as an array, in order. */
  function EncodeTypeParams<S, I, X, M>(ext: Ext<S, I, X, M>, ps: seq<TypeParam<S, I>>): (r: seq<Value>)
    ensures |r| == |ps|
    ensures forall i :: 0 <= i < |ps| ==> r[i] == EncodeTypeParam(ext, ps[i])
    decreases ps
  {
    if ps == [] then [] else [EncodeTypeParam(ext, ps[0])] + EncodeTypeParams(ext, ps[1..])
  }

  function EncodeTypeParam<S, I, X, M>(ext: Ext<S, I, X, M>, p: TypeParam<S, I>): (r: Value)
    ensures TagOf(r) == Some("TypeParameter")
    ensures r.Obj? && r.fields.Keys == {"type", "span", "name", "bound", "default"}
    decreases p
  {
    Obj(map[
      "type" := Str("TypeParameter"),
      "span" := ext.span.enc(p.span),
      "name" := ext.ident.enc(p.name),
      "bound" := EncodeOptFlowType(ext, p.bound),
      "default" := EncodeOptFlowType(ext, p.default)])
  }

  /** `params` is written under "parameters". */
  function EncodeTypeParamDecl<S, I, X, M>(ext: Ext<S, I, X, M>, d: TypeParamDecl<S, I>): (r: Value)
    ensures TagOf(r) == Some("TypeParamDecl")
    ensures r.Obj? && r.fields.Keys == {"type", "span", "parameters"}
    decreases d
  {
    Obj(map[
      "type" := Str("TypeParamDecl"),
      "span" := ext.span.enc(d.span),
      "parameters" := Arr(EncodeTypeParams(ext, d.params))])
  }

  function EncodeOptFlowType<S, I, X, M>(ext: Ext<S, I, X, M>, o: Option<FlowType<S, I>>): (r: Value)
    ensures o.None? <==> r == Null
    ensures o.Some? ==> TagOf(r) == Some(FlowTypeTag(o.value))
    decreases o
  {
    match o
    case None => Null
    case Some(t) => EncodeFlowType(ext, t)
  }

  function EncodeOptTypeParamDecl<S, I, X, M>(ext: Ext<S, I, X, M>, o: Option<TypeParamDecl<S, I>>): (r: Value)
    ensures o.None? <==> r == Null
    ensures o.Some? ==> TagOf(r) == Some("TypeParamDecl")
    decreases o
  {
    match o
    case None => Null
    case Some(d) => EncodeTypeParamDecl(ext, d)
  }

  /** `type_ann` is written under "typeAnnotation". */
  function EncodeTypeAnn<S, I, X, M>(ext: Ext<S, I, X, M>, a: TypeAnn<S, I>): (r: Value)
    ensures TagOf(r) == Some("TypeAnnotation")
    ensures r.Obj? && r.fields.Keys == {"type", "span", "typeAnnotation"}
  {
    Obj(map[
      "type" := Str("TypeAnnotation"),
      "span" := ext.span.enc(a.span),
      "typeAnnotation" := EncodeFlowType(ext, a.typeAnn)])
  }

  // ---------------------------------------------------------------------
  // Decoding
  // ---------------------------------------------------------------------

  /** An optional field. serde's derive reads a missing key of an `Option`
      field as None, with or without `#[serde(default)]`; null reads as None
      too. */
  function DecodeOptFlowType<S, I, X, M>(ext: Ext<S, I, X, M>, v: Value, key: string)
    : (r: Result<Option<FlowType<S, I>>>)
    ensures v.Obj? && key !in v.fields ==> r == Ok(None)
    ensures v.Obj? && key in v.fields && v.fields[key] == Null ==> r == Ok(None)
    decreases v, 0
  {
    if !v.Obj? then Err(NotAnObject)
    else if key !in v.fields || v.fields[key] == Null then Ok(None)
    else
      var t :- DecodeFlowType(ext, v.fields[key]);
      Ok(Some(t))
  }

  function DecodeOptTypeParamDecl<S, I, X, M>(ext: Ext<S, I, X, M>, v: Value, key: string)
    : (r: Result<Option<TypeParamDecl<S, I>>>)
    ensures v.Obj? && key !in v.fields ==> r == Ok(None)
    ensures v.Obj? && key in v.fields && v.fields[key] == Null ==> r == Ok(None)
    decreases v, 0
  {
    if !v.Obj? then Err(NotAnObject)
    else if key !in v.fields || v.fields[key] == Null then Ok(None)
    else
      var d :- DecodeTypeParamDecl(ext, v.fields[key]);
      Ok(Some(d))
  }

  function DecodeKeywordType<S, I, X, M>(ext: Ext<S, I, X, M>, v: Value): (r: Result<KeywordType<S>>)
    ensures r.Ok? ==> TagOf(v) == Some("KeywordType")
    ensures TagOf(v) == Some("KeywordType") && "kind" in v.fields && v.fields["kind"].Str?
            && v.fields["kind"].s !in KeywordNames && LookupWith(ext.span, v, "span").Ok?
            ==> r == Err(UnknownKeyword(v.fields["kind"].s))
  {
    var _ :- ExpectTag(v, "KeywordType");
    var span :- LookupWith(ext.span, v, "span");
    var word :- LookupStr(v, "kind");
    var kind :- KeywordFromName(word);
    Ok(KeywordType(span, kind))
  }

  function DecodeThisType<S, I, X, M>(ext: Ext<S, I, X, M>, v: Value): (r: Result<ThisTypeAnnotation<S>>)
    ensures r.Ok? ==> TagOf(v) == Some("ThisTypeAnnotation")
  {
    var _ :- ExpectTag(v, "ThisTypeAnnotation");
    var span :- LookupWith(ext.span, v, "span");
    Ok(ThisTypeAnnotation(span))
  }

  /** Reads the discriminant, then the node kind it names. */
  function DecodeFlowType<S, I, X, M>(ext: Ext<S, I, X, M>, v: Value): (r: Result<FlowType<S, I>>)
    ensures r.Ok? ==> TagOf(v) == Some(FlowTypeTag(r.value))
    ensures TagOf(v).Some? && TagOf(v).value !in FlowTypeTags ==> r == Err(UnexpectedNodeType(TagOf(v).value))
    ensures v.Obj? && "type" !in v.fields ==> r == Err(MissingRequiredField("type"))
    decreases v, 2
  {
    var tag :- LookupStr(v, "type");
    if tag == "KeywordType" then
      var k :- DecodeKeywordType(ext, v);
      Ok(KeywordTy(k))
    else if tag == "ThisTypeAnnotation" then
      var t :- DecodeThisType(ext, v);
      Ok(ThisTy(t))
    else if tag == "FunctionTypeAnnotation" then
      var f :- DecodeFunctionType(ext, v);
      Ok(FunctionTy(f))
    else
      Err(UnexpectedNodeType(tag))
  }

  function DecodeFunctionType<S, I, X, M>(ext: Ext<S, I, X, M>, v: Value): (r: Result<FunctionTypeAnnotation<S, I>>)
    ensures r.Ok? ==> TagOf(v) == Some("FunctionTypeAnnotation")
    decreases v, 1
  {
    var _ :- ExpectTag(v, "FunctionTypeAnnotation");
    var span :- LookupWith(ext.span, v, "span");
    var id :- LookupWith(ext.ident, v, "id");
    var items :- LookupArr(v, "params");
    var params :- DecodeTypeParams(ext, items);
    var typeParams :- DecodeOptTypeParamDecl(ext, v, "type_params");
    Ok(FunctionTypeAnnotation(span, id, params, typeParams))
  }

  /** An array of type parameters, read in order; the first failing element
      fails the whole array. */
  function DecodeTypeParams<S, I, X, M>(ext: Ext<S, I, X, M>, items: seq<Value>): (r: Result<seq<TypeParam<S, I>>>)
    ensures r.Ok? ==> |r.value| == |items| &&
                      forall i :: 0 <= i < |items| ==> DecodeTypeParam(ext, items[i]) == Ok(r.value[i])
    ensures r.Err? <==> exists i :: 0 <= i < |items| && DecodeTypeParam(ext, items[i]).Err?
    decreases items
  {
    if items == [] then Ok([])
    else
      var p :- DecodeTypeParam(ext, items[0]);
      var rest :- DecodeTypeParams(ext, items[1..]);
      assert forall i :: 1 <= i < |items| ==> items[i] == items[1..][i - 1];
      Ok([p] + rest)
  }

  /** `bound` and `default` carry `#[serde(default)]`, which for an `Option`
      field agrees with serde's reading of a missing key: either may be
      missing. */
  function DecodeTypeParam<S, I, X, M>(ext: Ext<S, I, X, M>, v: Value): (r: Result<TypeParam<S, I>>)
    ensures r.Ok? ==> TagOf(v) == Some("TypeParameter")
    decreases v, 1
  {
    var _ :- ExpectTag(v, "TypeParameter");
    var span :- LookupWith(ext.span, v, "span");
    var name :- LookupWith(ext.ident, v, "name");
    var bound :- DecodeOptFlowType(ext, v, "bound");
    var default :- DecodeOptFlowType(ext, v, "default");
    Ok(TypeParam(span, name, bound, default))
  }

  /** `params` is read from "parameters". */
  function DecodeTypeParamDecl<S, I, X, M>(ext: Ext<S, I, X, M>, v: Value): (r: Result<TypeParamDecl<S, I>>)
    ensures r.Ok? ==> TagOf(v) == Some("TypeParamDecl")
    ensures v.Obj? && "parameters" !in v.fields ==> r.Err?
    decreases v, 1
  {
    var _ :- ExpectTag(v, "TypeParamDecl");
    var span :- LookupWith(ext.span, v, "span");
    var items :- LookupArr(v, "parameters");
    var params :- DecodeTypeParams(ext, items);
    Ok(TypeParamDecl(span, params))
  }

  /** `type_ann` is read from "typeAnnotation". */
  function DecodeTypeAnn<S, I, X, M>(ext: Ext<S, I, X, M>, v: Value): (r: Result<TypeAnn<S, I>>)
    ensures r.Ok? ==> TagOf(v) == Some("TypeAnnotation")
    ensures v.Obj? && "typeAnnotation" !in v.fields ==> r.Err?
  {
    var _ :- ExpectTag(v, "TypeAnnotation");
    var span :- LookupWith(ext.span, v, "span");
    var t :- Lookup(v, "typeAnnotation");
    var ann :- DecodeFlowType(ext, t);
    Ok(TypeAnn(span, ann))
  }

  // ---------------------------------------------------------------------
  // Predicates, literal types and ambient declarations
  // ---------------------------------------------------------------------

  function EncodeInferredPredicate<S, I, X, M>(ext: Ext<S, I, X, M>, p: InferredPredicate<S>): (r: Value)
    ensures TagOf(r) == Some("InferredPredicate")
    ensures r.Obj? && r.fields.Keys == {"type", "span"}
  {
    Obj(map["type" := Str("InferredPredicate"), "span" := ext.span.enc(p.span)])
  }

  function EncodeDeclaredPredicate<S, I, X, M>(ext: Ext<S, I, X, M>, p: DeclaredPredicate<S, X>): (r: Value)
    ensures TagOf(r) == Some("DeclaredPredicate")
    ensures r.Obj? && r.fields.Keys == {"type", "span", "value"}
  {
    Obj(map["type" := Str("DeclaredPredicate"), "span" := ext.span.enc(p.span), "value" := ext.expr.enc(p.value)])
  }

  /** A member of the predicate union is written as the predicate it holds. */
  function EncodePredicate<S, I, X, M>(ext: Ext<S, I, X, M>, p: InferredOrDeclaredPredicate<S, X>): (r: Value)
    ensures TagOf(r) == Some(PredicateTag(p))
  {
    match p
    case Inferred(i) => EncodeInferredPredicate(ext, i)
    case Declared(d) => EncodeDeclaredPredicate(ext, d)
  }

  function DecodeInferredPredicate<S, I, X, M>(ext: Ext<S, I, X, M>, v: Value): (r: Result<InferredPredicate<S>>)
    ensures r.Ok? ==> TagOf(v) == Some("InferredPredicate")
  {
    var _ :- ExpectTag(v, "InferredPredicate");
    var span :- LookupWith(ext.span, v, "span");
    Ok(InferredPredicate(span))
  }

  function DecodeDeclaredPredicate<S, I, X, M>(ext: Ext<S, I, X, M>, v: Value): (r: Result<DeclaredPredicate<S, X>>)
    ensures r.Ok? ==> TagOf(v) == Some("DeclaredPredicate")
  {
    var _ :- ExpectTag(v, "DeclaredPredicate");
    var span :- LookupWith(ext.span, v, "span");
    var value :- LookupWith(ext.expr, v, "value");
    Ok(DeclaredPredicate(span, value))
  }

  /** Reads the discriminant, then the predicate kind it names. */
  function DecodePredicate<S, I, X, M>(ext: Ext<S, I, X, M>, v: Value): (r: Result<InferredOrDeclaredPredicate<S, X>>)
    ensures r.Ok? ==> TagOf(v) == Some(PredicateTag(r.value))
    ensures TagOf(v).Some? && TagOf(v).value !in PredicateTags ==> r == Err(UnexpectedNodeType(TagOf(v).value))
    ensures v.Obj? && "type" !in v.fields ==> r == Err(MissingRequiredField("type"))
  {
    var tag :- LookupStr(v, "type");
    if tag == "InferredPredicate" then
      var i :- DecodeInferredPredicate(ext, v);
      Ok(Inferred(i))
    else if tag == "DeclaredPredicate" then
      var d :- DecodeDeclaredPredicate(ext, v);
      Ok(Declared(d))
    else
      Err(UnexpectedNodeType(tag))
  }

  function EncodeBooleanLiteral<S, I, X, M>(ext: Ext<S, I, X, M>, b: BooleanLiteralTypeAnnotation<S, X>): (r: Value)
    ensures TagOf(r) == Some("BooleanLiteralTypeAnnotation")
    ensures r.Obj? && r.fields.Keys == {"type", "span", "value"}
  {
    Obj(map["type" := Str("BooleanLiteralTypeAnnotation"), "span" := ext.span.enc(b.span), "value" := ext.expr.enc(b.value)])
  }

  function DecodeBooleanLiteral<S, I, X, M>(ext: Ext<S, I, X, M>, v: Value): (r: Result<BooleanLiteralTypeAnnotation<S, X>>)
    ensures r.Ok? ==> TagOf(v) == Some("BooleanLiteralTypeAnnotation")
  {
    var _ :- ExpectTag(v, "BooleanLiteralTypeAnnotation");
    var span :- LookupWith(ext.span, v, "span");
    var value :- LookupWith(ext.expr, v, "value");
    Ok(BooleanLiteralTypeAnnotation(span, value))
  }

  function EncodeDeclareClass<S, I, X, M>(ext: Ext<S, I, X, M>, d: DeclareClass<S, I>): (r: Value)
    ensures TagOf(r) == Some("DeclareClass")
    ensures r.Obj? && r.fields.Keys == {"type", "span", "declare", "id"}
  {
    Obj(map["type" := Str("DeclareClass"), "span" := ext.span.enc(d.span), "declare" := Bool(d.declare), "id" := ext.ident.enc(d.id)])
  }

  function DecodeDeclareClass<S, I, X, M>(ext: Ext<S, I, X, M>, v: Value): (r: Result<DeclareClass<S, I>>)
    ensures r.Ok? ==> TagOf(v) == Some("DeclareClass")
  {
    var _ :- ExpectTag(v, "DeclareClass");
    var span :- LookupWith(ext.span, v, "span");
    var declare :- LookupBool(v, "declare");
    var id :- LookupWith(ext.ident, v, "id");
    Ok(DeclareClass(span, declare, id))
  }

  function EncodeDeclareFunction<S, I, X, M>(ext: Ext<S, I, X, M>, d: DeclareFunction<S, I, X>): (r: Value)
    ensures TagOf(r) == Some("DeclareFunction")
    ensures r.Obj? && r.fields.Keys == {"type", "span", "declare", "id", "predicate"}
  {
    Obj(map[
      "type" := Str("DeclareFunction"),
      "span" := ext.span.enc(d.span),
      "declare" := Bool(d.declare),
      "id" := ext.ident.enc(d.id),
      "predicate" := EncodePredicate(ext, d.pred)])
  }

  function DecodeDeclareFunction<S, I, X, M>(ext: Ext<S, I, X, M>, v: Value): (r: Result<DeclareFunction<S, I, X>>)
    ensures r.Ok? ==> TagOf(v) == Some("DeclareFunction")
  {
    var _ :- ExpectTag(v, "DeclareFunction");
    var span :- LookupWith(ext.span, v, "span");
    var declare :- LookupBool(v, "declare");
    var id :- LookupWith(ext.ident, v, "id");
    var p :- Lookup(v, "predicate");
    var pred :- DecodePredicate(ext, p);
    Ok(DeclareFunction(span, declare, id, pred))
  }

  function EncodeDeclareInterface<S, I, X, M>(ext: Ext<S, I, X, M>, d: DeclareInterface<S>): (r: Value)
    ensures TagOf(r) == Some("DeclareInterface")
    ensures r.Obj? && r.fields.Keys == {"type", "span"}
  {
    Obj(map["type" := Str("DeclareInterface"), "span" := ext.span.enc(d.span)])
  }

  function DecodeDeclareInterface<S, I, X, M>(ext: Ext<S, I, X, M>, v: Value): (r: Result<DeclareInterface<S>>)
    ensures r.Ok? ==> TagOf(v) == Some("DeclareInterface")
  {
    var _ :- ExpectTag(v, "DeclareInterface");
    var span :- LookupWith(ext.span, v, "span");
    Ok(DeclareInterface(span))
  }

  function EncodeModuleBlock<S, I, X, M>(ext: Ext<S, I, X, M>, b: ModuleBlock<S, M>): (r: Value)
    ensures TagOf(r) == Some("ModuleBlock")
    ensures r.Obj? && r.fields.Keys == {"type", "span", "body"}
  {
    Obj(map["type" := Str("ModuleBlock"), "span" := ext.span.enc(b.span), "body" := Arr(EncodeSeq(ext.item, b.body))])
  }

  function DecodeModuleBlock<S, I, X, M>(ext: Ext<S, I, X, M>, v: Value): (r: Result<ModuleBlock<S, M>>)
    ensures r.Ok? ==> TagOf(v) == Some("ModuleBlock")
  {
    var _ :- ExpectTag(v, "ModuleBlock");
    var span :- LookupWith(ext.span, v, "span");
    var items :- LookupArr(v, "body");
    var body :- DecodeSeq(ext.item, items);
    Ok(ModuleBlock(span, body))
  }

  function EncodeDeclareModule<S, I, X, M>(ext: Ext<S, I, X, M>, d: DeclareModule<S, I, M>): (r: Value)
    ensures TagOf(r) == Some("DeclareModule")
    ensures r.Obj? && r.fields.Keys == {"type", "span", "id", "body"}
  {
    Obj(map[
      "type" := Str("DeclareModule"),
      "span" := ext.span.enc(d.span),
      "id" := ext.ident.enc(d.id),
      "body" := match d.body case None => Null case Some(b) => EncodeModuleBlock(ext, b)])
  }

  /** `body` is an `Option`: a missing key and null both read as None. */
  function DecodeDeclareModule<S, I, X, M>(ext: Ext<S, I, X, M>, v: Value): (r: Result<DeclareModule<S, I, M>>)
    ensures r.Ok? ==> TagOf(v) == Some("DeclareModule")
    ensures v.Obj? && "body" !in v.fields && r.Ok? ==> r.value.body == None
    ensures (&& TagOf(v) == Some("DeclareModule") && "body" !in v.fields
             && LookupWith(ext.span, v, "span").Ok? && LookupWith(ext.ident, v, "id").Ok?) ==> r.Ok?
  {
    var _ :- ExpectTag(v, "DeclareModule");
    var span :- LookupWith(ext.span, v, "span");
    var id :- LookupWith(ext.ident, v, "id");
    if "body" !in v.fields || v.fields["body"] == Null then Ok(DeclareModule(span, id, None))
    else
      var block :- DecodeModuleBlock(ext, v.fields["body"]);
      Ok(DeclareModule(span, id, Some(block)))
  }

  function EncodeDeclareModuleExports<S, I, X, M>(ext: Ext<S, I, X, M>, d: DeclareModuleExports<S, I>): (r: Value)
    ensures TagOf(r) == Some("DeclareModuleExports")
    ensures r.Obj? && r.fields.Keys == {"type", "span", "type_ann"}
  {
    Obj(map["type" := Str("DeclareModuleExports"), "span" := ext.span.enc(d.span), "type_ann" := EncodeOptFlowType(ext, d.typeAnn)])
  }

  function DecodeDeclareModuleExports<S, I, X, M>(ext: Ext<S, I, X, M>, v: Value): (r: Result<DeclareModuleExports<S, I>>)
    ensures r.Ok? ==> TagOf(v) == Some("DeclareModuleExports")
  {
    var _ :- ExpectTag(v, "DeclareModuleExports");
    var span :- LookupWith(ext.span, v, "span");
    var typeAnn :- DecodeOptFlowType(ext, v, "type_ann");
    Ok(DeclareModuleExports(span, typeAnn))
  }

  function EncodeDeclareTypeAlias<S, I, X, M>(ext: Ext<S, I, X, M>, d: DeclareTypeAlias<S, I>): (r: Value)
    ensures TagOf(r) == Some("DeclareTypeAlias")
    ensures r.Obj? && r.fields.Keys == {"type", "span", "type_params", "type_ann"}
  {
    Obj(map[
      "type" := Str("DeclareTypeAlias"),
      "span" := ext.span.enc(d.span),
      "type_params" := EncodeOptTypeParamDecl(ext, d.typeParams),
      "type_ann" := EncodeOptFlowType(ext, d.typeAnn)])
  }

  function DecodeDeclareTypeAlias<S, I, X, M>(ext: Ext<S, I, X, M>, v: Value): (r: Result<DeclareTypeAlias<S, I>>)
    ensures r.Ok? ==> TagOf(v) == Some("DeclareTypeAlias")
  {
    var _ :- ExpectTag(v, "DeclareTypeAlias");
    var span :- LookupWith(ext.span, v, "span");
    var typeParams :- DecodeOptTypeParamDecl(ext, v, "type_params");
    var typeAnn :- DecodeOptFlowType(ext, v, "type_ann");
    Ok(DeclareTypeAlias(span, typeParams, typeAnn))
  }

  function EncodeDeclareOpaqueType<S, I, X, M>(ext: Ext<S, I, X, M>, d: DeclareOpaqueType<S, I>): (r: Value)
    ensures TagOf(r) == Some("DeclareOpaqueType")
    ensures r.Obj? && r.fields.Keys == {"type", "span", "id", "type_ann"}
  {
    Obj(map[
      "type" := Str("DeclareOpaqueType"),
      "span" := ext.span.enc(d.span),
      "id" := ext.ident.enc(d.id),
      "type_ann" := EncodeOptFlowType(ext, d.typeAnn)])
  }

  function DecodeDeclareOpaqueType<S, I, X, M>(ext: Ext<S, I, X, M>, v: Value): (r: Result<DeclareOpaqueType<S, I>>)
    ensures r.Ok? ==> TagOf(v) == Some("DeclareOpaqueType")
  {
    var _ :- ExpectTag(v, "DeclareOpaqueType");
    var span :- LookupWith(ext.span, v, "span");
    var id :- LookupWith(ext.ident, v, "id");
    var typeAnn :- DecodeOptFlowType(ext, v, "type_ann");
    Ok(DeclareOpaqueType(span, id, typeAnn))
  }
}
