/** The derived fold of the Flow nodes: every node is rebuilt field by field,
    each field folded in turn. A visitor rewrites the leaves (spans,
    identifiers, expressions, module items, keyword kinds) and may override
    the two unions, whose hooks see each member after its fields were folded. */
module FlowFold {

  import opened Json
  import opened FlowAst

  datatype Visitor<!S, !I, !X, !M> = Visitor(
    span: S -> S,
    ident: I -> I,
    expr: X -> X,
    item: M -> M,
    kind: KeywordTypeKind -> KeywordTypeKind,
    flowType: FlowType<S, I> -> FlowType<S, I>,
    pred: InferredOrDeclaredPredicate<S, X> -> InferredOrDeclaredPredicate<S, X>)

  /** The visitor that overrides nothing and rewrites no leaf. */
  function IdentityVisitor<S, I, X, M>(): Visitor<S, I, X, M> {
    Visitor(s => s, i => i, x => x, m => m, k => k, t => t, p => p)
  }

  /** Every hook returns its argument. */
  ghost predicate IsIdentity<S(!new), I(!new), X(!new), M(!new)>(v: Visitor<S, I, X, M>) {
    && (forall s :: v.span(s) == s)
    && (forall i :: v.ident(i) == i)
    && (forall x :: v.expr(x) == x)
    && (forall m :: v.item(m) == m)
    && (forall k :: v.kind(k) == k)
    && (forall t :: v.flowType(t) == t)
    && (forall p :: v.pred(p) == p)
  }

  /** The visitor leaves the type-node union's hook alone. */
  ghost predicate NoFlowTypeOverride<S(!new), I(!new), X(!new), M(!new)>(v: Visitor<S, I, X, M>) {
    forall t :: v.flowType(t) == t
  }

  /** Running `first`, then `second`, on every hook. */
  function Then<S, I, X, M>(first: Visitor<S, I, X, M>, second: Visitor<S, I, X, M>): Visitor<S, I, X, M> {
    Visitor(
      s => second.span(first.span(s)),
      i => second.ident(first.ident(i)),
      x => second.expr(first.expr(x)),
      m => second.item(first.item(m)),
      k => second.kind(first.kind(k)),
      t => second.flowType(first.flowType(t)),
      p => second.pred(first.pred(p)))
  }

  // ---------------------------------------------------------------------
  // The type-node family
  // ---------------------------------------------------------------------

  function FoldKeywordType<S(!new), I(!new), X(!new), M(!new)>(v: Visitor<S, I, X, M>, k: KeywordType<S>): (r: KeywordType<S>)
    ensures (forall s :: v.span(s) == s) && (forall w :: v.kind(w) == w) ==> r == k
  {
    KeywordType(v.span(k.span), v.kind(k.kind))
  }

  function FoldThisType<S(!new), I(!new), X(!new), M(!new)>(v: Visitor<S, I, X, M>, t: ThisTypeAnnotation<S>): (r: ThisTypeAnnotation<S>)
    ensures (forall s :: v.span(s) == s) ==> r == t
  {
    ThisTypeAnnotation(v.span(t.span))
  }

  /** Folds the member's node, then hands the result to the union's hook;
      unless that hook rewrites it, the member is kept. */
  function FoldFlowType<S(!new), I(!new), X(!new), M(!new)>(v: Visitor<S, I, X, M>, t: FlowType<S, I>): (r: FlowType<S, I>)
    ensures (forall u :: v.flowType(u) == u) ==>
              && (r.KeywordTy? <==> t.KeywordTy?)
              && (r.ThisTy? <==> t.ThisTy?)
              && (r.FunctionTy? <==> t.FunctionTy?)
    decreases t
  {
    v.flowType(
      match t
      case KeywordTy(k) => KeywordTy(FoldKeywordType(v, k))
      case ThisTy(th) => ThisTy(FoldThisType(v, th))
      case FunctionTy(f) => FunctionTy(FoldFunctionType(v, f)))
  }

  /** Keeps the number of parameters and whether type parameters are present. */
  function FoldFunctionType<S(!new), I(!new), X(!new), M(!new)>(v: Visitor<S, I, X, M>, f: FunctionTypeAnnotation<S, I>)
    : (r: FunctionTypeAnnotation<S, I>)
    ensures |r.params| == |f.params|
    ensures r.typeParams.Some? == f.typeParams.Some?
    decreases f
  {
    FunctionTypeAnnotation(v.span(f.span), v.ident(f.id), FoldTypeParams(v, f.params), FoldOptTypeParamDecl(v, f.typeParams))
  }

  /** A sequence is folded element by element, keeping its order. */
  function FoldTypeParams<S(!new), I(!new), X(!new), M(!new)>(v: Visitor<S, I, X, M>, ps: seq<TypeParam<S, I>>): (r: seq<TypeParam<S, I>>)
    ensures |r| == |ps|
    ensures forall i :: 0 <= i < |ps| ==> r[i] == FoldTypeParam(v, ps[i])
    decreases ps
  {
    if ps == [] then [] else [FoldTypeParam(v, ps[0])] + FoldTypeParams(v, ps[1..])
  }

  function FoldTypeParam<S(!new), I(!new), X(!new), M(!new)>(v: Visitor<S, I, X, M>, p: TypeParam<S, I>): (r: TypeParam<S, I>)
    ensures r.bound.Some? == p.bound.Some?
    ensures r.default.Some? == p.default.Some?
    decreases p
  {
    TypeParam(v.span(p.span), v.ident(p.name), FoldOptFlowType(v, p.bound), FoldOptFlowType(v, p.default))
  }

  function FoldTypeParamDecl<S(!new), I(!new), X(!new), M(!new)>(v: Visitor<S, I, X, M>, d: TypeParamDecl<S, I>): (r: TypeParamDecl<S, I>)
    ensures |r.params| == |d.params|
    decreases d
  {
    TypeParamDecl(v.span(d.span), FoldTypeParams(v, d.params))
  }

  /** An absent optional field stays absent; a present one is folded. */
  function FoldOptFlowType<S(!new), I(!new), X(!new), M(!new)>(v: Visitor<S, I, X, M>, o: Option<FlowType<S, I>>): (r: Option<FlowType<S, I>>)
    ensures r.Some? == o.Some?
    decreases o
  {
    match o
    case None => None
    case Some(t) => Some(FoldFlowType(v, t))
  }

  function FoldOptTypeParamDecl<S(!new), I(!new), X(!new), M(!new)>(v: Visitor<S, I, X, M>, o: Option<TypeParamDecl<S, I>>)
    : (r: Option<TypeParamDecl<S, I>>)
    ensures r.Some? == o.Some?
    decreases o
  {
    match o
    case None => None
    case Some(d) => Some(FoldTypeParamDecl(v, d))
  }

  function FoldTypeAnn<S(!new), I(!new), X(!new), M(!new)>(v: Visitor<S, I, X, M>, a: TypeAnn<S, I>): (r: TypeAnn<S, I>)
    ensures (forall u :: v.flowType(u) == u) ==>
              && (r.typeAnn.KeywordTy? <==> a.typeAnn.KeywordTy?)
              && (r.typeAnn.ThisTy? <==> a.typeAnn.ThisTy?)
              && (r.typeAnn.FunctionTy? <==> a.typeAnn.FunctionTy?)
  {
    TypeAnn(v.span(a.span), FoldFlowType(v, a.typeAnn))
  }

  // ---------------------------------------------------------------------
  // Predicates, literal types and ambient declarations
  // ---------------------------------------------------------------------

  function FoldBooleanLiteral<S(!new), I(!new), X(!new), M(!new)>(v: Visitor<S, I, X, M>, b: BooleanLiteralTypeAnnotation<S, X>)
    : (r: BooleanLiteralTypeAnnotation<S, X>)
    ensures (forall s :: v.span(s) == s) && (forall x :: v.expr(x) == x) ==> r == b
  {
    BooleanLiteralTypeAnnotation(v.span(b.span), v.expr(b.value))
  }

  /** Unless the union's hook rewrites it, the member is kept. */
  function FoldPredicate<S(!new), I(!new), X(!new), M(!new)>(v: Visitor<S, I, X, M>, p: InferredOrDeclaredPredicate<S, X>)
    : (r: InferredOrDeclaredPredicate<S, X>)
    ensures (forall q :: v.pred(q) == q) ==> (r.Inferred? <==> p.Inferred?)
  {
    v.pred(
      match p
      case Inferred(i) => Inferred(InferredPredicate(v.span(i.span)))
      case Declared(d) => Declared(DeclaredPredicate(v.span(d.span), v.expr(d.value))))
  }

  /** The `declare` flag is a plain boolean, which folds to itself. */
  function FoldDeclareClass<S(!new), I(!new), X(!new), M(!new)>(v: Visitor<S, I, X, M>, d: DeclareClass<S, I>): (r: DeclareClass<S, I>)
    ensures r.declare == d.declare
  {
    DeclareClass(v.span(d.span), d.declare, v.ident(d.id))
  }

  function FoldDeclareFunction<S(!new), I(!new), X(!new), M(!new)>(v: Visitor<S, I, X, M>, d: DeclareFunction<S, I, X>): (r: DeclareFunction<S, I, X>)
    ensures r.declare == d.declare
    ensures (forall q :: v.pred(q) == q) ==> (r.pred.Inferred? <==> d.pred.Inferred?)
  {
    DeclareFunction(v.span(d.span), d.declare, v.ident(d.id), FoldPredicate(v, d.pred))
  }

  function FoldDeclareInterface<S(!new), I(!new), X(!new), M(!new)>(v: Visitor<S, I, X, M>, d: DeclareInterface<S>): (r: DeclareInterface<S>)
    ensures (forall s :: v.span(s) == s) ==> r == d
  {
    DeclareInterface(v.span(d.span))
  }

  function FoldModuleBlock<S(!new), I(!new), X(!new), M(!new)>(v: Visitor<S, I, X, M>, b: ModuleBlock<S, M>): (r: ModuleBlock<S, M>)
    ensures |r.body| == |b.body|
    ensures forall i :: 0 <= i < |b.body| ==> r.body[i] == v.item(b.body[i])
  {
    ModuleBlock(v.span(b.span), seq(|b.body|, i requires 0 <= i < |b.body| => v.item(b.body[i])))
  }

  function FoldDeclareModule<S(!new), I(!new), X(!new), M(!new)>(v: Visitor<S, I, X, M>, d: DeclareModule<S, I, M>): (r: DeclareModule<S, I, M>)
    ensures r.body.Some? == d.body.Some?
    ensures d.body.Some? ==> |r.body.value.body| == |d.body.value.body|
  {
    DeclareModule(v.span(d.span), v.ident(d.id), match d.body case None => None case Some(b) => Some(FoldModuleBlock(v, b)))
  }

  function FoldDeclareModuleExports<S(!new), I(!new), X(!new), M(!new)>(v: Visitor<S, I, X, M>, d: DeclareModuleExports<S, I>)
    : (r: DeclareModuleExports<S, I>)
    ensures r.typeAnn.Some? == d.typeAnn.Some?
  {
    DeclareModuleExports(v.span(d.span), FoldOptFlowType(v, d.typeAnn))
  }

  function FoldDeclareTypeAlias<S(!new), I(!new), X(!new), M(!new)>(v: Visitor<S, I, X, M>, d: DeclareTypeAlias<S, I>): (r: DeclareTypeAlias<S, I>)
    ensures r.typeParams.Some? == d.typeParams.Some?
    ensures r.typeAnn.Some? == d.typeAnn.Some?
  {
    DeclareTypeAlias(v.span(d.span), FoldOptTypeParamDecl(v, d.typeParams), FoldOptFlowType(v, d.typeAnn))
  }

  function FoldDeclareOpaqueType<S(!new), I(!new), X(!new), M(!new)>(v: Visitor<S, I, X, M>, d: DeclareOpaqueType<S, I>)
    : (r: DeclareOpaqueType<S, I>)
    ensures r.typeAnn.Some? == d.typeAnn.Some?
  {
    DeclareOpaqueType(v.span(d.span), v.ident(d.id), FoldOptFlowType(v, d.typeAnn))
  }
}
