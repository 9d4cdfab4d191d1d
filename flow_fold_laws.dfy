/** What the derived fold promises: an identity visitor gives back the same
    tree (spans included), a keyword type stays a keyword type unless the
    visitor overrides the union, and two passes that leave the type-node
    union's hook alone are one composed pass. */
module FlowFoldLaws {

  import opened Json
  import opened FlowAst
  import opened FlowFold

  lemma IdentityVisitorIsIdentity<S(!new), I(!new), X(!new), M(!new)>()
    ensures IsIdentity(IdentityVisitor<S, I, X, M>())
  {
  }

  // ---------------------------------------------------------------------
  // Identity
  // ---------------------------------------------------------------------

  lemma {:induction false} FoldFlowTypeIdentity<S(!new), I(!new), X(!new), M(!new)>(v: Visitor<S, I, X, M>, t: FlowType<S, I>)
    requires IsIdentity(v)
    ensures FoldFlowType(v, t) == t
    decreases t
  {
    match t
    case KeywordTy(k) =>
    case ThisTy(th) =>
    case FunctionTy(f) => FoldFunctionTypeIdentity(v, f);
  }

  lemma {:induction false} FoldFunctionTypeIdentity<S(!new), I(!new), X(!new), M(!new)>(
    v: Visitor<S, I, X, M>, f: FunctionTypeAnnotation<S, I>)
    requires IsIdentity(v)
    ensures FoldFunctionType(v, f) == f
    decreases f
  {
    FoldTypeParamsIdentity(v, f.params);
    match f.typeParams
    case None =>
    case Some(d) => FoldTypeParamDeclIdentity(v, d);
  }

  lemma {:induction false} FoldTypeParamsIdentity<S(!new), I(!new), X(!new), M(!new)>(
    v: Visitor<S, I, X, M>, ps: seq<TypeParam<S, I>>)
    requires IsIdentity(v)
    ensures FoldTypeParams(v, ps) == ps
    decreases ps
  {
    forall i | 0 <= i < |ps|
      ensures FoldTypeParams(v, ps)[i] == ps[i]
    {
      FoldTypeParamIdentity(v, ps[i]);
    }
  }

  lemma {:induction false} FoldTypeParamIdentity<S(!new), I(!new), X(!new), M(!new)>(
    v: Visitor<S, I, X, M>, p: TypeParam<S, I>)
    requires IsIdentity(v)
    ensures FoldTypeParam(v, p) == p
    decreases p
  {
    if p.bound.Some? {
      FoldFlowTypeIdentity(v, p.bound.value);
    }
    if p.default.Some? {
      FoldFlowTypeIdentity(v, p.default.value);
    }
  }

  lemma {:induction false} FoldTypeParamDeclIdentity<S(!new), I(!new), X(!new), M(!new)>(
    v: Visitor<S, I, X, M>, d: TypeParamDecl<S, I>)
    requires IsIdentity(v)
    ensures FoldTypeParamDecl(v, d) == d
    decreases d
  {
    FoldTypeParamsIdentity(v, d.params);
  }

  lemma FoldTypeAnnIdentity<S(!new), I(!new), X(!new), M(!new)>(v: Visitor<S, I, X, M>, a: TypeAnn<S, I>)
    requires IsIdentity(v)
    ensures FoldTypeAnn(v, a) == a
  {
    FoldFlowTypeIdentity(v, a.typeAnn);
  }

  lemma FoldPredicateIdentity<S(!new), I(!new), X(!new), M(!new)>(v: Visitor<S, I, X, M>, p: InferredOrDeclaredPredicate<S, X>)
    requires IsIdentity(v)
    ensures FoldPredicate(v, p) == p
  {
  }

  lemma FoldModuleBlockIdentity<S(!new), I(!new), X(!new), M(!new)>(v: Visitor<S, I, X, M>, b: ModuleBlock<S, M>)
    requires IsIdentity(v)
    ensures FoldModuleBlock(v, b) == b
  {
  }

  /** Every ambient declaration folds back to itself. */
  lemma FoldDeclarationsIdentity<S(!new), I(!new), X(!new), M(!new)>(
    v: Visitor<S, I, X, M>,
    c: DeclareClass<S, I>, f: DeclareFunction<S, I, X>, i: DeclareInterface<S>, m: DeclareModule<S, I, M>,
    e: DeclareModuleExports<S, I>, a: DeclareTypeAlias<S, I>, o: DeclareOpaqueType<S, I>)
    requires IsIdentity(v)
    ensures FoldDeclareClass(v, c) == c
    ensures FoldDeclareFunction(v, f) == f
    ensures FoldDeclareInterface(v, i) == i
    ensures FoldDeclareModule(v, m) == m
    ensures FoldDeclareModuleExports(v, e) == e
    ensures FoldDeclareTypeAlias(v, a) == a
    ensures FoldDeclareOpaqueType(v, o) == o
  {
    if m.body.Some? {
      FoldModuleBlockIdentity(v, m.body.value);
    }
    if e.typeAnn.Some? {
      FoldFlowTypeIdentity(v, e.typeAnn.value);
    }
    if a.typeParams.Some? {
      FoldTypeParamDeclIdentity(v, a.typeParams.value);
    }
    if a.typeAnn.Some? {
      FoldFlowTypeIdentity(v, a.typeAnn.value);
    }
    if o.typeAnn.Some? {
      FoldFlowTypeIdentity(v, o.typeAnn.value);
    }
  }

  // ---------------------------------------------------------------------
  // Variant preservation
  // ---------------------------------------------------------------------

  /** Unless the visitor overrides the type-node union, a keyword type stays
      a keyword type, with its span and kind folded. */
  lemma FoldPreservesVariant<S(!new), I(!new), X(!new), M(!new)>(v: Visitor<S, I, X, M>, t: FlowType<S, I>)
    requires NoFlowTypeOverride(v)
    ensures t.KeywordTy? ==> FoldFlowType(v, t) == KeywordTy(KeywordType(v.span(t.keyword.span), v.kind(t.keyword.kind)))
  {
  }

  // ---------------------------------------------------------------------
  // Fusion of two leaf-only passes
  // ---------------------------------------------------------------------

  lemma {:induction false} FoldFlowTypeFusion<S(!new), I(!new), X(!new), M(!new)>(
    v1: Visitor<S, I, X, M>, v2: Visitor<S, I, X, M>, t: FlowType<S, I>)
    requires NoFlowTypeOverride(v1) && NoFlowTypeOverride(v2)
    ensures FoldFlowType(v2, FoldFlowType(v1, t)) == FoldFlowType(Then(v1, v2), t)
    decreases t
  {
    match t
    case KeywordTy(k) =>
    case ThisTy(th) =>
    case FunctionTy(f) => FoldFunctionTypeFusion(v1, v2, f);
  }

  lemma {:induction false} FoldFunctionTypeFusion<S(!new), I(!new), X(!new), M(!new)>(
    v1: Visitor<S, I, X, M>, v2: Visitor<S, I, X, M>, f: FunctionTypeAnnotation<S, I>)
    requires NoFlowTypeOverride(v1) && NoFlowTypeOverride(v2)
    ensures FoldFunctionType(v2, FoldFunctionType(v1, f)) == FoldFunctionType(Then(v1, v2), f)
    decreases f
  {
    FoldTypeParamsFusion(v1, v2, f.params);
    match f.typeParams
    case None =>
    case Some(d) => FoldTypeParamDeclFusion(v1, v2, d);
  }

  lemma {:induction false} FoldTypeParamsFusion<S(!new), I(!new), X(!new), M(!new)>(
    v1: Visitor<S, I, X, M>, v2: Visitor<S, I, X, M>, ps: seq<TypeParam<S, I>>)
    requires NoFlowTypeOverride(v1) && NoFlowTypeOverride(v2)
    ensures FoldTypeParams(v2, FoldTypeParams(v1, ps)) == FoldTypeParams(Then(v1, v2), ps)
    decreases ps
  {
    forall i | 0 <= i < |ps|
      ensures FoldTypeParams(v2, FoldTypeParams(v1, ps))[i] == FoldTypeParams(Then(v1, v2), ps)[i]
    {
      FoldTypeParamFusion(v1, v2, ps[i]);
    }
  }

  lemma {:induction false} FoldTypeParamFusion<S(!new), I(!new), X(!new), M(!new)>(
    v1: Visitor<S, I, X, M>, v2: Visitor<S, I, X, M>, p: TypeParam<S, I>)
    requires NoFlowTypeOverride(v1) && NoFlowTypeOverride(v2)
    ensures FoldTypeParam(v2, FoldTypeParam(v1, p)) == FoldTypeParam(Then(v1, v2), p)
    decreases p
  {
    if p.bound.Some? {
      FoldFlowTypeFusion(v1, v2, p.bound.value);
    }
    if p.default.Some? {
      FoldFlowTypeFusion(v1, v2, p.default.value);
    }
  }

  lemma {:induction false} FoldTypeParamDeclFusion<S(!new), I(!new), X(!new), M(!new)>(
    v1: Visitor<S, I, X, M>, v2: Visitor<S, I, X, M>, d: TypeParamDecl<S, I>)
    requires NoFlowTypeOverride(v1) && NoFlowTypeOverride(v2)
    ensures FoldTypeParamDecl(v2, FoldTypeParamDecl(v1, d)) == FoldTypeParamDecl(Then(v1, v2), d)
    decreases d
  {
    FoldTypeParamsFusion(v1, v2, d.params);
  }

  /** A module block has no union inside: two passes over it are always one
      composed pass. */
  lemma FoldModuleBlockFusion<S(!new), I(!new), X(!new), M(!new)>(v1: Visitor<S, I, X, M>, v2: Visitor<S, I, X, M>, b: ModuleBlock<S, M>)
    ensures FoldModuleBlock(v2, FoldModuleBlock(v1, b)) == FoldModuleBlock(Then(v1, v2), b)
  {
  }
}
