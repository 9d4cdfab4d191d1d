/** The nodes of Flow type annotations (ecmascript/ast/src/flow.rs).
    Types defined elsewhere in the syntax tree are type parameters compared by
    equality: S is a source span, I an identifier, X an expression and M a
    module item. `Box` indirection is invisible in a datatype, and the derived
    structural equality (spans included) is Dafny's datatype equality. */
module FlowAst {

  import opened Json

  /** The closed catalog of primitive type keywords. */
  datatype KeywordTypeKind =
    | AnyTypeAnnotation
    | BooleanTypeAnnotation
    | StringTypeAnnotation
    | NumberTypeAnnotation
    | NullLiteralTypeAnnotation
    | ExistsTypeAnnotation
    | VoidTypeAnnotation
    | MixedTypeAnnotation
    | EmptyTypeAnnotation

  /** The external spelling of each keyword. */
  function KeywordName(k: KeywordTypeKind): (r: string)
    ensures r in KeywordNames
  {
    match k
    case AnyTypeAnnotation => "any"
    case BooleanTypeAnnotation => "boolean"
    case StringTypeAnnotation => "string"
    case NumberTypeAnnotation => "number"
    case NullLiteralTypeAnnotation => "null"
    case ExistsTypeAnnotation => "*"
    case VoidTypeAnnotation => "void"
    case MixedTypeAnnotation => "mixed"
    case EmptyTypeAnnotation => "empty"
  }

  /** The nine external keyword strings. */
  const KeywordNames: set<string> :=
    {"any", "boolean", "string", "number", "null", "*", "void", "mixed", "empty"}

  /** Reads an external keyword string back; there is no catch-all keyword, so
      every other string is rejected with that string. */
  function KeywordFromName(word: string): (r: Result<KeywordTypeKind>)
    ensures r.Ok? <==> word in KeywordNames
    ensures r.Ok? ==> KeywordName(r.value) == word
    ensures r.Err? ==> r.error == UnknownKeyword(word)
  {
    match word
    case "any" => Ok(AnyTypeAnnotation)
    case "boolean" => Ok(BooleanTypeAnnotation)
    case "string" => Ok(StringTypeAnnotation)
    case "number" => Ok(NumberTypeAnnotation)
    case "null" => Ok(NullLiteralTypeAnnotation)
    case "*" => Ok(ExistsTypeAnnotation)
    case "void" => Ok(VoidTypeAnnotation)
    case "mixed" => Ok(MixedTypeAnnotation)
    case "empty" => Ok(EmptyTypeAnnotation)
    case _ => Err(UnknownKeyword(word))
  }

  datatype ThisTypeAnnotation<S> = ThisTypeAnnotation(span: S)

  datatype KeywordType<S> = KeywordType(span: S, kind: KeywordTypeKind)

  /** The type-node union. Only three node kinds belong to it. */
  datatype FlowType<S, I> =
    | KeywordTy(keyword: KeywordType<S>)
    | ThisTy(thisType: ThisTypeAnnotation<S>)
    | FunctionTy(func: FunctionTypeAnnotation<S, I>)

  datatype FunctionTypeAnnotation<S, I> = FunctionTypeAnnotation(
    span: S,
    id: I,
    params: seq<TypeParam<S, I>>,
    typeParams: Option<TypeParamDecl<S, I>>)

  datatype TypeParam<S, I> = TypeParam(
    span: S,
    name: I,
    bound: Option<FlowType<S, I>>,
    default: Option<FlowType<S, I>>)

  datatype TypeParamDecl<S, I> = TypeParamDecl(span: S, params: seq<TypeParam<S, I>>)

  datatype TypeAnn<S, I> = TypeAnn(span: S, typeAnn: FlowType<S, I>)

  datatype BooleanLiteralTypeAnnotation<S, X> = BooleanLiteralTypeAnnotation(span: S, value: X)

  datatype InferredPredicate<S> = InferredPredicate(span: S)

  datatype DeclaredPredicate<S, X> = DeclaredPredicate(span: S, value: X)

  /** The predicate union: inferred, or written out with its expression. */
  datatype InferredOrDeclaredPredicate<S, X> =
    | Inferred(inferred: InferredPredicate<S>)
    | Declared(declared: DeclaredPredicate<S, X>)

  datatype DeclareClass<S, I> = DeclareClass(span: S, declare: bool, id: I)

  datatype DeclareFunction<S, I, X> = DeclareFunction(
    span: S,
    declare: bool,
    id: I,
    pred: InferredOrDeclaredPredicate<S, X>)

  datatype DeclareInterface<S> = DeclareInterface(span: S)

  datatype ModuleBlock<S, M> = ModuleBlock(span: S, body: seq<M>)

  datatype DeclareModule<S, I, M> = DeclareModule(span: S, id: I, body: Option<ModuleBlock<S, M>>)

  datatype DeclareModuleExports<S, I> = DeclareModuleExports(span: S, typeAnn: Option<FlowType<S, I>>)

  datatype DeclareTypeAlias<S, I> = DeclareTypeAlias(
    span: S,
    typeParams: Option<TypeParamDecl<S, I>>,
    typeAnn: Option<FlowType<S, I>>)

  datatype DeclareOpaqueType<S, I> = DeclareOpaqueType(span: S, id: I, typeAnn: Option<FlowType<S, I>>)
}
