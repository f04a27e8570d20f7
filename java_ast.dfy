/**
 * The parsed compilation units the analyser walks, reduced to what it reads.
 * Results of helpers that are not part of this model are carried as
 * attributes computed by the parser side: `makeId(node)` as `id`,
 * `isTypeAPublicAPI` as `isPublicApi`, `isInterfaceType` as `isInterfaceType`,
 * `getFullyQualifiedName().get()` as `fqn`.
 */
module JavaAst {
  import opened Wrappers

  /** `Modifier.AccessSpecifier`: NONE is package-private. */
  datatype AccessSpecifier = Public | Protected | Private | PackagePrivate

  predicate IsPrivateOrPackagePrivate(a: AccessSpecifier) {
    a == Private || a == PackagePrivate
  }

  /**
   * A node as `getTypeDFS` sees it: its `toString()` text, its child nodes
   * and, for a class-or-interface type, whether it carries a type-argument list.
   */
  datatype TypeNode = TypeNode(text: string, children: seq<TypeNode>, hasTypeArguments: bool)

  /** The shapes `getClassType` distinguishes. */
  datatype JavaType =
    | PrimitiveType(name: string)
    | VoidType
    | ArrayType(component: JavaType)
    | ClassOrInterfaceType(node: TypeNode)
    | WildcardType(text: string)
    | UnionType(text: string)
    | IntersectionType(text: string)
    | OtherType(text: string)

  /** An annotation member value: a class literal, an array initializer, or anything else, with its `toString()` text. */
  datatype AnnotationValue =
    | ClassLiteral(typeName: string, text: string)
    | ArrayInitializer(elements: seq<ArrayElement>, text: string)
    | OtherValue(text: string)

  /** A child node of an array initializer: an expression, or some other node. */
  datatype ArrayElement = ExpressionElement(value: AnnotationValue) | NonExpressionElement

  datatype MemberValuePair = MemberValuePair(name: string, value: AnnotationValue)

  /** `pairs` is present exactly for a `NormalAnnotationExpr`. */
  datatype Annotation = Annotation(name: string, pairs: Option<seq<MemberValuePair>>)

  predicate IsAnnotationPresent(annotations: seq<Annotation>, name: string) {
    exists i :: 0 <= i < |annotations| && annotations[i].name == name
  }

  datatype TypeParameter = TypeParameter(name: string, bounds: seq<TypeNode>)

  datatype Parameter = Parameter(paramType: JavaType, name: string, isVarArgs: bool)

  datatype CallableKind = Constructor | Method(returnType: JavaType)

  /** A constructor or method declaration; `thrown` holds the element-type names of the thrown exceptions. */
  datatype Callable = Callable(
    kind: CallableKind,
    name: string,
    id: string,
    access: AccessSpecifier,
    annotations: seq<Annotation>,
    modifiers: seq<string>,
    typeParameters: seq<TypeParameter>,
    parameters: seq<Parameter>,
    thrown: seq<string>)

  datatype VariableDeclarator = VariableDeclarator(name: string, initializer: Option<string>)

  /** A field declaration; `elementType` is what `getElementType()` answers. */
  datatype Field = Field(
    access: AccessSpecifier,
    annotations: seq<Annotation>,
    modifiers: seq<string>,
    elementType: JavaType,
    variables: seq<VariableDeclarator>)

  datatype EnumConstant = EnumConstant(name: string, arguments: seq<string>)

  datatype AnnotationMember = AnnotationMember(memberType: JavaType, name: string, defaultValue: Option<string>)

  datatype DeclKind = ClassDecl | InterfaceDecl | EnumDecl | AnnotationDecl

  /**
   * A type declaration. `rawAnnotations` are the token-range texts of the
   * annotations of an annotation declaration, `None` for an annotation with no
   * token range; `members` are the nested type declarations among its body
   * declarations.
   */
  datatype TypeDecl = TypeDecl(
    kind: DeclKind,
    name: string,
    fqn: string,
    id: string,
    access: AccessSpecifier,
    isPublicApi: bool,
    isInterfaceType: bool,
    annotations: seq<Annotation>,
    rawAnnotations: seq<Option<string>>,
    modifiers: seq<string>,
    typeParameters: seq<TypeParameter>,
    extendedTypes: seq<TypeNode>,
    implementedTypes: seq<TypeNode>,
    entries: seq<EnumConstant>,
    annotationMembers: seq<AnnotationMember>,
    fields: seq<Field>,
    constructors: seq<Callable>,
    methods: seq<Callable>,
    members: seq<TypeDecl>)

  predicate IsClassOrInterface(td: TypeDecl) {
    td.kind == ClassDecl || td.kind == InterfaceDecl
  }

  /** Nested declarations the walkers descend into: enums, classes and interfaces, not annotation declarations. */
  predicate IsVisitedMember(td: TypeDecl) {
    td.kind != AnnotationDecl
  }

  datatype ModuleDirective =
    | Requires(isTransitive: bool, name: string)
    | Exports(name: string, moduleNames: seq<string>)
    | Opens(name: string, moduleNames: seq<string>)
    | Uses(name: string)
    | Provides(name: string, with: seq<string>)

  datatype ModuleDecl = ModuleDecl(name: string, directives: seq<ModuleDirective>)

  /** An import's name: its qualifier, when there is one, and its last identifier. */
  datatype ImportName = ImportName(qualifier: Option<string>, identifier: string)

  datatype CompilationUnit = CompilationUnit(
    packageName: Option<string>,
    primaryTypeName: string,
    moduleDecl: Option<ModuleDecl>,
    types: seq<TypeDecl>,
    imports: seq<ImportName>)

  /** An input path: whether it is a directory, and the parsed unit, absent when reading it failed. */
  datatype SourceFile = SourceFile(path: string, isDirectory: bool, unit: Option<CompilationUnit>)
}
