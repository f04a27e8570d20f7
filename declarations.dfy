/**
 * The declaration walker of the analyser as token sequences: enum constants
 * (`getEnumEntries`), the type header (`getTypeDeclaration`), annotation
 * members, fields, constructors and methods, the synthesised default
 * constructor, nested types and the whole type declaration
 * (`visitClassOrInterfaceOrEnumDeclaration`), and module declarations.
 * Every function takes the environment at the point of the call; the
 * routines that indent their body first see it through `Indented`.
 */
module Declarations {
  import opened Wrappers
  import opened JavaStrings
  import opened Tokens
  import opened JavaAst
  import opened TypePrinter
  import opened Signatures
  import opened Sorting
  import opened MethodOrder

  // ----- enum constants -----

  /** The tokens of one constant's arguments: each wrapped in its own "(" ")". */
  function ArgumentParts(args: seq<string>): (r: seq<seq<Token>>)
    ensures |r| == |args|
  {
    seq(|args|, j requires 0 <= j < |args| => [Punct("("), Tok(Text, args[j]), Punct(")")])
  }

  function ArgumentsTokens(args: seq<string>): seq<Token> {
    Concat(ArgumentParts(args))
  }

  /** The definition id of the `i`-th constant of an enum: the counter value after the enum's name. */
  function EnumConstantId(td: TypeDecl, i: nat, e: Env): string {
    e.makeId(td.fqn + "." + NatToString(i))
  }

  /** The line of the `i`-th constant; `e` is the already indented environment. */
  function EnumEntryTokens(td: TypeDecl, i: nat, e: Env): seq<Token>
    requires i < |td.entries|
  {
    [IndentToken(e.indent), Defining(MemberName, td.entries[i].name, EnumConstantId(td, i, e))]
    + ArgumentsTokens(td.entries[i].arguments)
    + [Punct(if i < |td.entries| - 1 then "," else ";"), NewLineToken]
  }

  function EnumEntryParts(td: TypeDecl, e: Env): (r: seq<seq<Token>>)
    ensures |r| == |td.entries|
  {
    seq(|td.entries|, i requires 0 <= i < |td.entries| => EnumEntryTokens(td, i, e))
  }

  /** `getEnumEntries`: one line per constant, one level deeper. */
  function EnumEntriesTokens(td: TypeDecl, e: Env): seq<Token> {
    Concat(EnumEntryParts(td, Indented(e)))
  }

  // ----- type header -----

  /** `typeKind.getName()`: an annotation declaration shows as an interface. */
  function KindName(kind: DeclKind): string {
    match kind
    case ClassDecl => "class"
    case InterfaceDecl => "interface"
    case EnumDecl => "enum"
    case AnnotationDecl => "interface"
  }

  /** The type parameters and extends clause, shown for classes and interfaces only. */
  function ExtendsTokens(td: TypeDecl, known: map<string, string>): seq<Token> {
    if !IsClassOrInterface(td) then []
    else
      TypeParametersTokens(td.typeParameters, known)
      + (if |td.extendedTypes| == 0 then []
         else [SpaceToken, Kw("extends"), SpaceToken] + Join(TypeNodeParts(td.extendedTypes, known), CommaSpace))
  }

  /** The implemented types: classes, interfaces and enums have them, annotation declarations do not. */
  function ImplementedTypes(td: TypeDecl): seq<TypeNode> {
    if td.kind == AnnotationDecl then [] else td.implementedTypes
  }

  /** The implements clause, once the trailing separator has been retracted. */
  function ImplementsTokens(td: TypeDecl, known: map<string, string>): seq<Token> {
    if |ImplementedTypes(td)| == 0 then []
    else [SpaceToken, Kw("implements"), SpaceToken] + Join(TypeNodeParts(ImplementedTypes(td), known), CommaSpace)
  }

  /** `getTypeDeclaration` for a public type: annotations, header line and the opening brace. */
  function TypeHeaderTokens(td: TypeDecl, e: Env): seq<Token> {
    TypeHeaderStart(td, e)
    + ExtendsTokens(td, e.knownTypes)
    + ImplementsTokens(td, e.knownTypes)
    + [SpaceToken, Punct("{"), NewLineToken]
  }

  /** The header line up to the type's name: annotations, indentation, modifiers and the kind. */
  function TypeHeaderStart(td: TypeDecl, e: Env): seq<Token> {
    AnnotationsTokens(td.annotations, true, true, e)
    + [IndentToken(e.indent)]
    + ModifiersTokens(td.modifiers)
    + KindAndNameTokens(td)
  }

  /** "@" for an annotation declaration, the kind keyword and the defining type name. */
  function KindAndNameTokens(td: TypeDecl): seq<Token> {
    (if td.kind == AnnotationDecl then [Kw("@")] else [])
    + [Kw(KindName(td.kind)), SpaceToken, Defining(TypeName, td.name, td.id)]
  }

  // ----- annotation members -----

  function AnnotationMemberTokens(td: TypeDecl, m: AnnotationMember, e: Env): seq<Token> {
    [IndentToken(e.indent)]
    + ClassTypeTokens(m.memberType, e.knownTypes)
    + AnnotationMemberRest(td, m, e)
  }

  /** What follows a member's type: its name, "()", the default value when there is one, and ";". */
  function AnnotationMemberRest(td: TypeDecl, m: AnnotationMember, e: Env): seq<Token> {
    [SpaceToken, Defining(MemberName, m.name, e.makeId(td.fqn + "." + m.name)), Punct("("), Punct(")")]
    + (match m.defaultValue
       case Some(v) => [SpaceToken, Kw("default"), SpaceToken, Kw(v)]
       case None => [])
    + [Punct(";"), NewLineToken]
  }

  function AnnotationMemberParts(td: TypeDecl, e: Env): (r: seq<seq<Token>>)
    ensures |r| == |td.annotationMembers|
  {
    seq(|td.annotationMembers|, i requires 0 <= i < |td.annotationMembers| =>
      AnnotationMemberTokens(td, td.annotationMembers[i], e))
  }

  /** `tokeniseAnnotationMember`: one line per member, one level deeper. */
  function AnnotationMembersTokens(td: TypeDecl, e: Env): seq<Token> {
    Concat(AnnotationMemberParts(td, Indented(e)))
  }

  // ----- fields -----

  /** A member is shown inside an interface, and elsewhere unless it is private or package-private. */
  predicate Visible(access: AccessSpecifier, isInterface: bool) {
    isInterface || !IsPrivateOrPackagePrivate(access)
  }

  function DeclaratorId(td: TypeDecl, v: VariableDeclarator, e: Env): string {
    e.makeId(td.fqn + "." + v.name)
  }

  function DeclaratorParts(td: TypeDecl, vs: seq<VariableDeclarator>, e: Env): (r: seq<seq<Token>>)
    ensures |r| == |vs|
  {
    seq(|vs|, i requires 0 <= i < |vs| => [Defining(MemberName, vs[i].name, DeclaratorId(td, vs[i], e))])
  }

  /** The type and names of a field: several declarators are listed without initializers, a single one with. */
  function DeclaratorsTokens(td: TypeDecl, f: Field, e: Env): seq<Token> {
    if |f.variables| > 1 then
      ClassTypeTokens(f.elementType, e.knownTypes) + [SpaceToken] + Join(DeclaratorParts(td, f.variables, e), CommaSpace)
    else if |f.variables| == 1 then
      ClassTypeTokens(f.elementType, e.knownTypes) + [SpaceToken] + SingleDeclaratorTokens(td, f.variables[0], e)
    else []
  }

  /** The one declarator of a field, with " = " and its initializer when it has one. */
  function SingleDeclaratorTokens(td: TypeDecl, v: VariableDeclarator, e: Env): seq<Token> {
    [Defining(MemberName, v.name, DeclaratorId(td, v, e))]
    + (match v.initializer
       case Some(init) => [SpaceToken, Punct("="), SpaceToken, Tok(Text, init)]
       case None => [])
  }

  function FieldTokens(td: TypeDecl, f: Field, e: Env): seq<Token> {
    [IndentToken(e.indent)]
    + AnnotationsTokens(f.annotations, false, false, e)
    + ModifiersTokens(f.modifiers)
    + DeclaratorsTokens(td, f, e)
    + [Punct(";"), NewLineToken]
  }

  function FieldParts(td: TypeDecl, isInterface: bool, e: Env): (r: seq<seq<Token>>)
    ensures |r| == |td.fields|
  {
    seq(|td.fields|, i requires 0 <= i < |td.fields| =>
      if Visible(td.fields[i].access, isInterface) then FieldTokens(td, td.fields[i], e) else [])
  }

  /** `tokeniseFields`: one line per visible field, one level deeper. */
  function FieldsTokens(td: TypeDecl, isInterface: bool, e: Env): seq<Token> {
    Concat(FieldParts(td, isInterface, Indented(e)))
  }

  // ----- constructors and methods -----

  const NoPublicConstructorsComment: string :=
    "// This class does not have any public constructors, and is not able to be instantiated using 'new'."

  /** The callable list is non-empty and every constructor in it is private or package-private. */
  predicate AllPrivateOrPackagePrivate(cs: seq<Callable>) {
    |cs| > 0 && forall i :: 0 <= i < |cs| && cs[i].kind.Constructor? ==> IsPrivateOrPackagePrivate(cs[i].access)
  }

  /** The callables that pass the visibility filter, in order. */
  function VisibleCallables(cs: seq<Callable>, isInterface: bool): (r: seq<Callable>)
    ensures forall c :: c in r <==> c in cs && Visible(c.access, isInterface)
  {
    if |cs| == 0 then []
    else VisibleCallables(cs[..|cs| - 1], isInterface)
         + (if Visible(cs[|cs| - 1].access, isInterface) then [cs[|cs| - 1]] else [])
  }

  /** The callables of `cs` carrying (or not carrying) `@ServiceMethod`, in order. */
  function ServiceGroup(cs: seq<Callable>, service: bool): (r: seq<Callable>)
    ensures forall c :: c in r <==> c in cs && IsAnnotationPresent(c.annotations, "ServiceMethod") == service
  {
    if |cs| == 0 then []
    else ServiceGroup(cs[..|cs| - 1], service)
         + (if IsAnnotationPresent(cs[|cs| - 1].annotations, "ServiceMethod") == service then [cs[|cs| - 1]] else [])
  }

  function CallableParts(cs: seq<Callable>, e: Env): (r: seq<seq<Token>>)
    ensures |r| == |cs|
  {
    seq(|cs|, i requires 0 <= i < |cs| => CallableTokens(cs[i], e))
  }

  /** One group: its comment line when groupings are shown and it is non-empty, then its callables. */
  function GroupTokens(name: string, group: seq<Callable>, showGroupings: bool, e: Env): seq<Token> {
    GroupCommentTokens(name, group, showGroupings, e) + Concat(CallableParts(group, e))
  }

  /** The comment line naming a group, shown only with groupings and only for a group with members. */
  function GroupCommentTokens(name: string, group: seq<Callable>, showGroupings: bool, e: Env): seq<Token> {
    if showGroupings && |group| > 0 then [IndentToken(e.indent), Tok(Comment, "// " + name + ":"), NewLineToken] else []
  }

  /**
   * The groups in the order the map hands them out. Without groupings there
   * is one unnamed group holding every callable, or none when there is no
   * callable. With groupings both named groups are always listed, possibly
   * empty; an empty group prints nothing.
   */
  function Groups(sorted: seq<Callable>, showGroupings: bool, e: Env): seq<(string, seq<Callable>)> {
    if !showGroupings then (if |sorted| == 0 then [] else [("", sorted)])
    else
      var service := ServiceGroup(sorted, true);
      var other := ServiceGroup(sorted, false);
      if e.serviceGroupFirst then [("Service Methods", service), ("Non-Service Methods", other)]
      else [("Non-Service Methods", other), ("Service Methods", service)]
  }

  /** `tokeniseConstructorsOrMethods` with the environment of its caller. */
  function CallablesTokens(td: TypeDecl, isInterface: bool, isConstructor: bool, cs: seq<Callable>, e: Env): seq<Token> {
    if isConstructor && AllPrivateOrPackagePrivate(cs) then NoPublicConstructorsLine(Indented(e))
    else ShownCallablesTokens(td, isInterface, isConstructor, cs, Indented(e))
  }

  /** The comment line standing in for constructors that are all private or package-private. */
  function NoPublicConstructorsLine(e: Env): seq<Token> {
    [IndentToken(e.indent), Tok(Comment, NoPublicConstructorsComment), NewLineToken]
  }

  /** The visible callables, sorted and grouped, in the environment `e` of their lines. */
  function ShownCallablesTokens(td: TypeDecl, isInterface: bool, isConstructor: bool, cs: seq<Callable>, e: Env): seq<Token> {
    var showGroupings := !isConstructor && IsAnnotationPresent(td.annotations, "ServiceClient");
    Concat(GroupParts(SortCallables(VisibleCallables(cs, isInterface)), showGroupings, e))
  }

  /** The groups one after the other, in the environment `e` of their lines. */
  function GroupParts(sorted: seq<Callable>, showGroupings: bool, e: Env): (r: seq<seq<Token>>)
    ensures |r| == |Groups(sorted, showGroupings, e)|
  {
    var groups := Groups(sorted, showGroupings, e);
    seq(|groups|, i requires 0 <= i < |groups| => GroupTokens(groups[i].0, groups[i].1, showGroupings, e))
  }

  /** `addDefaultConstructor`: `public Name()` one level deeper, its id made from the simple name. */
  function DefaultConstructorTokens(td: TypeDecl, e: Env): seq<Token> {
    [IndentToken(e.indent + 4), Kw("public"), SpaceToken,
     Defining(MemberName, td.name, e.makeId(td.name)), Punct("("), Punct(")"), NewLineToken]
  }

  /** The constructor part of a type's body: the declared ones, or a synthesised one for a plain class. */
  function ConstructorSectionTokens(td: TypeDecl, e: Env): seq<Token> {
    if |td.constructors| == 0 then
      if !td.isInterfaceType && td.kind != EnumDecl && td.kind != AnnotationDecl then DefaultConstructorTokens(td, e) else []
    else CallablesTokens(td, td.isInterfaceType, true, td.constructors, e)
  }

  // ----- whole type declarations -----

  /** The token-range texts of an accessible annotation declaration's own annotations, one line each. */
  function RawAnnotationsTokens(td: TypeDecl, e: Env): seq<Token> {
    if td.kind == AnnotationDecl && !IsPrivateOrPackagePrivate(td.access) then Concat(RawAnnotationParts(td.rawAnnotations, e))
    else []
  }

  function RawAnnotationParts(raw: seq<Option<string>>, e: Env): (r: seq<seq<Token>>)
    ensures |r| == |raw|
  {
    seq(|raw|, j requires 0 <= j < |raw| =>
      match raw[j]
      case Some(text) => [IndentToken(e.indent), Kw(text), NewLineToken]
      case None => [])
  }

  /** `visitClassOrInterfaceOrEnumDeclaration`: a type that is not public API shows only its raw annotations. */
  function TypeDeclTokens(td: TypeDecl, e: Env): seq<Token>
    decreases td, 3
  {
    RawAnnotationsTokens(td, e)
    + if !td.isPublicApi then [] else TypeHeaderTokens(td, e) + TypeBodyTokens(td, e)
  }

  /** What follows the header of a public type: its members, its nested types and the closing brace. */
  function TypeBodyTokens(td: TypeDecl, e: Env): seq<Token>
    decreases td, 2
  {
    TypeMembersTokens(td, e)
    + InnerTypesTokens(td, e)
    + [IndentToken(e.indent), Punct("}"), NewLineToken]
  }

  /** Enum constants, annotation members, fields, constructors and methods, in that order. */
  function TypeMembersTokens(td: TypeDecl, e: Env): seq<Token> {
    (if td.kind == EnumDecl then EnumEntriesTokens(td, e) else [])
    + (if td.kind == AnnotationDecl && !IsPrivateOrPackagePrivate(td.access) then AnnotationMembersTokens(td, e) else [])
    + FieldsTokens(td, td.isInterfaceType, e)
    + ConstructorSectionTokens(td, e)
    + CallablesTokens(td, td.isInterfaceType, false, td.methods, e)
  }

  /** `tokeniseInnerClasses`: each nested enum, class or interface one level deeper. */
  function InnerTypesTokens(td: TypeDecl, e: Env): seq<Token>
    decreases td, 1
  {
    Concat(InnerTypeParts(td, e))
  }

  function InnerTypeParts(td: TypeDecl, e: Env): (r: seq<seq<Token>>)
    ensures |r| == |td.members|
    decreases td, 0
  {
    seq(|td.members|, i requires 0 <= i < |td.members| =>
      if IsVisitedMember(td.members[i]) then TypeDeclTokens(td.members[i], Indented(e)) else [])
  }

  // ----- module declarations -----

  const ModuleInfoKey: string := "module-info"

  function DirectiveNameToken(name: string, makeId: string -> string): Token {
    Defining(TypeName, name, makeId(ModuleInfoKey + "-" + name))
  }

  function NameParts(names: seq<string>): (r: seq<seq<Token>>)
    ensures |r| == |names|
  {
    seq(|names|, i requires 0 <= i < |names| => [Tok(TypeName, names[i])])
  }

  /** " to " and the module names, when there are any. */
  function ToListTokens(names: seq<string>): seq<Token> {
    if |names| == 0 then [] else [SpaceToken, Kw("to"), SpaceToken] + Join(NameParts(names), CommaSpace)
  }

  /** One directive, after its indentation. */
  function DirectiveTokens(d: ModuleDirective, makeId: string -> string): seq<Token> {
    match d
    case Requires(isTransitive, name) =>
      [Kw("requires"), SpaceToken] + (if isTransitive then [Kw("transitive"), SpaceToken] else [])
      + [DirectiveNameToken(name, makeId)]
      + [Punct(";"), NewLineToken]
    case Exports(name, names) =>
      [Kw("exports"), SpaceToken] + [DirectiveNameToken(name, makeId)] + (ToListTokens(names) + [Punct(";"), NewLineToken])
    case Opens(name, names) =>
      [Kw("opens"), SpaceToken] + [DirectiveNameToken(name, makeId)] + (ToListTokens(names) + [Punct(";"), NewLineToken])
    case Uses(name) =>
      [Kw("uses"), SpaceToken] + [DirectiveNameToken(name, makeId)] + [Punct(";"), NewLineToken]
    case Provides(name, with) =>
      [Kw("provides"), SpaceToken] + [DirectiveNameToken(name, makeId)]
      + ([SpaceToken, Kw("with"), SpaceToken] + Join(NameParts(with), CommaSpace) + [Punct(";"), NewLineToken])
  }

  function DirectiveParts(m: ModuleDecl, e: Env): (r: seq<seq<Token>>)
    ensures |r| == |m.directives|
  {
    seq(|m.directives|, i requires 0 <= i < |m.directives| =>
      [IndentToken(e.indent + 4)] + DirectiveTokens(m.directives[i], e.makeId))
  }

  /** `visitModuleDeclaration`. */
  function ModuleTokens(m: ModuleDecl, e: Env): seq<Token> {
    [IndentToken(e.indent), Kw("module"), SpaceToken]
    + [Defining(TypeName, m.name, ModuleInfoKey)]
    + [SpaceToken, Punct("{"), NewLineToken]
    + Concat(DirectiveParts(m, e))
    + [IndentToken(e.indent), Punct("}"), NewLineToken]
  }

  /** `visit(CompilationUnit)`: the module declaration, if any, then each top-level type. */
  function CompilationUnitTokens(cu: CompilationUnit, e: Env): seq<Token> {
    (match cu.moduleDecl case Some(m) => ModuleTokens(m, e) case None => [])
    + Concat(TopLevelParts(cu.types, e))
  }

  function TopLevelParts(types: seq<TypeDecl>, e: Env): (r: seq<seq<Token>>)
    ensures |r| == |types|
  {
    seq(|types|, i requires 0 <= i < |types| => TypeDeclTokens(types[i], e))
  }
}
