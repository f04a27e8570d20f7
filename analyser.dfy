/**
 * The analyser itself: a class holding the token list it appends to, the
 * indentation and the two maps of the index, whose methods follow the
 * routines of `ASTAnalyser` one by one. Each emitting method is proved to
 * append exactly the token sequence of its specification function, computed
 * from the state on entry, and to leave the indentation and the maps as
 * they were.
 */
module Analyser {
  import opened Wrappers
  import opened JavaStrings
  import opened Tokens
  import opened JavaAst
  import opened TypePrinter
  import opened Signatures
  import opened Sorting
  import opened MethodOrder
  import opened Declarations
  import opened Indexing
  import opened Driver

  class ASTAnalyser {
    /** `apiListing.getTokens()`. */
    var tokens: seq<Token>
    var indent: nat
    /** `apiListing.getKnownTypes()`: simple type name to definition id. */
    var knownTypes: map<string, string>
    /** `apiListing.getTypeToPackageNameMap()`: simple type name to package name. */
    var typeToPackage: map<string, string>
    /** `makeId(String)`, whose definition is not part of this model. */
    const makeId: string -> string
    /** Whether the HashMap of method groups hands out "Service Methods" first. */
    const serviceGroupFirst: bool

    /** What the specification functions read of the state. */
    function CurrentEnv(): Env
      reads this
    {
      Env(indent, knownTypes, typeToPackage, makeId, serviceGroupFirst)
    }

    function CurrentIndex(): Index
      reads this
    {
      Index(knownTypes, typeToPackage)
    }

    /** The call appended `s` and changed nothing else. */
    twostate predicate Appended(s: seq<Token>)
      reads this
    {
      && indent == old(indent)
      && knownTypes == old(knownTypes)
      && typeToPackage == old(typeToPackage)
      && tokens == old(tokens) + s
    }

    constructor(makeId: string -> string, serviceGroupFirst: bool)
      ensures tokens == [] && indent == 0 && knownTypes == map[] && typeToPackage == map[]
      ensures this.makeId == makeId && this.serviceGroupFirst == serviceGroupFirst
    {
      tokens := [];
      indent := 0;
      knownTypes := map[];
      typeToPackage := map[];
      this.makeId := makeId;
      this.serviceGroupFirst := serviceGroupFirst;
    }

    // ----- emission helpers -----

    method Indent()
      modifies this
      ensures indent == old(indent) + 4
      ensures old(indent) % 4 == 0 ==> indent % 4 == 0
      ensures tokens == old(tokens) && knownTypes == old(knownTypes) && typeToPackage == old(typeToPackage)
    {
      indent := indent + 4;
    }

    /** `Math.max(indent - 4, 0)`: at 0 it stays 0. */
    method Unindent()
      modifies this
      ensures indent == if old(indent) >= 4 then old(indent) - 4 else 0
      ensures old(indent) % 4 == 0 ==> indent % 4 == 0
      ensures tokens == old(tokens) && knownTypes == old(knownTypes) && typeToPackage == old(typeToPackage)
    {
      indent := if indent - 4 > 0 then indent - 4 else 0;
    }

    /** A WHITESPACE token of `indent` spaces. */
    method MakeWhitespace() returns (t: Token)
      ensures t.kind == Whitespace && t.definitionId == None && t.navigateToId == None
      ensures |t.text| == indent
      ensures forall k :: 0 <= k < |t.text| ==> t.text[k] == ' '
      ensures t == IndentToken(indent)
    {
      var sb: string := "";
      var i := 0;
      while i < indent
        invariant 0 <= i <= indent
        invariant sb == Spaces(i)
      {
        sb := sb + " ";
        i := i + 1;
      }
      t := Tok(Whitespace, sb);
    }

    method HandleTokenModifier(m: TokenModifier)
      modifies this
      ensures Appended(Expand(m, indent))
    {
      match m
      case Indentation =>
        var ws := MakeWhitespace();
        tokens := tokens + [ws];
      case Space =>
        tokens := tokens + [SpaceToken];
      case Newline =>
        tokens := tokens + [NewLineToken];
      case Nothing =>
    }

    /** `addToken(prefix, token, suffix)`: the prefix's expansion, the token, the suffix's expansion. */
    method AddToken(prefix: TokenModifier, t: Token, suffix: TokenModifier)
      modifies this
      ensures Appended(Emit(prefix, t, suffix, indent))
    {
      HandleTokenModifier(prefix);
      tokens := tokens + [t];
      HandleTokenModifier(suffix);
    }

    /** `addToken(token)`. */
    method Add(t: Token)
      modifies this
      ensures Appended([t])
    {
      AddToken(Nothing, t, Nothing);
    }

    /** `apiListing.getTokens().remove(size - 1)`. */
    method RemoveLastToken()
      requires |tokens| > 0
      modifies this
      ensures tokens == old(tokens)[..|old(tokens)| - 1]
      ensures indent == old(indent) && knownTypes == old(knownTypes) && typeToPackage == old(typeToPackage)
    {
      tokens := tokens[..|tokens| - 1];
    }

    // ----- type printing -----

    /** The opening punctuation before child `i`: after child 0, "<" with type arguments, else ".". */
    method OpeningPunctuation(n: TypeNode, i: nat)
      modifies this
      ensures Appended(if i == 1 then [OpeningPunct(n)] else [])
    {
      if i == 1 {
        if n.hasTypeArguments {
          Add(Punct("<"));
        } else {
          Add(Punct("."));
        }
      }
    }

    /** The closing punctuation after child `i`. */
    method ClosingPunctuation(n: TypeNode, i: nat)
      modifies this
      ensures Appended(ClosingAfter(n, i))
    {
      if i == 0 {
      } else if i == |n.children| - 1 {
        if n.hasTypeArguments {
          Add(Punct(">"));
        }
      } else {
        AddToken(Nothing, Punct(","), Space);
      }
    }

    method GetTypeDFS(n: TypeNode)
      modifies this
      ensures Appended(DfsTokens(n, knownTypes))
      decreases n, 1
    {
      if |n.children| <= 1 {
        Add(TypeNameToken(n.text, knownTypes));
        return;
      }
      ghost var t0 := tokens;
      ghost var known := knownTypes;
      var i := 0;
      while i < |n.children|
        invariant i <= |n.children|
        invariant indent == old(indent) && knownTypes == known && typeToPackage == old(typeToPackage)
        invariant tokens == t0 + DfsChildren(n, i, known)
      {
        ghost var t := tokens;
        VisitChild(n, i);
        DfsChildrenStep(n, i, known);
        AppendTwo(t0, t, tokens, DfsChildren(n, i, known), ChildTokens(n, i, known));
        i := i + 1;
      }
      assert DfsTokens(n, known) == DfsChildren(n, |n.children|, known);
    }

    /** One turn of the loop over the children in `getTypeDFS`. */
    method VisitChild(n: TypeNode, i: nat)
      requires 2 <= |n.children| && i < |n.children|
      modifies this
      ensures Appended(ChildTokens(n, i, knownTypes))
      decreases n, 0
    {
      OpeningPunctuation(n, i);
      GetTypeDFS(n.children[i]);
      ClosingPunctuation(n, i);
    }

    method GetClassType(t: JavaType)
      modifies this
      ensures Appended(ClassTypeTokens(t, knownTypes))
      decreases t
    {
      match t
      case PrimitiveType(name) => Add(Tok(TypeName, name));
      case VoidType => Add(Tok(TypeName, "void"));
      case ArrayType(component) =>
        GetClassType(component);
        Add(Punct("[]"));
      case ClassOrInterfaceType(node) => GetTypeDFS(node);
      case WildcardType(_) =>
      case UnionType(_) =>
      case IntersectionType(_) =>
      case OtherType(_) =>
    }

    // ----- annotations -----

    /** `processAnnotationValueExpression(valueExpr)`. */
    method ProcessAnnotationValueExpression(v: AnnotationValue)
      modifies this
      ensures Appended(ValueTokens(v, knownTypes))
      decreases v, 2
    {
      match v
      case ClassLiteral(typeName, text) =>
        if typeName in knownTypes {
          Add(Token(TypeName, typeName, None, Some(knownTypes[typeName])));
        } else {
          Add(Tok(Text, text));
        }
      case ArrayInitializer(elements, text) =>
        ghost var t0 := tokens;
        Add(Punct("{ "));
        ghost var t1 := tokens;
        ArrayElements(v);
        ghost var t2 := tokens;
        Add(Punct(" }"));
        AppendThree(t0, t1, t2, tokens, [Punct("{ ")], Join(ElementParts(v, knownTypes), [Punct(", ")]), [Punct(" }")]);
      case OtherValue(text) =>
        Add(Tok(Text, text));
    }

    /** The loop over an array initializer's children. */
    method ArrayElements(v: AnnotationValue)
      requires v.ArrayInitializer?
      modifies this
      ensures Appended(Join(ElementParts(v, knownTypes), [Punct(", ")]))
      decreases v, 1
    {
      ghost var parts := ElementParts(v, knownTypes);
      ghost var t0 := tokens;
      var i := 0;
      while i < |v.elements|
        invariant i <= |v.elements|
        invariant indent == old(indent) && knownTypes == old(knownTypes) && typeToPackage == old(typeToPackage)
        invariant tokens == t0 + JoinPrefix(parts, i, [Punct(", ")])
      {
        ghost var t := tokens;
        ProcessArrayElement(v, i);
        JoinLoopTurn(t0, t, tokens, parts, i, [Punct(", ")]);
        i := i + 1;
      }
      JoinPrefixAll(parts, [Punct(", ")]);
    }

    /**
     * One turn of the loop over an array initializer's children: an expression
     * is processed, anything else printed as the whole initializer; ", " follows
     * all but the last.
     */
    method ProcessArrayElement(v: AnnotationValue, i: nat)
      requires v.ArrayInitializer? && i < |v.elements|
      modifies this
      ensures Appended(ElementParts(v, knownTypes)[i] + (if i < |v.elements| - 1 then [Punct(", ")] else []))
      decreases v, 0
    {
      match v.elements[i] {
        case ExpressionElement(e) => ProcessAnnotationValueExpression(e);
        case NonExpressionElement => Add(Tok(Text, v.text));
      }
      if i < |v.elements| - 1 {
        Add(Punct(", "));
      }
    }

    /** One turn of the loop over a normal annotation's pairs: name, " = ", value, and ", " after all but the last. */
    method ProcessPair(pairs: seq<MemberValuePair>, i: nat)
      requires i < |pairs|
      modifies this
      ensures Appended(PairParts(pairs, knownTypes)[i] + (if i < |pairs| - 1 then [Punct(", ")] else []))
    {
      var pair := pairs[i];
      Add(Tok(Text, pair.name));
      Add(Punct(" = "));
      ProcessAnnotationValueExpression(pair.value);
      if i < |pairs| - 1 {
        Add(Punct(", "));
      }
    }

    /** The consumer of `getAnnotations`, applied to one annotation. */
    method AnnotationConsumer(a: Annotation, showProperties: bool, addNewline: bool)
      modifies this
      ensures Appended(AnnotationTokens(a, showProperties, addNewline, CurrentEnv()))
    {
      ghost var t0 := tokens;
      if addNewline {
        var ws := MakeWhitespace();
        Add(ws);
      }
      ghost var t1 := tokens;
      Add(Tok(TypeName, "@" + a.name));
      ghost var t2 := tokens;
      if showProperties && a.pairs.Some? {
        AnnotationProperties(a.pairs.value);
      }
      ghost var t3 := tokens;
      if addNewline {
        Add(NewLineToken);
      } else {
        Add(SpaceToken);
      }
      AppendFour(t0, t1, t2, t3, tokens,
                 if addNewline then [IndentToken(indent)] else [],
                 [Tok(TypeName, "@" + a.name)],
                 if showProperties && a.pairs.Some? then PropertiesTokens(a.pairs.value, knownTypes) else [],
                 if addNewline then [NewLineToken] else [SpaceToken]);
    }

    /** The name-value pairs of a normal annotation, in parentheses and separated by ", ". */
    method AnnotationProperties(pairs: seq<MemberValuePair>)
      modifies this
      ensures Appended(PropertiesTokens(pairs, knownTypes))
    {
      Add(Punct("("));
      ghost var parts := PairParts(pairs, knownTypes);
      ghost var t0 := tokens;
      var i := 0;
      while i < |pairs|
        invariant i <= |pairs|
        invariant indent == old(indent) && knownTypes == old(knownTypes) && typeToPackage == old(typeToPackage)
        invariant tokens == t0 + JoinPrefix(parts, i, [Punct(", ")])
      {
        ghost var t := tokens;
        ProcessPair(pairs, i);
        JoinLoopTurn(t0, t, tokens, parts, i, [Punct(", ")]);
        i := i + 1;
      }
      JoinPrefixAll(parts, [Punct(", ")]);
      Add(Punct(")"));
    }

    /** `getAnnotationByName(name).ifPresent(consumer)`. */
    method AnnotationIfPresentConsumer(annotations: seq<Annotation>, name: string, showProperties: bool, addNewline: bool)
      modifies this
      ensures Appended(AnnotationIfPresent(annotations, name, showProperties, addNewline, CurrentEnv()))
    {
      var found := FindAnnotation(annotations, name);
      if found.Some? {
        AnnotationConsumer(found.value, showProperties, addNewline);
      }
    }

    /** `getAnnotations(node, showProperties, addNewline)`: six lookups in allow-list order. */
    method GetAnnotations(annotations: seq<Annotation>, showProperties: bool, addNewline: bool)
      modifies this
      ensures Appended(AnnotationsTokens(annotations, showProperties, addNewline, CurrentEnv()))
    {
      AnnotationsInOrder(annotations, showProperties, addNewline, CurrentEnv());
      ghost var e := CurrentEnv();
      ghost var t0 := tokens;
      AnnotationIfPresentConsumer(annotations, "Deprecated", showProperties, addNewline);
      ghost var t1 := tokens;
      AnnotationIfPresentConsumer(annotations, "Override", showProperties, addNewline);
      ghost var t2 := tokens;
      AnnotationIfPresentConsumer(annotations, "ServiceClient", showProperties, addNewline);
      ghost var t3 := tokens;
      AnnotationIfPresentConsumer(annotations, "ServiceClientBuilder", showProperties, addNewline);
      ghost var t4 := tokens;
      AnnotationIfPresentConsumer(annotations, "Fluent", showProperties, addNewline);
      ghost var t5 := tokens;
      AnnotationIfPresentConsumer(annotations, "Immutable", showProperties, addNewline);
      AppendSix(t0, t1, t2, t3, t4, t5, tokens,
                AnnotationIfPresent(annotations, "Deprecated", showProperties, addNewline, e),
                AnnotationIfPresent(annotations, "Override", showProperties, addNewline, e),
                AnnotationIfPresent(annotations, "ServiceClient", showProperties, addNewline, e),
                AnnotationIfPresent(annotations, "ServiceClientBuilder", showProperties, addNewline, e),
                AnnotationIfPresent(annotations, "Fluent", showProperties, addNewline, e),
                AnnotationIfPresent(annotations, "Immutable", showProperties, addNewline, e));
    }

    // ----- signatures -----

    /** `getModifiers(modifiers)`: one KEYWORD per modifier. */
    method GetModifiers(modifiers: seq<string>)
      modifies this
      ensures Appended(ModifiersTokens(modifiers))
    {
      ghost var t0 := tokens;
      var i := 0;
      while i < |modifiers|
        invariant i <= |modifiers|
        invariant indent == old(indent) && knownTypes == old(knownTypes) && typeToPackage == old(typeToPackage)
        invariant tokens == t0 + ModifiersTokens(modifiers)[..i]
      {
        Add(Kw(modifiers[i]));
        assert ModifiersTokens(modifiers)[..i + 1] == ModifiersTokens(modifiers)[..i] + [Kw(modifiers[i])];
        i := i + 1;
      }
      assert ModifiersTokens(modifiers)[..i] == ModifiersTokens(modifiers);
    }

    /** `getGenericTypeParameter(typeParameter)`: the name, then " extends " and the bounds with no separator. */
    method GetGenericTypeParameter(tp: TypeParameter)
      modifies this
      ensures Appended(TypeParameterTokens(tp, knownTypes))
    {
      var token := Tok(TypeName, tp.name);
      if tp.name in knownTypes {
        token := token.(navigateToId := Some(knownTypes[tp.name]));
      }
      Add(token);
      assert TypeParameterTokens(tp, knownTypes) == [token]
        + (if |tp.bounds| == 0 then [] else [SpaceToken, Kw("extends"), SpaceToken] + Concat(TypeNodeParts(tp.bounds, knownTypes)));
      if |tp.bounds| != 0 {
        ghost var t0 := tokens;
        AddToken(Space, Kw("extends"), Space);
        EmitSpaced(Kw("extends"), indent);
        ghost var t1 := tokens;
        Bounds(tp.bounds);
        AppendTwo(t0, t1, tokens, [SpaceToken, Kw("extends"), SpaceToken], Concat(TypeNodeParts(tp.bounds, knownTypes)));
      }
    }

    /** The bounds of a type parameter, one after the other with nothing between them. */
    method Bounds(bounds: seq<TypeNode>)
      modifies this
      ensures Appended(Concat(TypeNodeParts(bounds, knownTypes)))
    {
      ghost var parts := TypeNodeParts(bounds, knownTypes);
      ghost var t0 := tokens;
      var i := 0;
      while i < |bounds|
        invariant i <= |bounds|
        invariant indent == old(indent) && knownTypes == old(knownTypes) && typeToPackage == old(typeToPackage)
        invariant tokens == t0 + Concat(parts[..i])
      {
        ghost var t := tokens;
        GetClassType(ClassOrInterfaceType(bounds[i]));
        ConcatLoopStep(t0, t, tokens, parts, i);
        i := i + 1;
      }
      ConcatAll(parts);
    }

    /** One turn of the loop of `getTypeParameters`: the parameter, then ", " unless it is the last. */
    method TypeParameterTurn(tps: seq<TypeParameter>, i: nat)
      requires i < |tps|
      modifies this
      ensures Appended(TypeParameterParts(tps, knownTypes)[i] + (if i < |tps| - 1 then CommaSpace else []))
    {
      GetGenericTypeParameter(tps[i]);
      if i != |tps| - 1 {
        AddToken(Nothing, Punct(","), Space);
      }
    }

    /** `getTypeParameters(typeParameters)`. */
    method GetTypeParameters(tps: seq<TypeParameter>)
      modifies this
      ensures Appended(TypeParametersTokens(tps, knownTypes))
    {
      if |tps| == 0 {
        return;
      }
      ghost var parts := TypeParameterParts(tps, knownTypes);
      assert TypeParametersTokens(tps, knownTypes) == [Punct("<")] + Join(parts, CommaSpace) + [Punct(">")];
      ghost var t0 := tokens;
      Add(Punct("<"));
      ghost var t1 := tokens;
      TypeParameterList(tps);
      ghost var t2 := tokens;
      Add(Punct(">"));
      AppendThree(t0, t1, t2, tokens, [Punct("<")], Join(parts, CommaSpace), [Punct(">")]);
    }

    /** The type parameters separated by ", ". */
    method TypeParameterList(tps: seq<TypeParameter>)
      modifies this
      ensures Appended(Join(TypeParameterParts(tps, knownTypes), CommaSpace))
    {
      ghost var parts := TypeParameterParts(tps, knownTypes);
      ghost var t0 := tokens;
      var i := 0;
      while i < |tps|
        invariant i <= |tps|
        invariant indent == old(indent) && knownTypes == old(knownTypes) && typeToPackage == old(typeToPackage)
        invariant tokens == t0 + JoinPrefix(parts, i, CommaSpace)
      {
        ghost var t := tokens;
        TypeParameterTurn(tps, i);
        JoinLoopTurn(t0, t, tokens, parts, i, CommaSpace);
        i := i + 1;
      }
      JoinPrefixAll(parts, CommaSpace);
    }

    /** `getType(parameter)`: the parameter's type, then "..." for varargs. */
    method GetParameterType(p: Parameter)
      modifies this
      ensures Appended(ClassTypeTokens(p.paramType, knownTypes) + (if p.isVarArgs then [Punct("...")] else []))
    {
      GetClassType(p.paramType);
      if p.isVarArgs {
        Add(Punct("..."));
      }
    }

    /** `getType(methodDeclaration)`: the return type and a space. */
    method GetReturnType(returnType: JavaType)
      modifies this
      ensures Appended(ClassTypeTokens(returnType, knownTypes) + [SpaceToken])
    {
      GetClassType(returnType);
      Add(SpaceToken);
    }

    /** One turn of the parameter loop: type, a space, the name, then ", " unless it is the last. */
    method ParameterTurn(ps: seq<Parameter>, i: nat)
      requires i < |ps|
      modifies this
      ensures Appended(ParameterParts(ps, knownTypes)[i] + (if i < |ps| - 1 then CommaSpace else []))
    {
      var p := ps[i];
      GetParameterType(p);
      Add(SpaceToken);
      Add(Tok(Text, p.name));
      if i < |ps| - 1 {
        AddToken(Nothing, Punct(","), Space);
      }
    }

    /** `getDeclarationNameAndParameters(callable, parameters)`. */
    method GetDeclarationNameAndParameters(c: Callable)
      modifies this
      ensures Appended(NameAndParametersTokens(c, knownTypes))
    {
      ghost var parts := ParameterParts(c.parameters, knownTypes);
      assert NameAndParametersTokens(c, knownTypes)
          == [Defining(MemberName, c.name, c.id), Punct("(")] + Join(parts, CommaSpace) + [Punct(")"), SpaceToken];
      Add(Defining(MemberName, c.name, c.id));
      Add(Punct("("));
      ghost var t0 := tokens;
      var i := 0;
      while i < |c.parameters|
        invariant i <= |c.parameters|
        invariant indent == old(indent) && knownTypes == old(knownTypes) && typeToPackage == old(typeToPackage)
        invariant tokens == t0 + JoinPrefix(parts, i, CommaSpace)
      {
        ghost var t := tokens;
        ParameterTurn(c.parameters, i);
        JoinLoopTurn(t0, t, tokens, parts, i, CommaSpace);
        i := i + 1;
      }
      JoinPrefixAll(parts, CommaSpace);
      AddToken(Nothing, Punct(")"), Space);
      EmitSpaceAfter(Punct(")"), indent);
    }

    /** One turn of the loop of `getThrowException`: the type, linked when its package is known, then ", " unless it is the last. */
    method ThrownTurn(thrown: seq<string>, i: nat)
      requires i < |thrown|
      modifies this
      ensures Appended(ThrownParts(thrown, typeToPackage, makeId)[i] + (if i < |thrown| - 1 then CommaSpace else []))
    {
      var exceptionName := thrown[i];
      var throwsToken := Tok(TypeName, exceptionName);
      if exceptionName in typeToPackage {
        var fullPath := typeToPackage[exceptionName];
        throwsToken := throwsToken.(navigateToId := Some(makeId(fullPath + "." + exceptionName)));
      }
      Add(throwsToken);
      if i < |thrown| - 1 {
        AddToken(Nothing, Punct(","), Space);
      }
    }

    /** `getThrowException(callable)`: each thrown type links to its id when its package is known. */
    method GetThrowException(thrown: seq<string>)
      modifies this
      ensures Appended(ThrowsTokens(thrown, typeToPackage, makeId))
    {
      if |thrown| == 0 {
        return;
      }
      ghost var parts := ThrownParts(thrown, typeToPackage, makeId);
      assert ThrowsTokens(thrown, typeToPackage, makeId) == [Kw("throws"), SpaceToken] + Join(parts, CommaSpace) + [SpaceToken];
      AddToken(Nothing, Kw("throws"), Space);
      EmitSpaceAfter(Kw("throws"), indent);
      ghost var t0 := tokens;
      var i := 0;
      while i < |thrown|
        invariant i <= |thrown|
        invariant indent == old(indent) && knownTypes == old(knownTypes) && typeToPackage == old(typeToPackage)
        invariant tokens == t0 + JoinPrefix(parts, i, CommaSpace)
      {
        ghost var t := tokens;
        ThrownTurn(thrown, i);
        JoinLoopTurn(t0, t, tokens, parts, i, CommaSpace);
        i := i + 1;
      }
      JoinPrefixAll(parts, CommaSpace);
      Add(SpaceToken);
    }

    /** One constructor or method line of `tokeniseConstructorsOrMethods`. */
    method TokeniseCallable(c: Callable)
      modifies this
      ensures Appended(CallableTokens(c, CurrentEnv()))
    {
      ghost var e := CurrentEnv();
      CallableLine(c, e);
      ghost var t0 := tokens;
      CallableHeadTokens(c);
      ghost var h := tokens;
      assert CurrentEnv() == e;
      assert h == t0 + CallableHead(c, e);
      GetDeclarationNameAndParameters(c);
      ghost var n := tokens;
      GetThrowException(c.thrown);
      ghost var th := tokens;
      assert CurrentEnv() == e;
      assert th == n + ThrowsTokens(c.thrown, e.typeToPackage, e.makeId);
      Add(NewLineToken);
      AppendFour(t0, h, n, th, tokens,
                 CallableHead(c, e), NameAndParametersTokens(c, e.knownTypes), ThrowsTokens(c.thrown, e.typeToPackage, e.makeId), [NewLineToken]);
    }

    /** The start of a callable's line: indentation, annotations, modifiers, type parameters and return type. */
    method CallableHeadTokens(c: Callable)
      modifies this
      ensures Appended(CallableHead(c, CurrentEnv()))
    {
      ghost var e := CurrentEnv();
      ghost var t0 := tokens;
      var ws := MakeWhitespace();
      Add(ws);
      ghost var t1 := tokens;
      assert t1 == t0 + [IndentToken(e.indent)];
      GetAnnotations(c.annotations, false, false);
      ghost var t2 := tokens;
      assert CurrentEnv() == e;
      assert t2 == t1 + AnnotationsTokens(c.annotations, false, false, e);
      GetModifiers(c.modifiers);
      ghost var t3 := tokens;
      GetTypeParameters(c.typeParameters);
      ghost var t4 := tokens;
      assert t4 == t3 + TypeParametersTokens(c.typeParameters, e.knownTypes);
      if |c.typeParameters| > 0 {
        Add(SpaceToken);
      }
      ghost var t5 := tokens;
      match c.kind {
        case Method(returnType) => GetReturnType(returnType);
        case Constructor =>
      }
      assert tokens == t5 + ReturnTypeTokens(c, e.knownTypes);
      AppendSix(t0, t1, t2, t3, t4, t5, tokens,
                [IndentToken(e.indent)],
                AnnotationsTokens(c.annotations, false, false, e),
                ModifiersTokens(c.modifiers),
                TypeParametersTokens(c.typeParameters, e.knownTypes),
                if |c.typeParameters| > 0 then [SpaceToken] else [],
                ReturnTypeTokens(c, e.knownTypes));
    }

    // ----- enum constants -----

    /** `getEnumEntries(enumDeclaration)`: one line per constant, one level deeper. */
    method GetEnumEntries(td: TypeDecl)
      modifies this
      ensures Appended(EnumEntriesTokens(td, CurrentEnv()))
    {
      ghost var e := CurrentEnv();
      ghost var t0 := tokens;
      Indent();
      EnumEntryLoop(td);
      assert CurrentEnv() == Indented(e);
      assert tokens == t0 + EnumEntriesTokens(td, e);
      Unindent();
      assert CurrentEnv() == e;
    }

    /** The constants in order, the `AtomicInteger` counter numbering them from 0. */
    method EnumEntryLoop(td: TypeDecl)
      modifies this
      ensures Appended(Concat(EnumEntryParts(td, CurrentEnv())))
    {
      ghost var e := CurrentEnv();
      ghost var parts := EnumEntryParts(td, e);
      var size := |td.entries|;
      ghost var t0 := tokens;
      var counter := 0;
      while counter < size
        invariant counter <= size
        invariant indent == e.indent && knownTypes == e.knownTypes && typeToPackage == e.typeToPackage
        invariant tokens == t0 + Concat(parts[..counter])
      {
        ghost var t := tokens;
        EnumEntry(td, counter);
        assert CurrentEnv() == e;
        assert tokens == t + parts[counter];
        ConcatLoopStep(t0, t, tokens, parts, counter);
        counter := counter + 1;
      }
      ConcatAll(parts);
    }

    /** The line of the constant the counter has reached: its name opens the counter's id, then its arguments and "," or ";". */
    method EnumEntry(td: TypeDecl, counter: nat)
      requires counter < |td.entries|
      modifies this
      ensures Appended(EnumEntryTokens(td, counter, CurrentEnv()))
    {
      ghost var t0 := tokens;
      var ws := MakeWhitespace();
      Add(ws);
      var c := td.entries[counter];
      var definitionId := makeId(td.fqn + "." + NatToString(counter));
      Add(Defining(MemberName, c.name, definitionId));
      ghost var t1 := tokens;
      EnumArguments(c.arguments);
      ghost var t2 := tokens;
      if counter < |td.entries| - 1 {
        Add(Punct(","));
      } else {
        Add(Punct(";"));
      }
      Add(NewLineToken);
      AppendThree(t0, t1, t2, tokens,
                  [IndentToken(indent), Defining(MemberName, c.name, EnumConstantId(td, counter, CurrentEnv()))],
                  ArgumentsTokens(c.arguments),
                  [Punct(if counter < |td.entries| - 1 then "," else ";"), NewLineToken]);
    }

    /** Each argument of a constant in its own parentheses. */
    method EnumArguments(args: seq<string>)
      modifies this
      ensures Appended(ArgumentsTokens(args))
    {
      ghost var parts := ArgumentParts(args);
      ghost var t0 := tokens;
      var j := 0;
      while j < |args|
        invariant j <= |args|
        invariant indent == old(indent) && knownTypes == old(knownTypes) && typeToPackage == old(typeToPackage)
        invariant tokens == t0 + Concat(parts[..j])
      {
        ghost var t := tokens;
        Add(Punct("("));
        Add(Tok(Text, args[j]));
        Add(Punct(")"));
        ConcatLoopStep(t0, t, tokens, parts, j);
        j := j + 1;
      }
      ConcatAll(parts);
    }

    // ----- default constructor, annotation members and fields -----

    /** `addDefaultConstructor(typeDeclaration)`: `public Name()` one level deeper. */
    method AddDefaultConstructor(td: TypeDecl)
      modifies this
      ensures Appended(DefaultConstructorTokens(td, CurrentEnv()))
    {
      ghost var e := CurrentEnv();
      Indent();
      ghost var t0 := tokens;
      AddToken(Indentation, Kw("public"), Space);
      EmitIndentedSpace(Kw("public"), indent);
      var name := td.name;
      var definitionId := makeId(td.name);
      Add(Defining(MemberName, name, definitionId));
      Add(Punct("("));
      AddToken(Nothing, Punct(")"), Newline);
      EmitNewlineAfter(Punct(")"), indent);
      assert tokens == t0 + DefaultConstructorTokens(td, e);
      Unindent();
      assert CurrentEnv() == e;
    }

    /** `tokeniseAnnotationMember(annotationDeclaration)`: one line per member, one level deeper. */
    method TokeniseAnnotationMember(td: TypeDecl)
      modifies this
      ensures Appended(AnnotationMembersTokens(td, CurrentEnv()))
    {
      ghost var e := CurrentEnv();
      ghost var t0 := tokens;
      Indent();
      AnnotationMemberLoop(td);
      assert CurrentEnv() == Indented(e);
      assert tokens == t0 + AnnotationMembersTokens(td, e);
      Unindent();
      assert CurrentEnv() == e;
    }

    /** The loop over the members of an annotation declaration. */
    method AnnotationMemberLoop(td: TypeDecl)
      modifies this
      ensures Appended(Concat(AnnotationMemberParts(td, CurrentEnv())))
    {
      ghost var e := CurrentEnv();
      ghost var parts := AnnotationMemberParts(td, e);
      ghost var t0 := tokens;
      var i := 0;
      while i < |td.annotationMembers|
        invariant i <= |td.annotationMembers|
        invariant indent == e.indent && knownTypes == e.knownTypes && typeToPackage == e.typeToPackage
        invariant tokens == t0 + Concat(parts[..i])
      {
        ghost var t := tokens;
        AnnotationMember(td, td.annotationMembers[i]);
        assert CurrentEnv() == e;
        assert tokens == t + parts[i];
        ConcatLoopStep(t0, t, tokens, parts, i);
        i := i + 1;
      }
      ConcatAll(parts);
    }

    /** One annotation member: its type, name and "()", then the default value when there is one. */
    method AnnotationMember(td: TypeDecl, m: AnnotationMember)
      modifies this
      ensures Appended(AnnotationMemberTokens(td, m, CurrentEnv()))
    {
      ghost var e := CurrentEnv();
      ghost var t0 := tokens;
      var ws := MakeWhitespace();
      Add(ws);
      ghost var t1 := tokens;
      GetClassType(m.memberType);
      ghost var t2 := tokens;
      MemberNameAndDefault(td, m);
      assert CurrentEnv() == e;
      AppendThree(t0, t1, t2, tokens,
                  [IndentToken(e.indent)],
                  ClassTypeTokens(m.memberType, e.knownTypes),
                  AnnotationMemberRest(td, m, e));
    }

    /** The rest of an annotation member's line, after its type. */
    method MemberNameAndDefault(td: TypeDecl, m: AnnotationMember)
      modifies this
      ensures Appended(AnnotationMemberRest(td, m, CurrentEnv()))
    {
      ghost var t0 := tokens;
      Add(SpaceToken);
      var name := m.name;
      var definitionId := makeId(td.fqn + "." + name);
      Add(Defining(MemberName, name, definitionId));
      Add(Punct("("));
      Add(Punct(")"));
      ghost var t1 := tokens;
      match m.defaultValue {
        case Some(v) =>
          AddToken(Space, Kw("default"), Space);
          EmitSpaced(Kw("default"), indent);
          Add(Kw(v));
        case None =>
      }
      ghost var t2 := tokens;
      AddToken(Nothing, Punct(";"), Newline);
      EmitNewlineAfter(Punct(";"), indent);
    }

    /** `tokeniseFields(isInterfaceDeclaration, typeDeclaration)`: one line per visible field, one level deeper. */
    method TokeniseFields(isInterface: bool, td: TypeDecl)
      modifies this
      ensures Appended(FieldsTokens(td, isInterface, CurrentEnv()))
    {
      ghost var e := CurrentEnv();
      ghost var t0 := tokens;
      Indent();
      FieldLoop(isInterface, td);
      assert CurrentEnv() == Indented(e);
      assert tokens == t0 + FieldsTokens(td, isInterface, e);
      Unindent();
      assert CurrentEnv() == e;
    }

    /** The loop over the fields of a type. */
    method FieldLoop(isInterface: bool, td: TypeDecl)
      modifies this
      ensures Appended(Concat(FieldParts(td, isInterface, CurrentEnv())))
    {
      ghost var e := CurrentEnv();
      ghost var parts := FieldParts(td, isInterface, e);
      ghost var t0 := tokens;
      var i := 0;
      while i < |td.fields|
        invariant i <= |td.fields|
        invariant indent == e.indent && knownTypes == e.knownTypes && typeToPackage == e.typeToPackage
        invariant tokens == t0 + Concat(parts[..i])
      {
        ghost var t := tokens;
        FieldTurn(isInterface, td, i);
        assert CurrentEnv() == e;
        assert tokens == t + parts[i];
        ConcatLoopStep(t0, t, tokens, parts, i);
        i := i + 1;
      }
      ConcatAll(parts);
    }

    /** One turn of the field loop: a field that is not shown is skipped. */
    method FieldTurn(isInterface: bool, td: TypeDecl, i: nat)
      requires i < |td.fields|
      modifies this
      ensures Appended(FieldParts(td, isInterface, CurrentEnv())[i])
    {
      var f := td.fields[i];
      if Visible(f.access, isInterface) {
        TokeniseField(td, f);
      }
    }

    /** The body of the field loop for a field that is shown. */
    method TokeniseField(td: TypeDecl, f: Field)
      modifies this
      ensures Appended(FieldTokens(td, f, CurrentEnv()))
    {
      ghost var e := CurrentEnv();
      ghost var t0 := tokens;
      var ws := MakeWhitespace();
      Add(ws);
      ghost var t1 := tokens;
      GetAnnotations(f.annotations, false, false);
      ghost var t2 := tokens;
      assert CurrentEnv() == e;
      assert t2 == t1 + AnnotationsTokens(f.annotations, false, false, e);
      GetModifiers(f.modifiers);
      ghost var t3 := tokens;
      GetDeclarators(td, f);
      ghost var t4 := tokens;
      assert CurrentEnv() == e;
      assert t4 == t3 + DeclaratorsTokens(td, f, e);
      AddToken(Nothing, Punct(";"), Newline);
      EmitNewlineAfter(Punct(";"), indent);
      AppendFive(t0, t1, t2, t3, t4, tokens,
                 [IndentToken(e.indent)],
                 AnnotationsTokens(f.annotations, false, false, e),
                 ModifiersTokens(f.modifiers),
                 DeclaratorsTokens(td, f, e),
                 [Punct(";"), NewLineToken]);
    }

    /** `getType(fieldDeclaration)`: the element type and a space. */
    method GetFieldType(f: Field)
      modifies this
      ensures Appended(ClassTypeTokens(f.elementType, knownTypes) + [SpaceToken])
    {
      GetClassType(f.elementType);
      Add(SpaceToken);
    }

    /** The type and declarators of a field: several are listed and the trailing ", " retracted; one keeps its initializer. */
    method GetDeclarators(td: TypeDecl, f: Field)
      modifies this
      ensures Appended(DeclaratorsTokens(td, f, CurrentEnv()))
    {
      if |f.variables| > 1 {
        ghost var e := CurrentEnv();
        ghost var t0 := tokens;
        GetFieldType(f);
        ghost var t1 := tokens;
        DeclaratorList(td, f.variables);
        assert CurrentEnv() == e;
        AppendTwo(t0, t1, tokens,
                  ClassTypeTokens(f.elementType, e.knownTypes) + [SpaceToken],
                  Join(DeclaratorParts(td, f.variables, e), CommaSpace));
      } else if |f.variables| == 1 {
        ghost var e := CurrentEnv();
        ghost var t0 := tokens;
        GetFieldType(f);
        ghost var t1 := tokens;
        SingleDeclarator(td, f.variables[0]);
        assert CurrentEnv() == e;
        AppendTwo(t0, t1, tokens,
                  ClassTypeTokens(f.elementType, e.knownTypes) + [SpaceToken],
                  SingleDeclaratorTokens(td, f.variables[0], e));
      }
    }

    /** Several declarators: each name followed by ", ", then the last separator retracted. */
    method DeclaratorList(td: TypeDecl, variables: seq<VariableDeclarator>)
      requires |variables| > 0
      modifies this
      ensures Appended(Join(DeclaratorParts(td, variables, CurrentEnv()), CommaSpace))
    {
      ghost var e := CurrentEnv();
      ghost var t1 := tokens;
      ghost var parts := DeclaratorParts(td, variables, e);
      var i := 0;
      while i < |variables|
        invariant i <= |variables|
        invariant indent == e.indent && knownTypes == e.knownTypes && typeToPackage == e.typeToPackage
        invariant tokens == t1 + JoinTrailing(parts[..i], CommaSpace)
      {
        ghost var t := tokens;
        var name := variables[i].name;
        var definitionId := makeId(td.fqn + "." + variables[i].name);
        Add(Defining(MemberName, name, definitionId));
        AddToken(Nothing, Punct(","), Space);
        EmitSpaceAfter(Punct(","), indent);
        assert tokens == t + (parts[i] + CommaSpace);
        TrailingLoopStep(t1, t, tokens, parts, i, CommaSpace);
        i := i + 1;
      }
      ghost var t2 := tokens;
      TrailingLoopRetract(t1, t2, parts, CommaSpace);
      RemoveLastToken();
      RemoveLastToken();
      assert tokens == t2[..|t2| - |CommaSpace|];
    }

    /** A single declarator: its name, then " = " and the initializer when there is one. */
    method SingleDeclarator(td: TypeDecl, v: VariableDeclarator)
      modifies this
      ensures Appended(SingleDeclaratorTokens(td, v, CurrentEnv()))
    {
      ghost var t0 := tokens;
      var name := v.name;
      var definitionId := makeId(td.fqn + "." + v.name);
      Add(Defining(MemberName, name, definitionId));
      match v.initializer {
        case Some(init) =>
          AddToken(Space, Punct("="), Space);
          EmitSpaced(Punct("="), indent);
          Add(Tok(Text, init));
        case None =>
      }
    }

    // ----- type header -----

    /** `getTypeDeclaration(typeDeclaration)`: reports whether the type is skipped, and emits its header when it is not. */
    method GetTypeDeclaration(td: TypeDecl) returns (isPrivate: bool)
      modifies this
      ensures isPrivate <==> !td.isPublicApi
      ensures Appended(if isPrivate then [] else TypeHeaderTokens(td, CurrentEnv()))
    {
      if !td.isPublicApi {
        return true;
      }
      ghost var e := CurrentEnv();
      ghost var t0 := tokens;
      TypeHeaderStartTokens(td);
      ghost var t1 := tokens;
      assert CurrentEnv() == e;
      GetExtends(td);
      ghost var t2 := tokens;
      GetImplements(td);
      ghost var t3 := tokens;
      AddToken(Space, Punct("{"), Newline);
      EmitSpacedLineEnd(Punct("{"), indent);
      AppendFour(t0, t1, t2, t3, tokens,
                 TypeHeaderStart(td, e), ExtendsTokens(td, e.knownTypes), ImplementsTokens(td, e.knownTypes),
                 [SpaceToken, Punct("{"), NewLineToken]);
      return false;
    }

    /** The annotations, the indentation, the modifiers, the kind keyword and the type's name. */
    method TypeHeaderStartTokens(td: TypeDecl)
      modifies this
      ensures Appended(TypeHeaderStart(td, CurrentEnv()))
    {
      ghost var e := CurrentEnv();
      ghost var t0 := tokens;
      GetAnnotations(td.annotations, true, true);
      ghost var t1 := tokens;
      assert CurrentEnv() == e;
      assert t1 == t0 + AnnotationsTokens(td.annotations, true, true, e);
      var ws := MakeWhitespace();
      Add(ws);
      ghost var t2 := tokens;
      GetModifiers(td.modifiers);
      ghost var t3 := tokens;
      KindAndName(td);
      AppendFour(t0, t1, t2, t3, tokens,
                 AnnotationsTokens(td.annotations, true, true, e), [IndentToken(e.indent)],
                 ModifiersTokens(td.modifiers), KindAndNameTokens(td));
    }

    /** "@" for an annotation declaration, the kind keyword, a space and the type's defining name. */
    method KindAndName(td: TypeDecl)
      modifies this
      ensures Appended(KindAndNameTokens(td))
    {
      if td.kind == AnnotationDecl {
        Add(Kw("@"));
      }
      var kindName := KindName(td.kind);
      AddToken(Nothing, Kw(kindName), Space);
      EmitSpaceAfter(Kw(kindName), indent);
      Add(Defining(TypeName, td.name, td.id));
    }

    /** The type parameters and the extends clause of a class or interface. */
    method GetExtends(td: TypeDecl)
      modifies this
      ensures Appended(ExtendsTokens(td, knownTypes))
    {
      if IsClassOrInterface(td) {
        ghost var t0 := tokens;
        GetTypeParameters(td.typeParameters);
        ghost var t1 := tokens;
        if |td.extendedTypes| != 0 {
          AddToken(Space, Kw("extends"), Space);
          EmitSpaced(Kw("extends"), indent);
          ghost var t2 := tokens;
          TypeList(td.extendedTypes);
          AppendTwo(t1, t2, tokens, [SpaceToken, Kw("extends"), SpaceToken], Join(TypeNodeParts(td.extendedTypes, knownTypes), CommaSpace));
        }
      }
    }

    /** The extended types, each by `getType`, with ", " between neighbours. */
    method TypeList(types: seq<TypeNode>)
      modifies this
      ensures Appended(Join(TypeNodeParts(types, knownTypes), CommaSpace))
    {
      ghost var parts := TypeNodeParts(types, knownTypes);
      ghost var t0 := tokens;
      var i := 0;
      while i < |types|
        invariant i <= |types|
        invariant indent == old(indent) && knownTypes == old(knownTypes) && typeToPackage == old(typeToPackage)
        invariant tokens == t0 + JoinPrefix(parts, i, CommaSpace)
      {
        ghost var t := tokens;
        GetClassType(ClassOrInterfaceType(types[i]));
        if i < |types| - 1 {
          AddToken(Nothing, Punct(","), Space);
          EmitSpaceAfter(Punct(","), indent);
        }
        assert tokens == t + (parts[i] + (if i < |parts| - 1 then CommaSpace else []));
        JoinLoopTurn(t0, t, tokens, parts, i, CommaSpace);
        i := i + 1;
      }
      JoinPrefixAll(parts, CommaSpace);
    }

    /** The implements clause: each type followed by "," and " ", then the last two tokens retracted. */
    method GetImplements(td: TypeDecl)
      modifies this
      ensures Appended(ImplementsTokens(td, knownTypes))
    {
      var implementedTypes := ImplementedTypes(td);
      if |implementedTypes| != 0 {
        ghost var t0 := tokens;
        AddToken(Space, Kw("implements"), Space);
        EmitSpaced(Kw("implements"), indent);
        ghost var t1 := tokens;
        ImplementedList(implementedTypes);
        AppendTwo(t0, t1, tokens, [SpaceToken, Kw("implements"), SpaceToken],
                  Join(TypeNodeParts(implementedTypes, knownTypes), CommaSpace));
      }
    }

    /**
     * The implemented types, each followed by ", ", after which the last ", " is taken back off
     * the token list.
     */
    method ImplementedList(implementedTypes: seq<TypeNode>)
      requires |implementedTypes| != 0
      modifies this
      ensures Appended(Join(TypeNodeParts(implementedTypes, knownTypes), CommaSpace))
    {
      ghost var t1 := tokens;
      ghost var parts := TypeNodeParts(implementedTypes, knownTypes);
      var i := 0;
      while i < |implementedTypes|
        invariant i <= |implementedTypes|
        invariant indent == old(indent) && knownTypes == old(knownTypes) && typeToPackage == old(typeToPackage)
        invariant tokens == t1 + JoinTrailing(parts[..i], CommaSpace)
      {
        ghost var t := tokens;
        GetClassType(ClassOrInterfaceType(implementedTypes[i]));
        Add(Punct(","));
        Add(SpaceToken);
        assert tokens == t + (parts[i] + CommaSpace);
        TrailingLoopStep(t1, t, tokens, parts, i, CommaSpace);
        i := i + 1;
      }
      ghost var t2 := tokens;
      TrailingLoopRetract(t1, t2, parts, CommaSpace);
      RemoveLastToken();
      RemoveLastToken();
      assert tokens == t2[..|t2| - |CommaSpace|];
    }

    // ----- constructors and methods -----

    /**
     * `tokeniseConstructorsOrMethods`: a comment line for a constructor list that is all private or
     * package-private; otherwise the visible callables, sorted and grouped, one level deeper.
     */
    method TokeniseConstructorsOrMethods(td: TypeDecl, isInterface: bool, isConstructor: bool, cs: seq<Callable>)
      modifies this
      ensures Appended(CallablesTokens(td, isInterface, isConstructor, cs, CurrentEnv()))
    {
      ghost var e := CurrentEnv();
      Indent();
      if isConstructor {
        var isAllPrivateOrPackagePrivate := AllPrivateOrPackagePrivate(cs);
        if isAllPrivateOrPackagePrivate {
          ghost var t0 := tokens;
          AddToken(Indentation, Tok(Comment, NoPublicConstructorsComment), Newline);
          EmitLine(Tok(Comment, NoPublicConstructorsComment), indent);
          assert tokens == t0 + NoPublicConstructorsLine(Indented(e));
          Unindent();
          assert CurrentEnv() == e;
          return;
        }
      }
      ShownCallables(td, isInterface, isConstructor, cs);
      assert CurrentEnv() == Indented(e);
      Unindent();
      assert CurrentEnv() == e;
    }

    /** The visible callables of the list, sorted and handed to the grouping collector. */
    method ShownCallables(td: TypeDecl, isInterface: bool, isConstructor: bool, cs: seq<Callable>)
      modifies this
      ensures Appended(ShownCallablesTokens(td, isInterface, isConstructor, cs, CurrentEnv()))
    {
      var showGroupings := !isConstructor && IsAnnotationPresent(td.annotations, "ServiceClient");
      var sorted := SortCallables(VisibleCallables(cs, isInterface));
      TokeniseGroups(sorted, showGroupings);
    }

    /** The `forEach` over the groups the collector hands out. */
    method TokeniseGroups(sorted: seq<Callable>, showGroupings: bool)
      modifies this
      ensures Appended(Concat(GroupParts(sorted, showGroupings, CurrentEnv())))
    {
      ghost var e := CurrentEnv();
      var groups := Groups(sorted, showGroupings, CurrentEnv());
      ghost var parts := GroupParts(sorted, showGroupings, e);
      ghost var t0 := tokens;
      var k := 0;
      while k < |groups|
        invariant k <= |groups|
        invariant indent == e.indent && knownTypes == e.knownTypes && typeToPackage == e.typeToPackage
        invariant tokens == t0 + Concat(parts[..k])
      {
        ghost var t := tokens;
        TokeniseGroup(groups[k].0, groups[k].1, showGroupings);
        assert CurrentEnv() == e;
        assert tokens == t + parts[k];
        ConcatLoopStep(t0, t, tokens, parts, k);
        k := k + 1;
      }
      ConcatAll(parts);
    }

    /** One group: its comment line when groupings are shown and it has members, then each callable. */
    method TokeniseGroup(name: string, group: seq<Callable>, showGroupings: bool)
      modifies this
      ensures Appended(GroupTokens(name, group, showGroupings, CurrentEnv()))
    {
      ghost var e := CurrentEnv();
      ghost var t0 := tokens;
      if showGroupings && |group| > 0 {
        AddToken(Indentation, Tok(Comment, "// " + name + ":"), Newline);
        EmitLine(Tok(Comment, "// " + name + ":"), indent);
      }
      ghost var t1 := tokens;
      assert t1 == t0 + GroupCommentTokens(name, group, showGroupings, e);
      TokeniseCallables(group);
      assert CurrentEnv() == e;
      AppendTwo(t0, t1, tokens, GroupCommentTokens(name, group, showGroupings, e), Concat(CallableParts(group, e)));
    }

    /** `group.forEach(...)`: each callable's line in turn. */
    method TokeniseCallables(group: seq<Callable>)
      modifies this
      ensures Appended(Concat(CallableParts(group, CurrentEnv())))
    {
      ghost var e := CurrentEnv();
      ghost var t0 := tokens;
      ghost var parts := CallableParts(group, e);
      var i := 0;
      while i < |group|
        invariant i <= |group|
        invariant indent == e.indent && knownTypes == e.knownTypes && typeToPackage == e.typeToPackage
        invariant tokens == t0 + Concat(parts[..i])
      {
        ghost var t := tokens;
        CallableTurn(group, i);
        assert CurrentEnv() == e;
        ConcatLoopStep(t0, t, tokens, parts, i);
        i := i + 1;
      }
      ConcatAll(parts);
    }

    /** One turn of the callable loop. */
    method CallableTurn(group: seq<Callable>, i: nat)
      requires i < |group|
      modifies this
      ensures Appended(CallableParts(group, CurrentEnv())[i])
    {
      TokeniseCallable(group[i]);
    }

    // ----- type declarations -----

    /** `visitClassOrInterfaceOrEnumDeclaration(typeDeclaration)`. */
    method VisitClassOrInterfaceOrEnumDeclaration(td: TypeDecl)
      modifies this
      ensures Appended(TypeDeclTokens(td, CurrentEnv()))
      decreases td, 3
    {
      ghost var e := CurrentEnv();
      ghost var t0 := tokens;
      VisitRawAnnotations(td);
      ghost var t1 := tokens;
      assert CurrentEnv() == e;
      var isPrivate := GetTypeDeclaration(td);
      if !isPrivate {
        ghost var t2 := tokens;
        assert CurrentEnv() == e;
        TypeBody(td);
        assert CurrentEnv() == e;
        AppendTwo(t1, t2, tokens, TypeHeaderTokens(td, e), TypeBodyTokens(td, e));
      }
      AppendTwo(t0, t1, tokens, RawAnnotationsTokens(td, e),
                if !td.isPublicApi then [] else TypeHeaderTokens(td, e) + TypeBodyTokens(td, e));
    }

    /** The raw annotations of an annotation declaration that is not private or package-private. */
    method VisitRawAnnotations(td: TypeDecl)
      modifies this
      ensures Appended(RawAnnotationsTokens(td, CurrentEnv()))
    {
      if td.kind == AnnotationDecl && !IsPrivateOrPackagePrivate(td.access) {
        RawAnnotations(td.rawAnnotations);
      }
    }

    /** The token-range text of each annotation that has one, on a line of its own. */
    method RawAnnotations(raw: seq<Option<string>>)
      modifies this
      ensures Appended(Concat(RawAnnotationParts(raw, CurrentEnv())))
    {
      ghost var e := CurrentEnv();
      ghost var parts := RawAnnotationParts(raw, e);
      ghost var t0 := tokens;
      var j := 0;
      while j < |raw|
        invariant j <= |raw|
        invariant indent == e.indent && knownTypes == e.knownTypes && typeToPackage == e.typeToPackage
        invariant tokens == t0 + Concat(parts[..j])
      {
        ghost var t := tokens;
        match raw[j] {
          case Some(name) =>
            AddToken(Indentation, Kw(name), Newline);
            EmitLine(Kw(name), indent);
          case None =>
        }
        assert tokens == t + parts[j];
        ConcatLoopStep(t0, t, tokens, parts, j);
        j := j + 1;
      }
      ConcatAll(parts);
    }

    /** The body of a public type: members, nested types and the closing brace at the type's indentation. */
    method TypeBody(td: TypeDecl)
      modifies this
      ensures Appended(TypeBodyTokens(td, CurrentEnv()))
      decreases td, 2
    {
      ghost var e := CurrentEnv();
      ghost var t0 := tokens;
      TypeMembers(td);
      ghost var t1 := tokens;
      assert CurrentEnv() == e;
      TokeniseInnerClasses(td);
      ghost var t2 := tokens;
      assert CurrentEnv() == e;
      CloseTypeBody();
      AppendThree(t0, t1, t2, tokens, TypeMembersTokens(td, e), InnerTypesTokens(td, e),
                  [IndentToken(e.indent), Punct("}"), NewLineToken]);
    }

    /** The closing brace of a type, on a line of its own at the type's indentation. */
    method CloseTypeBody()
      modifies this
      ensures Appended([IndentToken(indent), Punct("}"), NewLineToken])
    {
      var ws := MakeWhitespace();
      Add(ws);
      AddToken(Nothing, Punct("}"), Newline);
      EmitNewlineAfter(Punct("}"), indent);
    }

    /** Enum constants, annotation members, fields, then constructors (or the default one) and methods. */
    method TypeMembers(td: TypeDecl)
      modifies this
      ensures Appended(TypeMembersTokens(td, CurrentEnv()))
    {
      ghost var e := CurrentEnv();
      ghost var t0 := tokens;
      var isInterfaceDeclaration := td.isInterfaceType;
      MemberDeclarations(td, isInterfaceDeclaration);
      ghost var t1 := tokens;
      assert CurrentEnv() == e;
      ConstructorSection(td);
      ghost var t2 := tokens;
      assert CurrentEnv() == e;
      TokeniseConstructorsOrMethods(td, isInterfaceDeclaration, false, td.methods);
      assert CurrentEnv() == e;
      AppendThree(t0, t1, t2, tokens,
                  (if td.kind == EnumDecl then EnumEntriesTokens(td, e) else [])
                  + (if td.kind == AnnotationDecl && !IsPrivateOrPackagePrivate(td.access) then AnnotationMembersTokens(td, e) else [])
                  + FieldsTokens(td, td.isInterfaceType, e),
                  ConstructorSectionTokens(td, e),
                  CallablesTokens(td, td.isInterfaceType, false, td.methods, e));
    }

    /** The enum constants of an enum, the members of an accessible annotation declaration, and the fields. */
    method MemberDeclarations(td: TypeDecl, isInterfaceDeclaration: bool)
      requires isInterfaceDeclaration == td.isInterfaceType
      modifies this
      ensures Appended((if td.kind == EnumDecl then EnumEntriesTokens(td, CurrentEnv()) else [])
                       + (if td.kind == AnnotationDecl && !IsPrivateOrPackagePrivate(td.access) then AnnotationMembersTokens(td, CurrentEnv()) else [])
                       + FieldsTokens(td, td.isInterfaceType, CurrentEnv()))
    {
      ghost var e := CurrentEnv();
      ghost var t0 := tokens;
      if td.kind == EnumDecl {
        GetEnumEntries(td);
      }
      ghost var t1 := tokens;
      assert CurrentEnv() == e;
      if td.kind == AnnotationDecl && !IsPrivateOrPackagePrivate(td.access) {
        TokeniseAnnotationMember(td);
      }
      ghost var t2 := tokens;
      assert CurrentEnv() == e;
      TokeniseFields(isInterfaceDeclaration, td);
      assert CurrentEnv() == e;
      AppendThree(t0, t1, t2, tokens,
                  if td.kind == EnumDecl then EnumEntriesTokens(td, e) else [],
                  if td.kind == AnnotationDecl && !IsPrivateOrPackagePrivate(td.access) then AnnotationMembersTokens(td, e) else [],
                  FieldsTokens(td, td.isInterfaceType, e));
    }

    /** The declared constructors, or a synthesised default one for a class that has none. */
    method ConstructorSection(td: TypeDecl)
      modifies this
      ensures Appended(ConstructorSectionTokens(td, CurrentEnv()))
    {
      if |td.constructors| == 0 {
        if !td.isInterfaceType && td.kind != EnumDecl && td.kind != AnnotationDecl {
          AddDefaultConstructor(td);
        }
      } else {
        TokeniseConstructorsOrMethods(td, td.isInterfaceType, true, td.constructors);
      }
    }

    /** `tokeniseInnerClasses(members)`: each nested enum, class or interface visited one level deeper. */
    method TokeniseInnerClasses(td: TypeDecl)
      modifies this
      ensures Appended(InnerTypesTokens(td, CurrentEnv()))
      decreases td, 1
    {
      ghost var e := CurrentEnv();
      ghost var parts := InnerTypeParts(td, e);
      ghost var t0 := tokens;
      var i := 0;
      while i < |td.members|
        invariant i <= |td.members|
        invariant indent == e.indent && knownTypes == e.knownTypes && typeToPackage == e.typeToPackage
        invariant tokens == t0 + Concat(parts[..i])
      {
        ghost var t := tokens;
        InnerClassTurn(td, i);
        assert CurrentEnv() == e;
        assert tokens == t + parts[i];
        ConcatLoopStep(t0, t, tokens, parts, i);
        i := i + 1;
      }
      ConcatAll(parts);
    }

    /** One turn of the loop over the members: a nested enum, class or interface is visited one level deeper. */
    method InnerClassTurn(td: TypeDecl, i: nat)
      requires i < |td.members|
      modifies this
      ensures Appended(InnerTypeParts(td, CurrentEnv())[i])
      decreases td, 0
    {
      ghost var e := CurrentEnv();
      var member := td.members[i];
      if IsVisitedMember(member) {
        Indent();
        VisitClassOrInterfaceOrEnumDeclaration(member);
        assert CurrentEnv() == Indented(e);
        Unindent();
        assert CurrentEnv() == e;
      }
    }

    // ----- module declarations -----

    /** `visitModuleDeclaration(moduleDeclaration)`: the header line, one line per directive one level deeper, and "}". */
    method VisitModuleDeclaration(m: ModuleDecl)
      modifies this
      ensures Appended(ModuleTokens(m, CurrentEnv()))
    {
      ghost var e := CurrentEnv();
      ghost var t0 := tokens;
      var ws := MakeWhitespace();
      Add(ws);
      AddToken(Nothing, Kw("module"), Space);
      EmitSpaceAfter(Kw("module"), indent);
      ghost var t1 := tokens;
      AddToken(Nothing, Defining(TypeName, m.name, ModuleInfoKey), Space);
      EmitSpaceAfter(Defining(TypeName, m.name, ModuleInfoKey), indent);
      AddToken(Nothing, Punct("{"), Newline);
      EmitNewlineAfter(Punct("{"), indent);
      ghost var t2 := tokens;
      Directives(m);
      ghost var t3 := tokens;
      assert CurrentEnv() == e;
      AddToken(Indentation, Punct("}"), Newline);
      EmitLine(Punct("}"), indent);
      AppendFive(t0, t1, t1 + [Defining(TypeName, m.name, ModuleInfoKey)], t2, t3, tokens,
                 [IndentToken(e.indent), Kw("module"), SpaceToken],
                 [Defining(TypeName, m.name, ModuleInfoKey)],
                 [SpaceToken, Punct("{"), NewLineToken],
                 Concat(DirectiveParts(m, e)),
                 [IndentToken(e.indent), Punct("}"), NewLineToken]);
    }

    /** `getDirectives().forEach(...)`: each directive on its own line, one level deeper. */
    method Directives(m: ModuleDecl)
      modifies this
      ensures Appended(Concat(DirectiveParts(m, CurrentEnv())))
    {
      ghost var e := CurrentEnv();
      ghost var parts := DirectiveParts(m, e);
      ghost var t0 := tokens;
      var i := 0;
      while i < |m.directives|
        invariant i <= |m.directives|
        invariant indent == e.indent && knownTypes == e.knownTypes && typeToPackage == e.typeToPackage
        invariant tokens == t0 + Concat(parts[..i])
      {
        ghost var t := tokens;
        DirectiveTurn(m.directives[i]);
        assert CurrentEnv() == e;
        assert tokens == t + parts[i];
        ConcatLoopStep(t0, t, tokens, parts, i);
        i := i + 1;
      }
      ConcatAll(parts);
    }

    /** The body of the directive loop: indent, the indentation, the directive, unindent. */
    method DirectiveTurn(d: ModuleDirective)
      modifies this
      ensures Appended([IndentToken(old(indent) + 4)] + DirectiveTokens(d, makeId))
    {
      ghost var e := CurrentEnv();
      Indent();
      ghost var t0 := tokens;
      var ws := MakeWhitespace();
      Add(ws);
      ghost var t1 := tokens;
      Directive(d);
      AppendTwo(t0, t1, tokens, [IndentToken(e.indent + 4)], DirectiveTokens(d, e.makeId));
      Unindent();
      assert CurrentEnv() == e;
    }

    /** The tokens of one directive after its indentation, by its kind. */
    method Directive(d: ModuleDirective)
      modifies this
      ensures Appended(DirectiveTokens(d, makeId))
    {
      match d {
        case Requires(isTransitive, name) => RequiresDirective(isTransitive, name);
        case Exports(name, names) => ExportsOrOpensDirective("exports", name, names);
        case Opens(name, names) => ExportsOrOpensDirective("opens", name, names);
        case Uses(name) => UsesDirective(name);
        case Provides(name, with) => ProvidesDirective(name, with);
      }
    }

    /** `requires [transitive] name;`. */
    method RequiresDirective(isTransitive: bool, name: string)
      modifies this
      ensures Appended(DirectiveTokens(Requires(isTransitive, name), makeId))
    {
      ghost var t0 := tokens;
      AddToken(Nothing, Kw("requires"), Space);
      EmitSpaceAfter(Kw("requires"), indent);
      if isTransitive {
        AddToken(Nothing, Kw("transitive"), Space);
        EmitSpaceAfter(Kw("transitive"), indent);
      }
      ghost var t1 := tokens;
      Add(DirectiveNameToken(name, makeId));
      AddToken(Nothing, Punct(";"), Newline);
      EmitNewlineAfter(Punct(";"), indent);
      AppendTwo(t0, t1, tokens,
                [Kw("requires"), SpaceToken] + (if isTransitive then [Kw("transitive"), SpaceToken] else []),
                [DirectiveNameToken(name, makeId)] + [Punct(";"), NewLineToken]);
    }

    /** `exports name [to names];` or `opens name [to names];`. */
    method ExportsOrOpensDirective(keyword: string, name: string, names: seq<string>)
      requires keyword == "exports" || keyword == "opens"
      modifies this
      ensures Appended(DirectiveTokens(if keyword == "exports" then Exports(name, names) else Opens(name, names), makeId))
    {
      ghost var t0 := tokens;
      AddToken(Nothing, Kw(keyword), Space);
      EmitSpaceAfter(Kw(keyword), indent);
      Add(DirectiveNameToken(name, makeId));
      ghost var t1 := tokens;
      ToList(names);
      AddToken(Nothing, Punct(";"), Newline);
      EmitNewlineAfter(Punct(";"), indent);
      AppendTwo(t0, t1, tokens,
                [Kw(keyword), SpaceToken] + [DirectiveNameToken(name, makeId)],
                ToListTokens(names) + [Punct(";"), NewLineToken]);
    }

    /** `uses name;`. */
    method UsesDirective(name: string)
      modifies this
      ensures Appended(DirectiveTokens(Uses(name), makeId))
    {
      AddToken(Nothing, Kw("uses"), Space);
      EmitSpaceAfter(Kw("uses"), indent);
      Add(DirectiveNameToken(name, makeId));
      AddToken(Nothing, Punct(";"), Newline);
      EmitNewlineAfter(Punct(";"), indent);
    }

    /** `provides name with names;`. */
    method ProvidesDirective(name: string, with: seq<string>)
      modifies this
      ensures Appended(DirectiveTokens(Provides(name, with), makeId))
    {
      ghost var t0 := tokens;
      var nameToken := DirectiveNameToken(name, makeId);
      AddToken(Nothing, Kw("provides"), Space);
      EmitSpaceAfter(Kw("provides"), indent);
      ghost var s1 := tokens;
      AddToken(Nothing, nameToken, Space);
      EmitSpaceAfter(nameToken, indent);
      ghost var s2 := tokens;
      AddToken(Nothing, Kw("with"), Space);
      EmitSpaceAfter(Kw("with"), indent);
      ghost var t1 := tokens;
      AppendThree(t0, s1, s2, t1, [Kw("provides"), SpaceToken], [nameToken, SpaceToken], [Kw("with"), SpaceToken]);
      assert [Kw("provides"), SpaceToken] + [nameToken, SpaceToken] + [Kw("with"), SpaceToken]
          == [Kw("provides"), SpaceToken] + [nameToken] + [SpaceToken, Kw("with"), SpaceToken];
      NameList(with);
      ghost var t2 := tokens;
      AddToken(Nothing, Punct(";"), Newline);
      EmitNewlineAfter(Punct(";"), indent);
      AppendThree(t0, t1, t2, tokens,
                  [Kw("provides"), SpaceToken] + [DirectiveNameToken(name, makeId)] + [SpaceToken, Kw("with"), SpaceToken],
                  Join(NameParts(with), CommaSpace),
                  [Punct(";"), NewLineToken]);
    }

    /** " to " and the module names, when there are any. */
    method ToList(names: seq<string>)
      modifies this
      ensures Appended(ToListTokens(names))
    {
      if |names| != 0 {
        ghost var t0 := tokens;
        Add(SpaceToken);
        AddToken(Nothing, Kw("to"), Space);
        EmitSpaceAfter(Kw("to"), indent);
        ghost var t1 := tokens;
        NameList(names);
        AppendTwo(t0, t1, tokens, [SpaceToken, Kw("to"), SpaceToken], Join(NameParts(names), CommaSpace));
      }
    }

    /** The names of a `to` or `with` list with ", " between neighbours. */
    method NameList(names: seq<string>)
      modifies this
      ensures Appended(Join(NameParts(names), CommaSpace))
    {
      ghost var parts := NameParts(names);
      ghost var t0 := tokens;
      var i := 0;
      while i < |names|
        invariant i <= |names|
        invariant indent == old(indent) && knownTypes == old(knownTypes) && typeToPackage == old(typeToPackage)
        invariant tokens == t0 + JoinPrefix(parts, i, CommaSpace)
      {
        ghost var t := tokens;
        Add(Tok(TypeName, names[i]));
        if i < |names| - 1 {
          AddToken(Nothing, Punct(","), Space);
          EmitSpaceAfter(Punct(","), indent);
        }
        assert tokens == t + (parts[i] + (if i < |parts| - 1 then CommaSpace else []));
        JoinLoopTurn(t0, t, tokens, parts, i, CommaSpace);
        i := i + 1;
      }
      JoinPrefixAll(parts, CommaSpace);
    }

    // ----- compilation units and packages -----

    /** `visit(compilationUnit)`: the module declaration when there is one, then each top-level type. */
    method Visit(cu: CompilationUnit)
      modifies this
      ensures Appended(CompilationUnitTokens(cu, CurrentEnv()))
    {
      ghost var e := CurrentEnv();
      ghost var t0 := tokens;
      match cu.moduleDecl {
        case Some(m) => VisitModuleDeclaration(m);
        case None =>
      }
      ghost var t1 := tokens;
      assert CurrentEnv() == e;
      assert t1 == t0 + match cu.moduleDecl case Some(m) => ModuleTokens(m, e) case None => [];
      VisitTypes(cu.types);
      assert CurrentEnv() == e;
      AppendTwo(t0, t1, tokens, match cu.moduleDecl case Some(m) => ModuleTokens(m, e) case None => [],
                Concat(TopLevelParts(cu.types, e)));
    }

    /** The loop over `compilationUnit.getTypes()`. */
    method VisitTypes(types: seq<TypeDecl>)
      modifies this
      ensures Appended(Concat(TopLevelParts(types, CurrentEnv())))
    {
      ghost var e := CurrentEnv();
      ghost var t0 := tokens;
      ghost var parts := TopLevelParts(types, e);
      var i := 0;
      while i < |types|
        invariant i <= |types|
        invariant indent == e.indent && knownTypes == e.knownTypes && typeToPackage == e.typeToPackage
        invariant tokens == t0 + Concat(parts[..i])
      {
        ghost var t := tokens;
        VisitClassOrInterfaceOrEnumDeclaration(types[i]);
        assert CurrentEnv() == e;
        assert tokens == t + parts[i];
        ConcatLoopStep(t0, t, tokens, parts, i);
        i := i + 1;
      }
      ConcatAll(parts);
    }

    /** `processPackage(packageName, scanClasses)`: the package line, its units by primary type name one level deeper, and "}". */
    method ProcessPackage(packageName: string, units: seq<CompilationUnit>)
      modifies this
      ensures Appended(PackageTokens(packageName, units, CurrentEnv()))
    {
      ghost var e := CurrentEnv();
      ghost var t0 := tokens;
      AddToken(Nothing, Kw("package"), Space);
      EmitSpaceAfter(Kw("package"), indent);
      var packageToken := PackageToken(packageName);
      AddToken(Nothing, packageToken, Space);
      EmitSpaceAfter(packageToken, indent);
      AddToken(Nothing, Punct("{"), Newline);
      EmitNewlineAfter(Punct("{"), indent);
      ghost var t1 := tokens;
      assert t1 == t0 + [Kw("package"), SpaceToken, PackageToken(packageName), SpaceToken, Punct("{"), NewLineToken];
      Indent();
      var sorted := SortUnits(units);
      ProcessFiles(sorted);
      assert CurrentEnv() == Indented(e);
      Unindent();
      ghost var t2 := tokens;
      AddToken(Nothing, Punct("}"), Newline);
      EmitNewlineAfter(Punct("}"), indent);
      assert CurrentEnv() == e;
      AppendThree(t0, t1, t2, tokens,
                  [Kw("package"), SpaceToken, PackageToken(packageName), SpaceToken, Punct("{"), NewLineToken],
                  Concat(UnitParts(SortUnits(units), Indented(e))),
                  [Punct("}"), NewLineToken]);
    }

    /** `forEach(this::processSingleFile)`: each unit visited in turn. */
    method ProcessFiles(units: seq<CompilationUnit>)
      modifies this
      ensures Appended(Concat(UnitParts(units, CurrentEnv())))
    {
      ghost var e := CurrentEnv();
      ghost var parts := UnitParts(units, e);
      ghost var t0 := tokens;
      var i := 0;
      while i < |units|
        invariant i <= |units|
        invariant indent == e.indent && knownTypes == e.knownTypes && typeToPackage == e.typeToPackage
        invariant tokens == t0 + Concat(parts[..i])
      {
        ghost var t := tokens;
        Visit(units[i]);
        assert CurrentEnv() == e;
        assert tokens == t + parts[i];
        ConcatLoopStep(t0, t, tokens, parts, i);
        i := i + 1;
      }
      ConcatAll(parts);
    }

    // ----- indexing -----

    /** `buildTypeHierarchyForNavigation(typeDeclaration)`: a public type and its nested types become known, with their packages. */
    method BuildTypeHierarchyForNavigation(td: TypeDecl)
      requires Indexable(td)
      modifies this
      ensures CurrentIndex() == IndexType(td, old(CurrentIndex()))
      ensures tokens == old(tokens) && indent == old(indent)
      decreases td, 1
    {
      if !td.isPublicApi {
        return;
      }
      var typeName := td.name;
      var packageName := PackageOf(td.fqn);
      typeToPackage := typeToPackage[typeName := packageName];
      knownTypes := knownTypes[typeName := td.id];
      ghost var idx := CurrentIndex();
      var i := 0;
      while i < |td.members|
        invariant i <= |td.members|
        invariant CurrentIndex() == IndexMembers(td, i, idx)
        invariant tokens == old(tokens) && indent == old(indent)
      {
        if IsVisitedMember(td.members[i]) {
          BuildTypeHierarchyForNavigation(td.members[i]);
        }
        i := i + 1;
      }
    }

    /** `ScanForClassTypeVisitor.visit(compilationUnit)`: the top-level types, then the qualified imports. */
    method ScanForClassTypes(cu: CompilationUnit)
      requires UnitIndexable(cu)
      modifies this
      ensures CurrentIndex() == IndexUnit(cu, old(CurrentIndex()))
      ensures tokens == old(tokens) && indent == old(indent)
    {
      var i := 0;
      while i < |cu.types|
        invariant i <= |cu.types|
        invariant CurrentIndex() == IndexTypes(cu.types[..i], old(CurrentIndex()))
        invariant tokens == old(tokens) && indent == old(indent)
      {
        BuildTypeHierarchyForNavigation(cu.types[i]);
        assert cu.types[..i + 1][..i] == cu.types[..i];
        i := i + 1;
      }
      assert cu.types[..i] == cu.types;
      ghost var idx := CurrentIndex();
      var j := 0;
      while j < |cu.imports|
        invariant j <= |cu.imports|
        invariant CurrentIndex() == IndexImports(cu.imports[..j], idx)
        invariant tokens == old(tokens) && indent == old(indent)
      {
        match cu.imports[j].qualifier {
          case Some(packageName) =>
            typeToPackage := typeToPackage[cu.imports[j].identifier := packageName];
          case None =>
        }
        assert cu.imports[..j + 1][..j] == cu.imports[..j];
        j := j + 1;
      }
      assert cu.imports[..j] == cu.imports;
    }

    // ----- the driver -----

    /**
     * `analyse(allFiles)`: the filter, then a scan of every kept file that indexes it and keeps the units
     * that are not `package-info.java`, then each package in `TreeMap` key order.
     */
    method Analyse(files: seq<SourceFile>)
      requires FilesIndexable(KeptFiles(files))
      modifies this
      ensures CurrentIndex() == IndexFiles(KeptFiles(files), old(CurrentIndex()))
      ensures tokens == old(tokens) + AnalyseTokens(files, CurrentEnv())
      ensures indent == old(indent)
    {
      var kept := KeptFiles(files);
      var units := ScanFiles(kept);
      ProcessPackages(units);
    }

    /** The `TreeMap` grouping by package name and its `forEach(this::processPackage)`. */
    method ProcessPackages(units: seq<CompilationUnit>)
      modifies this
      ensures Appended(Concat(PackageParts(units, CurrentEnv())))
    {
      ghost var e := CurrentEnv();
      ghost var parts := PackageParts(units, e);
      ghost var t0 := tokens;
      var keys := PackageKeys(units);
      var k := 0;
      while k < |keys|
        invariant k <= |keys|
        invariant indent == e.indent && knownTypes == e.knownTypes && typeToPackage == e.typeToPackage
        invariant tokens == t0 + Concat(parts[..k])
      {
        ghost var t := tokens;
        ProcessPackage(keys[k], UnitsOf(units, keys[k]));
        assert CurrentEnv() == e;
        assert tokens == t + parts[k];
        ConcatLoopStep(t0, t, tokens, parts, k);
        k := k + 1;
      }
      ConcatAll(parts);
    }

    /** `scanForTypes(path)`: a parsed file is indexed; its unit is handed on unless it is `package-info.java`. */
    method ScanForTypes(f: SourceFile) returns (scanned: Option<CompilationUnit>)
      requires f.unit.Some? ==> UnitIndexable(f.unit.value)
      modifies this
      ensures scanned == if f.unit.Some? && !IsPackageInfo(f.path) then Some(f.unit.value) else None
      ensures CurrentIndex() == if f.unit.Some? then IndexUnit(f.unit.value, old(CurrentIndex())) else old(CurrentIndex())
      ensures tokens == old(tokens) && indent == old(indent)
    {
      match f.unit {
        case None =>
          scanned := None;
        case Some(cu) =>
          ScanForClassTypes(cu);
          if IsPackageInfo(f.path) {
            scanned := None;
          } else {
            scanned := Some(cu);
          }
      }
    }

    /** `scanForTypes` over the kept files: each parsed file is indexed, and those not `package-info.java` are kept. */
    method ScanFiles(files: seq<SourceFile>) returns (units: seq<CompilationUnit>)
      requires FilesIndexable(files)
      modifies this
      ensures units == ScannedUnits(files)
      ensures CurrentIndex() == IndexFiles(files, old(CurrentIndex()))
      ensures tokens == old(tokens) && indent == old(indent)
    {
      units := [];
      var i := 0;
      while i < |files|
        invariant i <= |files|
        invariant FilesIndexable(files[..i])
        invariant units == ScannedUnits(files[..i])
        invariant CurrentIndex() == IndexFiles(files[..i], old(CurrentIndex()))
        invariant tokens == old(tokens) && indent == old(indent)
      {
        ghost var idx := CurrentIndex();
        var f := files[i];
        assert files[..i + 1][..i] == files[..i];
        assert files[..i + 1][i] == f;
        var scanned := ScanForTypes(f);
        match scanned {
          case Some(u) => units := units + [u];
          case None =>
        }
        i := i + 1;
      }
      assert files[..i] == files;
    }
  }
}
