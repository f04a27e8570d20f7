/**
 * The pieces of one declaration's signature, as token sequences: the
 * allow-listed annotations (`getAnnotations`, `processAnnotationValueExpression`),
 * modifiers, type parameters (`getTypeParameters`, `getGenericTypeParameter`),
 * name and parameters (`getDeclarationNameAndParameters`), the throws clause
 * (`getThrowException`) and a whole constructor or method line.
 */
module Signatures {
  import opened Wrappers
  import opened JavaStrings
  import opened Tokens
  import opened JavaAst
  import opened TypePrinter

  /**
   * What the emitter reads besides its input: the current indent, the
   * known-types map, the type-to-package map, the id builder `makeId` and the
   * iteration order of the HashMap that holds the method groups (true when
   * "Service Methods" comes out first), which the code does not fix.
   */
  datatype Env = Env(
    indent: int,
    knownTypes: map<string, string>,
    typeToPackage: map<string, string>,
    makeId: string -> string,
    serviceGroupFirst: bool)

  function Indented(e: Env): Env {
    e.(indent := e.indent + 4)
  }

  /** The annotations shown, in this order whatever their order in the source. */
  const AnnotationAllowList: seq<string> :=
    ["Deprecated", "Override", "ServiceClient", "ServiceClientBuilder", "Fluent", "Immutable"]

  /** `getAnnotationByName(name)`: the first annotation with that name. */
  function FindAnnotation(annotations: seq<Annotation>, name: string): (r: Option<Annotation>)
    ensures r.Some? ==> r.value in annotations && r.value.name == name
    ensures r.None? <==> !IsAnnotationPresent(annotations, name)
  {
    if |annotations| == 0 then None
    else if annotations[0].name == name then Some(annotations[0])
    else
      var r := FindAnnotation(annotations[1..], name);
      assert IsAnnotationPresent(annotations, name) <==> IsAnnotationPresent(annotations[1..], name) by {
        if IsAnnotationPresent(annotations, name) {
          var i :| 0 <= i < |annotations| && annotations[i].name == name;
          assert annotations[1..][i - 1].name == name;
        }
      }
      r
  }

  /** `processAnnotationValueExpression(value)`. */
  function ValueTokens(v: AnnotationValue, known: map<string, string>): seq<Token>
    decreases v, 1
  {
    match v
    case ClassLiteral(typeName, text) =>
      if typeName in known then [Token(TypeName, typeName, None, Some(known[typeName]))] else [Tok(Text, text)]
    case ArrayInitializer(elements, text) =>
      [Punct("{ ")] + Join(ElementParts(v, known), [Punct(", ")]) + [Punct(" }")]
    case OtherValue(text) => [Tok(Text, text)]
  }

  /** The tokens of each element of an array initializer. */
  function ElementParts(v: AnnotationValue, known: map<string, string>): (r: seq<seq<Token>>)
    requires v.ArrayInitializer?
    ensures |r| == |v.elements|
    decreases v, 0
  {
    seq(|v.elements|, i requires 0 <= i < |v.elements| =>
      match v.elements[i]
      case ExpressionElement(e) => ValueTokens(e, known)
      case NonExpressionElement => [Tok(Text, v.text)])
  }

  function PairTokens(p: MemberValuePair, known: map<string, string>): seq<Token> {
    [Tok(Text, p.name), Punct(" = ")] + ValueTokens(p.value, known)
  }

  function PairParts(pairs: seq<MemberValuePair>, known: map<string, string>): (r: seq<seq<Token>>)
    ensures |r| == |pairs|
  {
    seq(|pairs|, i requires 0 <= i < |pairs| => PairTokens(pairs[i], known))
  }

  /** The pairs of a normal annotation: "(" the ", "-separated pairs ")". */
  function PropertiesTokens(pairs: seq<MemberValuePair>, known: map<string, string>): seq<Token> {
    [Punct("(")] + Join(PairParts(pairs, known), [Punct(", ")]) + [Punct(")")]
  }

  /** The consumer in `getAnnotations`, for one annotation. */
  function AnnotationTokens(a: Annotation, showProperties: bool, addNewline: bool, e: Env): seq<Token> {
    (if addNewline then [IndentToken(e.indent)] else [])
    + [Tok(TypeName, "@" + a.name)]
    + (if showProperties && a.pairs.Some? then PropertiesTokens(a.pairs.value, e.knownTypes) else [])
    + (if addNewline then [NewLineToken] else [SpaceToken])
  }

  /** `getAnnotationByName(name).ifPresent(consumer)`. */
  function AnnotationIfPresent(annotations: seq<Annotation>, name: string, showProperties: bool, addNewline: bool, e: Env): seq<Token> {
    match FindAnnotation(annotations, name)
    case Some(a) => AnnotationTokens(a, showProperties, addNewline, e)
    case None => []
  }

  /** The contribution of each allow-listed name, in allow-list order. */
  function AnnotationParts(annotations: seq<Annotation>, showProperties: bool, addNewline: bool, e: Env): (r: seq<seq<Token>>)
    ensures |r| == |AnnotationAllowList|
  {
    seq(|AnnotationAllowList|, i requires 0 <= i < |AnnotationAllowList| =>
      AnnotationIfPresent(annotations, AnnotationAllowList[i], showProperties, addNewline, e))
  }

  /** `getAnnotations(node, showProperties, addNewline)`: the allow-listed annotations, in allow-list order. */
  function AnnotationsTokens(annotations: seq<Annotation>, showProperties: bool, addNewline: bool, e: Env): seq<Token> {
    Concat(AnnotationParts(annotations, showProperties, addNewline, e))
  }

  /** The allow list applied name by name, in the order of the six lookups. */
  lemma AnnotationsInOrder(annotations: seq<Annotation>, showProperties: bool, addNewline: bool, e: Env)
    ensures AnnotationsTokens(annotations, showProperties, addNewline, e)
         == AnnotationIfPresent(annotations, "Deprecated", showProperties, addNewline, e)
          + AnnotationIfPresent(annotations, "Override", showProperties, addNewline, e)
          + AnnotationIfPresent(annotations, "ServiceClient", showProperties, addNewline, e)
          + AnnotationIfPresent(annotations, "ServiceClientBuilder", showProperties, addNewline, e)
          + AnnotationIfPresent(annotations, "Fluent", showProperties, addNewline, e)
          + AnnotationIfPresent(annotations, "Immutable", showProperties, addNewline, e)
  {
    var p := AnnotationParts(annotations, showProperties, addNewline, e);
    var a0 := AnnotationIfPresent(annotations, "Deprecated", showProperties, addNewline, e);
    var a1 := AnnotationIfPresent(annotations, "Override", showProperties, addNewline, e);
    var a2 := AnnotationIfPresent(annotations, "ServiceClient", showProperties, addNewline, e);
    var a3 := AnnotationIfPresent(annotations, "ServiceClientBuilder", showProperties, addNewline, e);
    var a4 := AnnotationIfPresent(annotations, "Fluent", showProperties, addNewline, e);
    var a5 := AnnotationIfPresent(annotations, "Immutable", showProperties, addNewline, e);
    ConcatSix(p);
    assert p[0] == a0 && p[1] == a1 && p[2] == a2 && p[3] == a3 && p[4] == a4 && p[5] == a5;
  }

  /** `getModifiers(modifiers)`: one KEYWORD per modifier, in source order. */
  function ModifiersTokens(modifiers: seq<string>): (r: seq<Token>)
    ensures |r| == |modifiers|
  {
    seq(|modifiers|, i requires 0 <= i < |modifiers| => Kw(modifiers[i]))
  }

  /** `getGenericTypeParameter(typeParameter)`. */
  function TypeParameterTokens(tp: TypeParameter, known: map<string, string>): seq<Token> {
    [TypeNameToken(tp.name, known)]
    + (if |tp.bounds| == 0 then []
       else [SpaceToken, Kw("extends"), SpaceToken] + Concat(TypeNodeParts(tp.bounds, known)))
  }

  function TypeParameterParts(tps: seq<TypeParameter>, known: map<string, string>): (r: seq<seq<Token>>)
    ensures |r| == |tps|
  {
    seq(|tps|, i requires 0 <= i < |tps| => TypeParameterTokens(tps[i], known))
  }

  /** `getTypeParameters(typeParameters)`: nothing for none, else "<" the comma-separated list ">". */
  function TypeParametersTokens(tps: seq<TypeParameter>, known: map<string, string>): seq<Token> {
    if |tps| == 0 then []
    else [Punct("<")] + Join(TypeParameterParts(tps, known), CommaSpace) + [Punct(">")]
  }

  /** One parameter: its type, "..." for varargs, a space and its name. */
  function ParameterTokens(p: Parameter, known: map<string, string>): seq<Token> {
    ClassTypeTokens(p.paramType, known)
    + (if p.isVarArgs then [Punct("...")] else [])
    + [SpaceToken, Tok(Text, p.name)]
  }

  function ParameterParts(ps: seq<Parameter>, known: map<string, string>): (r: seq<seq<Token>>)
    ensures |r| == |ps|
  {
    seq(|ps|, i requires 0 <= i < |ps| => ParameterTokens(ps[i], known))
  }

  /** `getDeclarationNameAndParameters`: the member name opening the callable's id, then "(" parameters ") ". */
  function NameAndParametersTokens(c: Callable, known: map<string, string>): seq<Token> {
    [Defining(MemberName, c.name, c.id), Punct("(")]
    + Join(ParameterParts(c.parameters, known), CommaSpace)
    + [Punct(")"), SpaceToken]
  }

  /** A thrown type, linked to `makeId(package + "." + name)` when its package is known. */
  function ThrownTypeToken(name: string, typeToPackage: map<string, string>, makeId: string -> string): Token {
    Token(TypeName, name, None,
          if name in typeToPackage then Some(makeId(typeToPackage[name] + "." + name)) else None)
  }

  function ThrownParts(thrown: seq<string>, typeToPackage: map<string, string>, makeId: string -> string): (r: seq<seq<Token>>)
    ensures |r| == |thrown|
  {
    seq(|thrown|, i requires 0 <= i < |thrown| => [ThrownTypeToken(thrown[i], typeToPackage, makeId)])
  }

  /** `getThrowException`: nothing when nothing is thrown, else "throws " the comma-separated types and a space. */
  function ThrowsTokens(thrown: seq<string>, typeToPackage: map<string, string>, makeId: string -> string): seq<Token> {
    if |thrown| == 0 then []
    else [Kw("throws"), SpaceToken] + Join(ThrownParts(thrown, typeToPackage, makeId), CommaSpace) + [SpaceToken]
  }

  /** The return type and its trailing space, for a method; nothing for a constructor. */
  function ReturnTypeTokens(c: Callable, known: map<string, string>): seq<Token> {
    match c.kind
    case Method(returnType) => ClassTypeTokens(returnType, known) + [SpaceToken]
    case Constructor => []
  }

  /** One constructor or method line, as the group loop of `tokeniseConstructorsOrMethods` emits it. */
  function CallableTokens(c: Callable, e: Env): seq<Token> {
    [IndentToken(e.indent)]
    + AnnotationsTokens(c.annotations, false, false, e)
    + ModifiersTokens(c.modifiers)
    + TypeParametersTokens(c.typeParameters, e.knownTypes)
    + (if |c.typeParameters| > 0 then [SpaceToken] else [])
    + ReturnTypeTokens(c, e.knownTypes)
    + NameAndParametersTokens(c, e.knownTypes)
    + ThrowsTokens(c.thrown, e.typeToPackage, e.makeId)
    + [NewLineToken]
  }

  /** Annotation values open no anchors. */
  lemma {:induction false} ValueNoDefinitions(v: AnnotationValue, known: map<string, string>)
    ensures NoDefinitions(ValueTokens(v, known))
    decreases v, 1
  {
    if v.ArrayInitializer? {
      ElementsNoDefinitions(v, known);
      NoDefinitionsJoin(ElementParts(v, known), [Punct(", ")]);
    }
  }

  lemma {:induction false} ElementsNoDefinitions(v: AnnotationValue, known: map<string, string>)
    requires v.ArrayInitializer?
    ensures forall i :: 0 <= i < |v.elements| ==> NoDefinitions(ElementParts(v, known)[i])
    decreases v, 0
  {
    forall i | 0 <= i < |v.elements|
      ensures NoDefinitions(ElementParts(v, known)[i])
    {
      if v.elements[i].ExpressionElement? {
        ValueNoDefinitions(v.elements[i].value, known);
      }
    }
  }

  lemma AnnotationNoDefinitions(a: Annotation, showProperties: bool, addNewline: bool, e: Env)
    ensures NoDefinitions(AnnotationTokens(a, showProperties, addNewline, e))
  {
    if showProperties && a.pairs.Some? {
      var parts := PairParts(a.pairs.value, e.knownTypes);
      forall i | 0 <= i < |parts| ensures NoDefinitions(parts[i]) {
        ValueNoDefinitions(a.pairs.value[i].value, e.knownTypes);
      }
      NoDefinitionsJoin(parts, [Punct(", ")]);
    }
  }

  /** Annotations open no anchors, whatever their values. */
  lemma AnnotationsNoDefinitions(annotations: seq<Annotation>, showProperties: bool, addNewline: bool, e: Env)
    ensures NoDefinitions(AnnotationsTokens(annotations, showProperties, addNewline, e))
  {
    var parts := AnnotationParts(annotations, showProperties, addNewline, e);
    forall i | 0 <= i < |parts| ensures NoDefinitions(parts[i]) {
      var f := FindAnnotation(annotations, AnnotationAllowList[i]);
      if f.Some? {
        AnnotationNoDefinitions(f.value, showProperties, addNewline, e);
      }
    }
    NoDefinitionsConcat(parts);
  }

  lemma AllowListDistinct()
    ensures forall i, j :: 0 <= i < j < |AnnotationAllowList| ==> AnnotationAllowList[i] != AnnotationAllowList[j]
  {
  }

  lemma PrefixedNameInjective(a: string, b: string)
    ensures "@" + a == "@" + b <==> a == b
  {
    if "@" + a == "@" + b {
      assert ("@" + a)[1..] == a && ("@" + b)[1..] == b;
    }
  }

  /** Without properties, an annotation contributes exactly one TYPE_NAME "@name" for each name it carries. */
  lemma AnnotationIfPresentCount(annotations: seq<Annotation>, name: string, addNewline: bool, e: Env, n: string)
    ensures Count(AnnotationIfPresent(annotations, name, false, addNewline, e), TypeName, "@" + n)
         == if name == n && IsAnnotationPresent(annotations, name) then 1 else 0
  {
    var f := FindAnnotation(annotations, name);
    PrefixedNameInjective(name, n);
    if f.Some? {
      var a := f.value;
      var pre: seq<Token> := if addNewline then [IndentToken(e.indent)] else [];
      var post: seq<Token> := if addNewline then [NewLineToken] else [SpaceToken];
      assert AnnotationTokens(a, false, addNewline, e) == pre + [Tok(TypeName, "@" + a.name)] + [] + post;
      CountAppend(pre, [Tok(TypeName, "@" + a.name)], TypeName, "@" + n);
      CountAppend(pre + [Tok(TypeName, "@" + a.name)], [], TypeName, "@" + n);
      CountAppend(pre + [Tok(TypeName, "@" + a.name)] + [], post, TypeName, "@" + n);
      CountSingleton(Tok(TypeName, "@" + a.name), TypeName, "@" + n);
      if addNewline {
        CountSingleton(IndentToken(e.indent), TypeName, "@" + n);
        CountSingleton(NewLineToken, TypeName, "@" + n);
      } else {
        CountSingleton(SpaceToken, TypeName, "@" + n);
      }
    }
  }

  lemma {:induction false} AnnotationPrefixCount(annotations: seq<Annotation>, addNewline: bool, e: Env, n: string, k: nat)
    requires k <= |AnnotationAllowList|
    ensures CountParts(AnnotationParts(annotations, false, addNewline, e)[..k], TypeName, "@" + n)
         == if n in AnnotationAllowList[..k] && IsAnnotationPresent(annotations, n) then 1 else 0
  {
    var parts := AnnotationParts(annotations, false, addNewline, e);
    if k > 0 {
      AnnotationPrefixCount(annotations, addNewline, e, n, k - 1);
      CountPartsStep(parts, k, TypeName, "@" + n);
      AnnotationIfPresentCount(annotations, AnnotationAllowList[k - 1], addNewline, e, n);
      AllowListDistinct();
      assert AnnotationAllowList[..k] == AnnotationAllowList[..k - 1] + [AnnotationAllowList[k - 1]];
    }
  }

  /**
   * On a member line (no properties), exactly the allow-listed annotations the
   * declaration carries are shown, each once as TYPE_NAME "@name"; any other
   * annotation is dropped.
   */
  lemma AnnotationsShown(annotations: seq<Annotation>, addNewline: bool, e: Env, n: string)
    ensures Count(AnnotationsTokens(annotations, false, addNewline, e), TypeName, "@" + n)
         == if n in AnnotationAllowList && IsAnnotationPresent(annotations, n) then 1 else 0
  {
    var parts := AnnotationParts(annotations, false, addNewline, e);
    CountConcat(parts, TypeName, "@" + n);
    AnnotationPrefixCount(annotations, addNewline, e, n, |parts|);
    assert parts[..|parts|] == parts;
    assert AnnotationAllowList[..|parts|] == AnnotationAllowList;
  }

  lemma TypeParametersNoDefinitions(tps: seq<TypeParameter>, known: map<string, string>)
    ensures NoDefinitions(TypeParametersTokens(tps, known))
  {
    var parts := TypeParameterParts(tps, known);
    forall i | 0 <= i < |parts| ensures NoDefinitions(parts[i]) {
      var bounds := TypeNodeParts(tps[i].bounds, known);
      forall j | 0 <= j < |bounds| ensures NoDefinitions(bounds[j]) {
        DfsLinked(tps[i].bounds[j], known);
      }
      NoDefinitionsConcat(bounds);
    }
    NoDefinitionsJoin(parts, CommaSpace);
  }

  lemma ParametersNoDefinitions(ps: seq<Parameter>, known: map<string, string>)
    ensures NoDefinitions(Join(ParameterParts(ps, known), CommaSpace))
  {
    var parts := ParameterParts(ps, known);
    forall i | 0 <= i < |parts| ensures NoDefinitions(parts[i]) {
      ClassTypeNoDefinitions(ps[i].paramType, known);
    }
    NoDefinitionsJoin(parts, CommaSpace);
  }

  lemma ThrowsNoDefinitions(thrown: seq<string>, typeToPackage: map<string, string>, makeId: string -> string)
    ensures NoDefinitions(ThrowsTokens(thrown, typeToPackage, makeId))
  {
    NoDefinitionsJoin(ThrownParts(thrown, typeToPackage, makeId), CommaSpace);
  }

  /** What comes before a callable's name. */
  function CallableHead(c: Callable, e: Env): seq<Token> {
    [IndentToken(e.indent)]
    + AnnotationsTokens(c.annotations, false, false, e)
    + ModifiersTokens(c.modifiers)
    + TypeParametersTokens(c.typeParameters, e.knownTypes)
    + (if |c.typeParameters| > 0 then [SpaceToken] else [])
    + ReturnTypeTokens(c, e.knownTypes)
  }

  /** What comes after a callable's "(". */
  function CallableTail(c: Callable, e: Env): seq<Token> {
    Join(ParameterParts(c.parameters, e.knownTypes), CommaSpace)
    + [Punct(")"), SpaceToken]
    + ThrowsTokens(c.thrown, e.typeToPackage, e.makeId)
    + [NewLineToken]
  }

  /** A callable line is its head, its name and parameters, its throws clause and the line break. */
  lemma CallableLine(c: Callable, e: Env)
    ensures CallableTokens(c, e)
         == CallableHead(c, e) + NameAndParametersTokens(c, e.knownTypes)
          + ThrowsTokens(c.thrown, e.typeToPackage, e.makeId) + [NewLineToken]
  {
  }

  lemma CallableSplit(c: Callable, e: Env)
    ensures CallableTokens(c, e) == CallableHead(c, e) + [Defining(MemberName, c.name, c.id), Punct("(")] + CallableTail(c, e)
  {
  }

  lemma CallableHeadNoDefinitions(c: Callable, e: Env)
    ensures NoDefinitions(CallableHead(c, e))
  {
    AnnotationsNoDefinitions(c.annotations, false, false, e);
    TypeParametersNoDefinitions(c.typeParameters, e.knownTypes);
    if c.kind.Method? {
      ClassTypeNoDefinitions(c.kind.returnType, e.knownTypes);
    }
    var a := [IndentToken(e.indent)] + AnnotationsTokens(c.annotations, false, false, e);
    NoDefinitionsAppend([IndentToken(e.indent)], AnnotationsTokens(c.annotations, false, false, e));
    NoDefinitionsAppend(a, ModifiersTokens(c.modifiers));
    var b := a + ModifiersTokens(c.modifiers);
    NoDefinitionsAppend(b, TypeParametersTokens(c.typeParameters, e.knownTypes));
    var d := b + TypeParametersTokens(c.typeParameters, e.knownTypes);
    NoDefinitionsAppend(d, if |c.typeParameters| > 0 then [SpaceToken] else []);
    NoDefinitionsAppend(d + (if |c.typeParameters| > 0 then [SpaceToken] else []), ReturnTypeTokens(c, e.knownTypes));
  }

  lemma CallableTailNoDefinitions(c: Callable, e: Env)
    ensures NoDefinitions(CallableTail(c, e))
  {
    var params := Join(ParameterParts(c.parameters, e.knownTypes), CommaSpace);
    ParametersNoDefinitions(c.parameters, e.knownTypes);
    ThrowsNoDefinitions(c.thrown, e.typeToPackage, e.makeId);
    NoDefinitionsAppend(params, [Punct(")"), SpaceToken]);
    NoDefinitionsAppend(params + [Punct(")"), SpaceToken], ThrowsTokens(c.thrown, e.typeToPackage, e.makeId));
    NoDefinitionsAppend(params + [Punct(")"), SpaceToken] + ThrowsTokens(c.thrown, e.typeToPackage, e.makeId), [NewLineToken]);
  }

  /** A constructor or method line opens exactly one anchor: the callable's own id, on its name. */
  lemma CallableDefs(c: Callable, e: Env)
    ensures Defs(CallableTokens(c, e)) == {c.id}
  {
    CallableSplit(c, e);
    CallableHeadNoDefinitions(c, e);
    CallableTailNoDefinitions(c, e);
    NoDefinitionsDefs(CallableHead(c, e));
    NoDefinitionsDefs(CallableTail(c, e));
    DefsAppend3(CallableHead(c, e), [Defining(MemberName, c.name, c.id), Punct("(")], CallableTail(c, e));
    assert Defs([Defining(MemberName, c.name, c.id), Punct("(")]) == {c.id} by {
      assert [Defining(MemberName, c.name, c.id), Punct("(")][1..] == [Punct("(")];
      assert [Punct("(")][1..] == [];
    }
  }
}
