/**
 * The type printer: `getClassType` and the depth-first walk `getTypeDFS`
 * over a class-or-interface type's child nodes, as token sequences.
 */
module TypePrinter {
  import opened Wrappers
  import opened Tokens
  import opened JavaAst

  /** A TYPE_NAME token for `text`, linked when `text` is a known type. */
  function TypeNameToken(text: string, known: map<string, string>): (t: Token)
    ensures t.kind == TypeName && t.text == text && t.definitionId == None
    ensures t.navigateToId.Some? <==> text in known
    ensures text in known ==> t.navigateToId == Some(known[text])
  {
    Token(TypeName, text, None, LinkFor(text, known))
  }

  /** The separator after child 0: "<" when the node has type arguments, else "." (a qualified name). */
  function OpeningPunct(n: TypeNode): Token {
    Punct(if n.hasTypeArguments then "<" else ".")
  }

  /** What follows child `i`: nothing after child 0, ">" (with type arguments) after the last, else ", ". */
  function ClosingAfter(n: TypeNode, i: nat): seq<Token> {
    if i == 0 then []
    else if i == |n.children| - 1 then (if n.hasTypeArguments then [Punct(">")] else [])
    else CommaSpace
  }

  /** `getTypeDFS(node)`. */
  function DfsTokens(n: TypeNode, known: map<string, string>): seq<Token>
    decreases n, 1
  {
    if |n.children| <= 1 then [TypeNameToken(n.text, known)]
    else DfsChildren(n, |n.children|, known)
  }

  /** The tokens `getTypeDFS` emits for the first `k` children of a node with two or more children. */
  function DfsChildren(n: TypeNode, k: nat, known: map<string, string>): seq<Token>
    requires 2 <= |n.children| && k <= |n.children|
    decreases n, 0, k
  {
    if k == 0 then []
    else
      var i := k - 1;
      DfsChildren(n, i, known)
      + (if i == 1 then [OpeningPunct(n)] else [])
      + DfsTokens(n.children[i], known)
      + ClosingAfter(n, i)
  }

  /** The tokens around and of child `i`: one turn of the loop over the children. */
  function ChildTokens(n: TypeNode, i: nat, known: map<string, string>): seq<Token>
    requires i < |n.children|
  {
    (if i == 1 then [OpeningPunct(n)] else []) + DfsTokens(n.children[i], known) + ClosingAfter(n, i)
  }

  lemma DfsChildrenStep(n: TypeNode, i: nat, known: map<string, string>)
    requires 2 <= |n.children| && i < |n.children|
    ensures DfsChildren(n, i + 1, known) == DfsChildren(n, i, known) + ChildTokens(n, i, known)
  {
    var a, b := DfsChildren(n, i, known), if i == 1 then [OpeningPunct(n)] else [];
    var c, d := DfsTokens(n.children[i], known), ClosingAfter(n, i);
    assert DfsChildren(n, i + 1, known) == a + b + c + d;
    assert a + b + c + d == a + (b + c + d);
  }

  /** Each node of a list printed by `getTypeDFS`: bounds, extended and implemented types. */
  function TypeNodeParts(types: seq<TypeNode>, known: map<string, string>): (r: seq<seq<Token>>)
    ensures |r| == |types|
  {
    seq(|types|, i requires 0 <= i < |types| => DfsTokens(types[i], known))
  }

  /** `getClassType(type)`: wildcard, union, intersection and other types emit nothing. */
  function ClassTypeTokens(t: JavaType, known: map<string, string>): seq<Token> {
    match t
    case PrimitiveType(name) => [Tok(TypeName, name)]
    case VoidType => [Tok(TypeName, "void")]
    case ArrayType(component) => ClassTypeTokens(component, known) + [Punct("[]")]
    case ClassOrInterfaceType(node) => DfsTokens(node, known)
    case WildcardType(_) => []
    case UnionType(_) => []
    case IntersectionType(_) => []
    case OtherType(_) => []
  }

  /** The opening "<" and the closing ">" come in pairs. */
  ghost predicate AngleBalanced(ts: seq<Token>) {
    Count(ts, Punctuation, "<") == Count(ts, Punctuation, ">")
  }

  /** The printed type opens no anchor and links every TYPE_NAME exactly when its text is a known type. */
  lemma {:induction false} DfsLinked(n: TypeNode, known: map<string, string>)
    ensures NoDefinitions(DfsTokens(n, known))
    ensures Linked(DfsTokens(n, known), known)
    decreases n, 1
  {
    if |n.children| > 1 {
      DfsChildrenLinked(n, |n.children|, known);
    }
  }

  lemma {:induction false} DfsChildrenLinked(n: TypeNode, k: nat, known: map<string, string>)
    requires 2 <= |n.children| && k <= |n.children|
    ensures NoDefinitions(DfsChildren(n, k, known))
    ensures Linked(DfsChildren(n, k, known), known)
    decreases n, 0, k
  {
    if k > 0 {
      var i := k - 1;
      DfsChildrenLinked(n, i, known);
      ChildLinked(n, i, known);
      DfsChildrenStep(n, i, known);
      NoDefinitionsAppend(DfsChildren(n, i, known), ChildTokens(n, i, known));
      LinkedAppend(DfsChildren(n, i, known), ChildTokens(n, i, known), known);
    }
  }

  /** Child `i` with the punctuation around it opens no anchor and links its type names. */
  lemma {:induction false} ChildLinked(n: TypeNode, i: nat, known: map<string, string>)
    requires 2 <= |n.children| && i < |n.children|
    ensures NoDefinitions(ChildTokens(n, i, known)) && Linked(ChildTokens(n, i, known), known)
    decreases n, 0, 0
  {
    DfsLinked(n.children[i], known);
    SeparatorsPlain(n, i, known);
    var b, c, d := if i == 1 then [OpeningPunct(n)] else [], DfsTokens(n.children[i], known), ClosingAfter(n, i);
    NoDefinitionsAppend(b, c);
    NoDefinitionsAppend(b + c, d);
    LinkedAppend(b, c, known);
    LinkedAppend(b + c, d, known);
  }

  /** The punctuation around a child opens no anchor and holds no TYPE_NAME. */
  lemma SeparatorsPlain(n: TypeNode, i: nat, known: map<string, string>)
    requires i < |n.children|
    ensures NoDefinitions(if i == 1 then [OpeningPunct(n)] else []) && Linked(if i == 1 then [OpeningPunct(n)] else [], known)
    ensures NoDefinitions(ClosingAfter(n, i)) && Linked(ClosingAfter(n, i), known)
  {
  }

  lemma LinkedAppend(a: seq<Token>, b: seq<Token>, known: map<string, string>)
    requires Linked(a, known) && Linked(b, known)
    ensures Linked(a + b, known)
  {
    forall i | 0 <= i < |a + b| && (a + b)[i].kind == TypeName
      ensures (a + b)[i].navigateToId == LinkFor((a + b)[i].text, known)
    {
      if i >= |a| {
        assert (a + b)[i] == b[i - |a|];
      }
    }
  }

  lemma Count4(a: seq<Token>, b: seq<Token>, c: seq<Token>, d: seq<Token>, kind: TokenKind, x: string)
    ensures Count(a + b + c + d, kind, x) == Count(a, kind, x) + Count(b, kind, x) + Count(c, kind, x) + Count(d, kind, x)
  {
    CountAppend(a, b, kind, x);
    CountAppend(a + b, c, kind, x);
    CountAppend(a + b + c, d, kind, x);
  }

  /** Every "<" the walk emits is matched by a ">". */
  lemma {:induction false} DfsAngleBalanced(n: TypeNode, known: map<string, string>)
    ensures AngleBalanced(DfsTokens(n, known))
    decreases n, 1
  {
    if |n.children| <= 1 {
      var t := TypeNameToken(n.text, known);
      CountSingleton(t, Punctuation, "<");
      CountSingleton(t, Punctuation, ">");
    } else {
      DfsChildrenAngles(n, |n.children|, known);
    }
  }

  /** The separators around child `i` hold one "<" (after child 0 with type arguments) and one ">" (after the last). */
  lemma SeparatorAngles(n: TypeNode, i: nat)
    requires 2 <= |n.children| && i < |n.children|
    ensures Count(if i == 1 then [OpeningPunct(n)] else [], Punctuation, "<") == if i == 1 && n.hasTypeArguments then 1 else 0
    ensures Count(if i == 1 then [OpeningPunct(n)] else [], Punctuation, ">") == 0
    ensures Count(ClosingAfter(n, i), Punctuation, "<") == 0
    ensures Count(ClosingAfter(n, i), Punctuation, ">") == if i == |n.children| - 1 && n.hasTypeArguments then 1 else 0
  {
    CountSingleton(OpeningPunct(n), Punctuation, "<");
    CountSingleton(OpeningPunct(n), Punctuation, ">");
    CountSingleton(Punct(">"), Punctuation, "<");
    CountSingleton(Punct(">"), Punctuation, ">");
    assert CommaSpace[1..][1..] == [];
    assert Count(CommaSpace[1..], Punctuation, "<") == 0 && Count(CommaSpace[1..], Punctuation, ">") == 0;
  }

  /** After `k` children, "<" leads ">" by one exactly while the type-argument list is open. */
  lemma {:induction false} DfsChildrenAngles(n: TypeNode, k: nat, known: map<string, string>)
    requires 2 <= |n.children| && k <= |n.children|
    ensures Count(DfsChildren(n, k, known), Punctuation, "<")
         == Count(DfsChildren(n, k, known), Punctuation, ">")
            + (if n.hasTypeArguments && 2 <= k < |n.children| then 1 else 0)
    decreases n, 0, k
  {
    if k > 0 {
      var i := k - 1;
      var prefix := DfsChildren(n, i, known);
      var open: seq<Token> := if i == 1 then [OpeningPunct(n)] else [];
      var child := DfsTokens(n.children[i], known);
      var close := ClosingAfter(n, i);
      assert DfsChildren(n, k, known) == prefix + open + child + close;
      DfsChildrenAngles(n, i, known);
      DfsAngleBalanced(n.children[i], known);
      Count4(prefix, open, child, close, Punctuation, "<");
      Count4(prefix, open, child, close, Punctuation, ">");
      SeparatorAngles(n, i);
    }
  }

  /** A printed type opens no anchor. */
  lemma {:induction false} ClassTypeNoDefinitions(t: JavaType, known: map<string, string>)
    ensures NoDefinitions(ClassTypeTokens(t, known))
  {
    match t
    case ArrayType(component) => ClassTypeNoDefinitions(component, known);
    case ClassOrInterfaceType(node) => DfsLinked(node, known);
    case _ =>
  }
}
