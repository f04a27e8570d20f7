/**
 * The token model of the API listing: a token has a kind, a text, an
 * optional definition id (the anchor it opens) and an optional
 * navigate-to id (the anchor it links to). Layout modifiers are the
 * shorthand the emitter uses for a space, a line break or the current
 * indentation around a token.
 */
module Tokens {
  import opened Wrappers

  datatype TokenKind =
    | Keyword | TypeName | MemberName | Text | Punctuation | Whitespace | NewLine | Comment

  datatype Token = Token(kind: TokenKind, text: string, definitionId: Option<string>, navigateToId: Option<string>)

  datatype TokenModifier = Nothing | Space | Newline | Indentation

  /** `new Token(kind, text)`: no definition id, no link. */
  function Tok(kind: TokenKind, text: string): Token {
    Token(kind, text, None, None)
  }

  /** `new Token(kind, text, id)`: a token that opens the anchor `id`. */
  function Defining(kind: TokenKind, text: string, id: string): Token {
    Token(kind, text, Some(id), None)
  }

  function Punct(text: string): Token {
    Tok(Punctuation, text)
  }

  function Kw(text: string): Token {
    Tok(Keyword, text)
  }

  const SpaceToken: Token := Tok(Whitespace, " ")
  const NewLineToken: Token := Tok(NewLine, "")
  /** The separator every comma-separated list uses: "," then one space. */
  const CommaSpace: seq<Token> := [Punct(","), SpaceToken]

  /** The text of `makeWhitespace()`: as many spaces as the indent (none when it is not positive). */
  function Spaces(n: int): (r: string)
    ensures |r| == if n < 0 then 0 else n
    ensures forall i :: 0 <= i < |r| ==> r[i] == ' '
  {
    if n <= 0 then [] else Spaces(n - 1) + [' ']
  }

  function IndentToken(indent: int): Token {
    Tok(Whitespace, Spaces(indent))
  }

  /** What `handleTokenModifier` appends for a modifier at the given indent. */
  function Expand(m: TokenModifier, indent: int): seq<Token> {
    match m
    case Nothing => []
    case Space => [SpaceToken]
    case Newline => [NewLineToken]
    case Indentation => [IndentToken(indent)]
  }

  /** A modifier expands to layout only: blanks or a line break, with no anchor and no link. */
  lemma ExpandLayout(m: TokenModifier, indent: int)
    ensures |Expand(m, indent)| <= 1
    ensures Expand(m, indent) == [] <==> m == Nothing
    ensures forall t :: t in Expand(m, indent) ==> t.definitionId == None && t.navigateToId == None
    ensures forall t :: t in Expand(m, indent) ==>
              || (t.kind == Whitespace && forall i :: 0 <= i < |t.text| ==> t.text[i] == ' ')
              || (t.kind == NewLine && t.text == "")
  {
  }

  /** What `addToken(prefix, token, suffix)` appends. */
  function Emit(prefix: TokenModifier, t: Token, suffix: TokenModifier, indent: int): seq<Token> {
    Expand(prefix, indent) + [t] + Expand(suffix, indent)
  }

  /** The parts one after the other. */
  function Concat(parts: seq<seq<Token>>): seq<Token> {
    if |parts| == 0 then [] else Concat(parts[..|parts| - 1]) + parts[|parts| - 1]
  }

  /** The parts with `sep` between neighbours and nothing after the last. */
  function Join(parts: seq<seq<Token>>, sep: seq<Token>): seq<Token> {
    if |parts| == 0 then []
    else if |parts| == 1 then parts[0]
    else Join(parts[..|parts| - 1], sep) + sep + parts[|parts| - 1]
  }

  /** The parts, each followed by `sep`: what the append-then-retract loops build first. */
  function JoinTrailing(parts: seq<seq<Token>>, sep: seq<Token>): seq<Token> {
    if |parts| == 0 then [] else JoinTrailing(parts[..|parts| - 1], sep) + parts[|parts| - 1] + sep
  }

  /**
   * Retracting the last `|sep|` tokens after a trailing-separator loop removes
   * exactly the separator appended after the last part, leaving the joined list.
   */
  lemma {:induction false} JoinTrailingRetract(parts: seq<seq<Token>>, sep: seq<Token>)
    requires |parts| > 0
    ensures JoinTrailing(parts, sep) == Join(parts, sep) + sep
    ensures JoinTrailing(parts, sep)[..|JoinTrailing(parts, sep)| - |sep|] == Join(parts, sep)
  {
    if |parts| > 1 {
      JoinTrailingRetract(parts[..|parts| - 1], sep);
    }
  }

  /** Number of tokens of the given kind and text. */
  function Count(ts: seq<Token>, kind: TokenKind, text: string): nat {
    if ts == [] then 0
    else (if ts[0].kind == kind && ts[0].text == text then 1 else 0) + Count(ts[1..], kind, text)
  }

  lemma {:induction false} CountAppend(a: seq<Token>, b: seq<Token>, kind: TokenKind, text: string)
    ensures Count(a + b, kind, text) == Count(a, kind, text) + Count(b, kind, text)
  {
    if a != [] {
      assert (a + b)[0] == a[0] && (a + b)[1..] == a[1..] + b;
      CountAppend(a[1..], b, kind, text);
    } else {
      assert a + b == b;
    }
  }

  function CountParts(parts: seq<seq<Token>>, kind: TokenKind, text: string): nat {
    if |parts| == 0 then 0 else CountParts(parts[..|parts| - 1], kind, text) + Count(parts[|parts| - 1], kind, text)
  }

  /** A comma-space join adds exactly one "," between each pair of neighbouring parts. */
  lemma {:induction false} JoinCountsCommas(parts: seq<seq<Token>>)
    requires |parts| > 0
    ensures Count(Join(parts, CommaSpace), Punctuation, ",")
         == CountParts(parts, Punctuation, ",") + |parts| - 1
  {
    if |parts| > 1 {
      var init := parts[..|parts| - 1];
      JoinCountsCommas(init);
      assert Count(CommaSpace, Punctuation, ",") == 1 by {
        assert CommaSpace[1..][1..] == [];
        assert Count(CommaSpace[1..], Punctuation, ",") == 0;
      }
      CountAppend(Join(init, CommaSpace), CommaSpace, Punctuation, ",");
      CountAppend(Join(init, CommaSpace) + CommaSpace, parts[|parts| - 1], Punctuation, ",");
    }
  }

  /** The definition ids the tokens open. */
  function Defs(ts: seq<Token>): set<string> {
    if ts == [] then {}
    else (if ts[0].definitionId.Some? then {ts[0].definitionId.value} else {}) + Defs(ts[1..])
  }

  lemma {:induction false} DefsAppend(a: seq<Token>, b: seq<Token>)
    ensures Defs(a + b) == Defs(a) + Defs(b)
  {
    if a != [] {
      assert (a + b)[0] == a[0] && (a + b)[1..] == a[1..] + b;
      DefsAppend(a[1..], b);
    } else {
      assert a + b == b;
    }
  }

  lemma DefsAppend3(a: seq<Token>, b: seq<Token>, c: seq<Token>)
    ensures Defs(a + b + c) == Defs(a) + Defs(b) + Defs(c)
  {
    DefsAppend(a, b);
    DefsAppend(a + b, c);
  }

  /** None of the tokens opens an anchor. */
  ghost predicate NoDefinitions(ts: seq<Token>) {
    forall i :: 0 <= i < |ts| ==> ts[i].definitionId == None
  }

  lemma {:induction false} NoDefinitionsDefs(ts: seq<Token>)
    requires NoDefinitions(ts)
    ensures Defs(ts) == {}
  {
    if ts != [] {
      NoDefinitionsDefs(ts[1..]);
    }
  }

  /** The link a TYPE_NAME token with this text gets from the known-types map. */
  function LinkFor(text: string, known: map<string, string>): Option<string> {
    if text in known then Some(known[text]) else None
  }

  /** Every TYPE_NAME token links to the known type of its text, and only known texts link. */
  ghost predicate Linked(ts: seq<Token>, known: map<string, string>) {
    forall i :: 0 <= i < |ts| && ts[i].kind == TypeName ==> ts[i].navigateToId == LinkFor(ts[i].text, known)
  }

  lemma CountSingleton(t: Token, kind: TokenKind, text: string)
    ensures Count([t], kind, text) == if t.kind == kind && t.text == text then 1 else 0
  {
    assert [t][1..] == [];
  }

  lemma NoDefinitionsAppend(a: seq<Token>, b: seq<Token>)
    requires NoDefinitions(a) && NoDefinitions(b)
    ensures NoDefinitions(a + b)
  {
  }

  lemma {:induction false} NoDefinitionsConcat(parts: seq<seq<Token>>)
    requires forall i :: 0 <= i < |parts| ==> NoDefinitions(parts[i])
    ensures NoDefinitions(Concat(parts))
  {
    if |parts| > 0 {
      NoDefinitionsConcat(parts[..|parts| - 1]);
      NoDefinitionsAppend(Concat(parts[..|parts| - 1]), parts[|parts| - 1]);
    }
  }

  lemma {:induction false} NoDefinitionsJoin(parts: seq<seq<Token>>, sep: seq<Token>)
    requires forall i :: 0 <= i < |parts| ==> NoDefinitions(parts[i])
    requires NoDefinitions(sep)
    ensures NoDefinitions(Join(parts, sep))
  {
    if |parts| > 1 {
      NoDefinitionsJoin(parts[..|parts| - 1], sep);
      NoDefinitionsAppend(Join(parts[..|parts| - 1], sep), sep);
      NoDefinitionsAppend(Join(parts[..|parts| - 1], sep) + sep, parts[|parts| - 1]);
    }
  }

  /** Counting over the parts one after the other is counting in each part. */
  lemma {:induction false} CountConcat(parts: seq<seq<Token>>, kind: TokenKind, text: string)
    ensures Count(Concat(parts), kind, text) == CountParts(parts, kind, text)
  {
    if |parts| > 0 {
      CountConcat(parts[..|parts| - 1], kind, text);
      CountAppend(Concat(parts[..|parts| - 1]), parts[|parts| - 1], kind, text);
    }
  }

  /** The anchors the parts open, part by part. */
  function DefsParts(parts: seq<seq<Token>>): set<string> {
    if |parts| == 0 then {} else DefsParts(parts[..|parts| - 1]) + Defs(parts[|parts| - 1])
  }

  /** One more part adds its own count. */
  lemma CountPartsStep(parts: seq<seq<Token>>, k: nat, kind: TokenKind, text: string)
    requires 0 < k <= |parts|
    ensures CountParts(parts[..k], kind, text) == CountParts(parts[..k - 1], kind, text) + Count(parts[k - 1], kind, text)
  {
    assert parts[..k][..k - 1] == parts[..k - 1];
  }

  /** One more part adds its own anchors. */
  lemma DefsPartsStep(parts: seq<seq<Token>>, k: nat)
    requires 0 < k <= |parts|
    ensures DefsParts(parts[..k]) == DefsParts(parts[..k - 1]) + Defs(parts[k - 1])
  {
    assert parts[..k][..k - 1] == parts[..k - 1];
  }

  /** Parts that open one anchor each open, together, exactly those anchors. */
  lemma {:induction false} DefsPartsSingletons(parts: seq<seq<Token>>, ids: seq<string>)
    requires |parts| == |ids|
    requires forall i :: 0 <= i < |parts| ==> Defs(parts[i]) == {ids[i]}
    ensures DefsParts(parts) == set id | id in ids
  {
    if |parts| > 0 {
      var n := |parts| - 1;
      DefsPartsSingletons(parts[..n], ids[..n]);
      assert ids == ids[..n] + [ids[n]];
      assert (set id | id in ids) == (set id | id in ids[..n]) + {ids[n]};
    }
  }

  lemma {:induction false} DefsConcat(parts: seq<seq<Token>>)
    ensures Defs(Concat(parts)) == DefsParts(parts)
  {
    if |parts| > 0 {
      DefsConcat(parts[..|parts| - 1]);
      DefsAppend(Concat(parts[..|parts| - 1]), parts[|parts| - 1]);
    }
  }

  /** A separator that opens no anchor adds none to a join. */
  lemma {:induction false} DefsJoin(parts: seq<seq<Token>>, sep: seq<Token>)
    requires NoDefinitions(sep)
    ensures Defs(Join(parts, sep)) == DefsParts(parts)
  {
    if |parts| == 1 {
      assert parts[..0] == [];
    } else if |parts| > 1 {
      var init := parts[..|parts| - 1];
      DefsJoin(init, sep);
      NoDefinitionsDefs(sep);
      DefsAppend3(Join(init, sep), sep, parts[|parts| - 1]);
    }
  }

  lemma {:induction false} CountPartsZero(parts: seq<seq<Token>>, kind: TokenKind, text: string)
    requires forall i :: 0 <= i < |parts| ==> Count(parts[i], kind, text) == 0
    ensures CountParts(parts, kind, text) == 0
  {
    if |parts| > 0 {
      CountPartsZero(parts[..|parts| - 1], kind, text);
    }
  }

  lemma {:induction false} CountAbsent(ts: seq<Token>, kind: TokenKind, text: string)
    requires forall i :: 0 <= i < |ts| ==> !(ts[i].kind == kind && ts[i].text == text)
    ensures Count(ts, kind, text) == 0
  {
    if ts != [] {
      CountAbsent(ts[1..], kind, text);
    }
  }

  lemma DefsSingleton(t: Token)
    ensures Defs([t]) == if t.definitionId.Some? then {t.definitionId.value} else {}
  {
    assert [t][1..] == [];
  }

  /**
   * What an index loop that emits part `j` and then `sep` if `j` is not the
   * last has appended after its first `i` rounds.
   */
  function JoinPrefix(parts: seq<seq<Token>>, i: nat, sep: seq<Token>): seq<Token>
    requires i <= |parts|
  {
    Join(parts[..i], sep) + (if 0 < i < |parts| then sep else [])
  }

  /** One more round of such a loop appends the next part and, unless it is the last, the separator. */
  lemma JoinPrefixStep(parts: seq<seq<Token>>, i: nat, sep: seq<Token>)
    requires i < |parts|
    ensures JoinPrefix(parts, i + 1, sep)
         == JoinPrefix(parts, i, sep) + parts[i] + (if i < |parts| - 1 then sep else [])
  {
    assert parts[..i + 1][..i] == parts[..i];
    if i == 0 {
      assert parts[..1] == [parts[0]];
    }
  }

  /** After the last round the loop has appended the separated list, with no trailing separator. */
  lemma JoinPrefixAll(parts: seq<seq<Token>>, sep: seq<Token>)
    ensures JoinPrefix(parts, |parts|, sep) == Join(parts, sep)
  {
    assert parts[..|parts|] == parts;
  }

  lemma ConcatStep(parts: seq<seq<Token>>, i: nat)
    requires i < |parts|
    ensures Concat(parts[..i + 1]) == Concat(parts[..i]) + parts[i]
  {
    assert parts[..i + 1][..i] == parts[..i];
  }

  lemma ConcatAll(parts: seq<seq<Token>>)
    ensures Concat(parts[..|parts|]) == Concat(parts)
  {
    assert parts[..|parts|] == parts;
  }

  lemma JoinTrailingStep(parts: seq<seq<Token>>, i: nat, sep: seq<Token>)
    requires i < |parts|
    ensures JoinTrailing(parts[..i + 1], sep) == JoinTrailing(parts[..i], sep) + parts[i] + sep
  {
    assert parts[..i + 1][..i] == parts[..i];
  }

  lemma ConcatSix(p: seq<seq<Token>>)
    requires |p| == 6
    ensures Concat(p) == p[0] + p[1] + p[2] + p[3] + p[4] + p[5]
  {
    assert p[..1][..0] == [];
    ConcatStep(p, 1);
    ConcatStep(p, 2);
    ConcatStep(p, 3);
    ConcatStep(p, 4);
    ConcatStep(p, 5);
    ConcatAll(p);
  }

  /** A separator loop's turn: appending part `i`, then the separator unless it is the last, extends the prefix by one part. */
  lemma JoinLoopStep(t0: seq<Token>, t: seq<Token>, t1: seq<Token>, t2: seq<Token>, parts: seq<seq<Token>>, i: nat, sep: seq<Token>)
    requires i < |parts|
    requires t == t0 + JoinPrefix(parts, i, sep)
    requires t1 == t + parts[i]
    requires t2 == t1 + (if i < |parts| - 1 then sep else [])
    ensures t2 == t0 + JoinPrefix(parts, i + 1, sep)
  {
    JoinPrefixStep(parts, i, sep);
  }

  /** A separator loop's turn, done by one call: part `i` and, unless it is the last, the separator. */
  lemma JoinLoopTurn(t0: seq<Token>, t: seq<Token>, t2: seq<Token>, parts: seq<seq<Token>>, i: nat, sep: seq<Token>)
    requires i < |parts|
    requires t == t0 + JoinPrefix(parts, i, sep)
    requires t2 == t + (parts[i] + (if i < |parts| - 1 then sep else []))
    ensures t2 == t0 + JoinPrefix(parts, i + 1, sep)
  {
    JoinPrefixStep(parts, i, sep);
  }

  /** A concatenating loop's turn: appending part `i` extends the prefix by one part. */
  lemma ConcatLoopStep(t0: seq<Token>, t: seq<Token>, t1: seq<Token>, parts: seq<seq<Token>>, i: nat)
    requires i < |parts|
    requires t == t0 + Concat(parts[..i])
    requires t1 == t + parts[i]
    ensures t1 == t0 + Concat(parts[..i + 1])
  {
    ConcatStep(parts, i);
  }

  /** One round of a trailing-separator loop appends the next part and the separator. */
  lemma TrailingLoopStep(t0: seq<Token>, t: seq<Token>, t1: seq<Token>, parts: seq<seq<Token>>, i: nat, sep: seq<Token>)
    requires i < |parts|
    requires t == t0 + JoinTrailing(parts[..i], sep)
    requires t1 == t + (parts[i] + sep)
    ensures t1 == t0 + JoinTrailing(parts[..i + 1], sep)
  {
    JoinTrailingStep(parts, i, sep);
  }

  /** After a trailing-separator loop over at least one part, cutting off the separator leaves the joined parts. */
  lemma TrailingLoopRetract(t0: seq<Token>, t: seq<Token>, parts: seq<seq<Token>>, sep: seq<Token>)
    requires |parts| > 0
    requires t == t0 + JoinTrailing(parts[..|parts|], sep)
    ensures |t| >= |sep|
    ensures t[..|t| - |sep|] == t0 + Join(parts, sep)
  {
    assert parts[..|parts|] == parts;
    JoinTrailingRetract(parts, sep);
  }

  /** Three appends in a row append the three parts one after the other. */
  lemma AppendThree(t0: seq<Token>, t1: seq<Token>, t2: seq<Token>, t3: seq<Token>,
                    a0: seq<Token>, a1: seq<Token>, a2: seq<Token>)
    requires t1 == t0 + a0 && t2 == t1 + a1 && t3 == t2 + a2
    ensures t3 == t0 + (a0 + a1 + a2)
  {
  }

  /** Five appends in a row append the five parts one after the other. */
  lemma AppendFive(t0: seq<Token>, t1: seq<Token>, t2: seq<Token>, t3: seq<Token>, t4: seq<Token>, t5: seq<Token>,
                   a0: seq<Token>, a1: seq<Token>, a2: seq<Token>, a3: seq<Token>, a4: seq<Token>)
    requires t1 == t0 + a0 && t2 == t1 + a1 && t3 == t2 + a2 && t4 == t3 + a3 && t5 == t4 + a4
    ensures t5 == t0 + (a0 + a1 + a2 + a3 + a4)
  {
  }

  /** Dropping a trailing separator's tokens from the end leaves what came before it. */
  lemma RetractSeparator(a: seq<Token>, b: seq<Token>, sep: seq<Token>)
    ensures (a + (b + sep))[..|a| + |b|] == a + b
  {
  }

  /** Four appends in a row append the four parts one after the other. */
  lemma AppendFour(t0: seq<Token>, t1: seq<Token>, t2: seq<Token>, t3: seq<Token>, t4: seq<Token>,
                   a0: seq<Token>, a1: seq<Token>, a2: seq<Token>, a3: seq<Token>)
    requires t1 == t0 + a0 && t2 == t1 + a1 && t3 == t2 + a2 && t4 == t3 + a3
    ensures t4 == t0 + (a0 + a1 + a2 + a3)
  {
  }

  /** Six appends in a row append the six parts one after the other. */
  lemma AppendSix(t0: seq<Token>, t1: seq<Token>, t2: seq<Token>, t3: seq<Token>, t4: seq<Token>, t5: seq<Token>, t6: seq<Token>,
                  a0: seq<Token>, a1: seq<Token>, a2: seq<Token>, a3: seq<Token>, a4: seq<Token>, a5: seq<Token>)
    requires t1 == t0 + a0 && t2 == t1 + a1 && t3 == t2 + a2
    requires t4 == t3 + a3 && t5 == t4 + a4 && t6 == t5 + a5
    ensures t6 == t0 + (a0 + a1 + a2 + a3 + a4 + a5)
  {
  }

  /** `addToken(token, SPACE)`: the token and one blank. */
  lemma EmitSpaceAfter(t: Token, indent: int)
    ensures Emit(Nothing, t, Space, indent) == [t, SpaceToken]
  {
  }

  /** `addToken(SPACE, token, SPACE)`: the token between two blanks. */
  lemma EmitSpaced(t: Token, indent: int)
    ensures Emit(Space, t, Space, indent) == [SpaceToken, t, SpaceToken]
  {
  }

  lemma AppendTwo(t0: seq<Token>, t1: seq<Token>, t2: seq<Token>, a0: seq<Token>, a1: seq<Token>)
    requires t1 == t0 + a0 && t2 == t1 + a1
    ensures t2 == t0 + (a0 + a1)
  {
  }

  /** `addToken(token, NEWLINE)`: the token and a line break. */
  lemma EmitNewlineAfter(t: Token, indent: int)
    ensures Emit(Nothing, t, Newline, indent) == [t, NewLineToken]
  {
  }

  /** `addToken(INDENT, token, NEWLINE)`: the token on a line of its own at the current indentation. */
  lemma EmitLine(t: Token, indent: int)
    ensures Emit(Indentation, t, Newline, indent) == [IndentToken(indent), t, NewLineToken]
  {
  }

  /** `addToken(SPACE, token, NEWLINE)`: a blank, the token and a line break. */
  lemma EmitSpacedLineEnd(t: Token, indent: int)
    ensures Emit(Space, t, Newline, indent) == [SpaceToken, t, NewLineToken]
  {
  }

  /** `addToken(INDENT, token, SPACE)`: the indentation, the token and a blank. */
  lemma EmitIndentedSpace(t: Token, indent: int)
    ensures Emit(Indentation, t, Space, indent) == [IndentToken(indent), t, SpaceToken]
  {
  }
}
