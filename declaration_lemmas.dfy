/**
 * Properties of the declaration walker: enum constant separators and ids,
 * which fields and callables are shown, the synthesised constructor, the
 * method groups, and the anchors of a module declaration.
 */
module DeclarationLemmas {
  import opened Wrappers
  import opened JavaStrings
  import opened Tokens
  import opened JavaAst
  import opened TypePrinter
  import opened Signatures
  import opened Sorting
  import opened MethodOrder
  import opened Declarations

  // ----- enum constants -----

  lemma ArgumentsPlain(args: seq<string>, x: string)
    requires x == ";" || x == ","
    ensures Count(ArgumentsTokens(args), Punctuation, x) == 0
    ensures NoDefinitions(ArgumentsTokens(args))
  {
    var parts := seq(|args|, j requires 0 <= j < |args| => [Punct("("), Tok(Text, args[j]), Punct(")")]);
    forall j | 0 <= j < |parts| ensures Count(parts[j], Punctuation, x) == 0 {
      CountAbsent(parts[j], Punctuation, x);
    }
    CountConcat(parts, Punctuation, x);
    CountPartsZero(parts, Punctuation, x);
    NoDefinitionsConcat(parts);
  }

  lemma EnumEntryCount(td: TypeDecl, i: nat, e: Env, x: string)
    requires i < |td.entries|
    requires x == ";" || x == ","
    ensures Count(EnumEntryTokens(td, i, e), Punctuation, x)
         == if (x == ";") == (i == |td.entries| - 1) then 1 else 0
  {
    var head := [IndentToken(e.indent), Defining(MemberName, td.entries[i].name, EnumConstantId(td, i, e))];
    var args := ArgumentsTokens(td.entries[i].arguments);
    var sep := if i < |td.entries| - 1 then "," else ";";
    var tail := [Punct(sep), NewLineToken];
    assert EnumEntryTokens(td, i, e) == head + args + tail;
    ArgumentsPlain(td.entries[i].arguments, x);
    CountAbsent(head, Punctuation, x);
    assert Count(tail, Punctuation, x) == if sep == x then 1 else 0 by {
      assert tail == [Punct(sep)] + [NewLineToken];
      CountAppend([Punct(sep)], [NewLineToken], Punctuation, x);
      CountSingleton(Punct(sep), Punctuation, x);
      CountSingleton(NewLineToken, Punctuation, x);
    }
    CountAppend(head, args, Punctuation, x);
    CountAppend(head + args, tail, Punctuation, x);
  }

  lemma EnumEntryDefs(td: TypeDecl, i: nat, e: Env)
    requires i < |td.entries|
    ensures Defs(EnumEntryTokens(td, i, e)) == {EnumConstantId(td, i, e)}
  {
    var name := Defining(MemberName, td.entries[i].name, EnumConstantId(td, i, e));
    var args := ArgumentsTokens(td.entries[i].arguments);
    var sep := if i < |td.entries| - 1 then "," else ";";
    assert EnumEntryTokens(td, i, e) == [IndentToken(e.indent)] + [name] + (args + [Punct(sep), NewLineToken]);
    ArgumentsPlain(td.entries[i].arguments, ";");
    assert NoDefinitions([Punct(sep), NewLineToken]);
    NoDefinitionsAppend(args, [Punct(sep), NewLineToken]);
    DefsAround([IndentToken(e.indent)], name, args + [Punct(sep), NewLineToken]);
  }

  lemma {:induction false} EnumPrefixCount(td: TypeDecl, e: Env, k: nat, x: string)
    requires 0 < |td.entries| && k <= |td.entries|
    requires x == ";" || x == ","
    ensures CountParts(EnumEntryParts(td, e)[..k], Punctuation, x)
         == if x == ";" then (if k == |td.entries| then 1 else 0)
            else (if k == |td.entries| then k - 1 else k)
  {
    var parts := EnumEntryParts(td, e);
    if k > 0 {
      EnumPrefixCount(td, e, k - 1, x);
      CountPartsStep(parts, k, Punctuation, x);
      EnumEntryCount(td, k - 1, e, x);
    }
  }

  lemma {:induction false} EnumPrefixDefs(td: TypeDecl, e: Env, k: nat)
    requires k <= |td.entries|
    ensures DefsParts(EnumEntryParts(td, e)[..k]) == set i | 0 <= i < k :: EnumConstantId(td, i, e)
  {
    var parts := EnumEntryParts(td, e);
    if k > 0 {
      EnumPrefixDefs(td, e, k - 1);
      DefsPartsStep(parts, k);
      EnumEntryDefs(td, k - 1, e);
      EnumIdsStep(td, e, k);
    }
  }

  lemma EnumIdsStep(td: TypeDecl, e: Env, k: nat)
    requires 0 < k
    ensures (set i | 0 <= i < k :: EnumConstantId(td, i, e))
         == (set i | 0 <= i < k - 1 :: EnumConstantId(td, i, e)) + {EnumConstantId(td, k - 1, e)}
  {
  }

  /**
   * A non-empty enum shows n - 1 "," separators and exactly one ";", after the
   * last constant; the anchors are the counter-based ids of its constants.
   */
  lemma EnumEntriesShape(td: TypeDecl, e: Env)
    requires |td.entries| > 0
    ensures Count(EnumEntriesTokens(td, e), Punctuation, ";") == 1
    ensures Count(EnumEntriesTokens(td, e), Punctuation, ",") == |td.entries| - 1
    ensures Defs(EnumEntriesTokens(td, e)) == set i | 0 <= i < |td.entries| :: EnumConstantId(td, i, Indented(e))
  {
    var parts := EnumEntryParts(td, Indented(e));
    EnumPrefixCount(td, Indented(e), |td.entries|, ";");
    EnumPrefixCount(td, Indented(e), |td.entries|, ",");
    EnumPrefixDefs(td, Indented(e), |td.entries|);
    assert parts[..|parts|] == parts;
    CountConcat(parts, Punctuation, ";");
    CountConcat(parts, Punctuation, ",");
    DefsConcat(parts);
  }

  lemma SuffixCancel(a: string, x: string, y: string)
    requires a + x == a + y
    ensures x == y
  {
    assert x == (a + x)[|a|..];
    assert y == (a + y)[|a|..];
  }

  /** With an injective id builder, different constants of an enum get different ids. */
  lemma EnumIdsDistinct(td: TypeDecl, e: Env, i: nat, j: nat)
    requires forall a, b :: e.makeId(a) == e.makeId(b) ==> a == b
    requires i != j
    ensures EnumConstantId(td, i, e) != EnumConstantId(td, j, e)
  {
    if EnumConstantId(td, i, e) == EnumConstantId(td, j, e) {
      SuffixCancel(td.fqn + ".", NatToString(i), NatToString(j));
      NatToStringInjective(i, j);
    }
  }

  // ----- annotation members -----

  /** A member line anchors only the member, at the declaration's qualified name, "." and the member's name. */
  lemma AnnotationMemberDefs(td: TypeDecl, m: AnnotationMember, e: Env)
    ensures Defs(AnnotationMemberTokens(td, m, e)) == {e.makeId(td.fqn + "." + m.name)}
  {
    var ty := ClassTypeTokens(m.memberType, e.knownTypes);
    var a := [IndentToken(e.indent)] + ty + [SpaceToken];
    var t := Defining(MemberName, m.name, e.makeId(td.fqn + "." + m.name));
    var dflt: seq<Token> := match m.defaultValue
      case Some(v) => [SpaceToken, Kw("default"), SpaceToken, Kw(v)]
      case None => [];
    var b := [Punct("("), Punct(")")] + dflt + [Punct(";"), NewLineToken];
    ClassTypeNoDefinitions(m.memberType, e.knownTypes);
    NoDefinitionsAppend([IndentToken(e.indent)], ty);
    NoDefinitionsAppend([IndentToken(e.indent)] + ty, [SpaceToken]);
    assert NoDefinitions(dflt);
    NoDefinitionsAppend([Punct("("), Punct(")")], dflt);
    NoDefinitionsAppend([Punct("("), Punct(")")] + dflt, [Punct(";"), NewLineToken]);
    assert AnnotationMemberTokens(td, m, e) == a + [t] + b;
    DefsAround(a, t, b);
  }

  lemma {:induction false} AnnotationMemberPrefix(td: TypeDecl, e: Env, k: nat)
    requires k <= |td.annotationMembers|
    ensures DefsParts(AnnotationMemberParts(td, e)[..k])
         == set m | m in td.annotationMembers[..k] :: e.makeId(td.fqn + "." + m.name)
  {
    var parts := AnnotationMemberParts(td, e);
    var ms := td.annotationMembers;
    if k > 0 {
      AnnotationMemberPrefix(td, e, k - 1);
      DefsPartsStep(parts, k);
      AnnotationMemberDefs(td, ms[k - 1], e);
      AnnotationMemberIdsStep(td, e, k);
    }
  }

  lemma AnnotationMemberIdsStep(td: TypeDecl, e: Env, k: nat)
    requires 0 < k <= |td.annotationMembers|
    ensures (set m | m in td.annotationMembers[..k] :: e.makeId(td.fqn + "." + m.name))
         == (set m | m in td.annotationMembers[..k - 1] :: e.makeId(td.fqn + "." + m.name))
            + {e.makeId(td.fqn + "." + td.annotationMembers[k - 1].name)}
  {
    var ms := td.annotationMembers;
    assert ms[..k] == ms[..k - 1] + [ms[k - 1]];
  }

  /**
   * `tokeniseAnnotationMember` anchors every member of the annotation
   * declaration, each at the declaration's qualified name, "." and the
   * member's name, and anchors nothing else.
   */
  lemma AnnotationMembersDefs(td: TypeDecl, e: Env)
    ensures Defs(AnnotationMembersTokens(td, e))
         == set m | m in td.annotationMembers :: e.makeId(td.fqn + "." + m.name)
  {
    var parts := AnnotationMemberParts(td, Indented(e));
    AnnotationMemberPrefix(td, Indented(e), |parts|);
    assert parts[..|parts|] == parts;
    assert td.annotationMembers[..|parts|] == td.annotationMembers;
    DefsConcat(parts);
  }

  // ----- fields -----

  lemma {:induction false} DeclaratorPrefix(td: TypeDecl, vs: seq<VariableDeclarator>, e: Env, k: nat)
    requires k <= |vs|
    ensures DefsParts(DeclaratorParts(td, vs, e)[..k]) == set j | 0 <= j < k :: DeclaratorId(td, vs[j], e)
  {
    var parts := DeclaratorParts(td, vs, e);
    if k > 0 {
      DeclaratorPrefix(td, vs, e, k - 1);
      DefsPartsStep(parts, k);
      DefsSingleton(Defining(MemberName, vs[k - 1].name, DeclaratorId(td, vs[k - 1], e)));
      DeclaratorIdsStep(td, vs, e, k);
    }
  }

  lemma DeclaratorIdsStep(td: TypeDecl, vs: seq<VariableDeclarator>, e: Env, k: nat)
    requires 0 < k <= |vs|
    ensures (set j | 0 <= j < k :: DeclaratorId(td, vs[j], e))
         == (set j | 0 <= j < k - 1 :: DeclaratorId(td, vs[j], e)) + {DeclaratorId(td, vs[k - 1], e)}
  {
  }

  lemma DeclaratorsDefs(td: TypeDecl, f: Field, e: Env)
    ensures Defs(DeclaratorsTokens(td, f, e)) == set j | 0 <= j < |f.variables| :: DeclaratorId(td, f.variables[j], e)
  {
    var ty := ClassTypeTokens(f.elementType, e.knownTypes) + [SpaceToken];
    ClassTypeNoDefinitions(f.elementType, e.knownTypes);
    NoDefinitionsAppend(ClassTypeTokens(f.elementType, e.knownTypes), [SpaceToken]);
    NoDefinitionsDefs(ty);
    if |f.variables| > 1 {
      var parts := DeclaratorParts(td, f.variables, e);
      DefsJoin(parts, CommaSpace);
      DeclaratorPrefix(td, f.variables, e, |f.variables|);
      assert parts[..|parts|] == parts;
      DefsAppend(ty, Join(parts, CommaSpace));
    } else if |f.variables| == 1 {
      var v := f.variables[0];
      SingleDeclaratorDefs(td, v, e);
      DefsAppend(ty, SingleDeclaratorTokens(td, v, e));
      assert (set j | 0 <= j < |f.variables| :: DeclaratorId(td, f.variables[j], e)) == {DeclaratorId(td, v, e)};
    }
  }

  lemma SingleDeclaratorDefs(td: TypeDecl, v: VariableDeclarator, e: Env)
    ensures Defs(SingleDeclaratorTokens(td, v, e)) == {DeclaratorId(td, v, e)}
  {
    var name := [Defining(MemberName, v.name, DeclaratorId(td, v, e))];
    var init: seq<Token> := match v.initializer
      case Some(i) => [SpaceToken, Punct("="), SpaceToken, Tok(Text, i)]
      case None => [];
    assert NoDefinitions(init);
    NoDefinitionsDefs(init);
    DefsSingleton(name[0]);
    DefsAppend(name, init);
  }

  lemma FieldDefs(td: TypeDecl, f: Field, e: Env)
    ensures Defs(FieldTokens(td, f, e)) == set j | 0 <= j < |f.variables| :: DeclaratorId(td, f.variables[j], e)
  {
    var head := [IndentToken(e.indent)] + AnnotationsTokens(f.annotations, false, false, e) + ModifiersTokens(f.modifiers);
    AnnotationsNoDefinitions(f.annotations, false, false, e);
    NoDefinitionsAppend([IndentToken(e.indent)], AnnotationsTokens(f.annotations, false, false, e));
    NoDefinitionsAppend([IndentToken(e.indent)] + AnnotationsTokens(f.annotations, false, false, e), ModifiersTokens(f.modifiers));
    NoDefinitionsDefs(head);
    DeclaratorsDefs(td, f, e);
    assert NoDefinitions([Punct(";"), NewLineToken]);
    NoDefinitionsDefs([Punct(";"), NewLineToken]);
    DefsAppend3(head, DeclaratorsTokens(td, f, e), [Punct(";"), NewLineToken]);
  }

  /** The ids of the declarators of one field. */
  ghost function FieldIds(td: TypeDecl, f: Field, e: Env): set<string> {
    set j | 0 <= j < |f.variables| :: DeclaratorId(td, f.variables[j], e)
  }

  /** The ids of the declarators of the first `k` fields that are shown. */
  ghost function VisibleDeclaratorIds(td: TypeDecl, isInterface: bool, e: Env, k: nat): (r: set<string>)
    requires k <= |td.fields|
    ensures forall id :: id in r <==>
      exists i, j :: 0 <= i < k && Visible(td.fields[i].access, isInterface) && 0 <= j < |td.fields[i].variables|
                     && id == DeclaratorId(td, td.fields[i].variables[j], e)
  {
    if k == 0 then {}
    else
      var f := td.fields[k - 1];
      VisibleDeclaratorIds(td, isInterface, e, k - 1) + (if Visible(f.access, isInterface) then FieldIds(td, f, e) else {})
  }

  lemma {:induction false} FieldPrefix(td: TypeDecl, isInterface: bool, e: Env, k: nat)
    requires k <= |td.fields|
    ensures DefsParts(FieldParts(td, isInterface, e)[..k]) == VisibleDeclaratorIds(td, isInterface, e, k)
  {
    var parts := FieldParts(td, isInterface, e);
    if k > 0 {
      FieldPrefix(td, isInterface, e, k - 1);
      DefsPartsStep(parts, k);
      var f := td.fields[k - 1];
      if Visible(f.access, isInterface) {
        FieldDefs(td, f, e);
        assert parts[k - 1] == FieldTokens(td, f, e);
      } else {
        assert parts[k - 1] == [];
      }
    }
  }

  /**
   * The fields section opens exactly the anchors of the declarators of the
   * fields that are shown: all of them in an interface, otherwise those of the
   * fields that are neither private nor package-private.
   */
  lemma FieldsVisibility(td: TypeDecl, isInterface: bool, e: Env)
    ensures Defs(FieldsTokens(td, isInterface, e)) == VisibleDeclaratorIds(td, isInterface, Indented(e), |td.fields|)
  {
    var parts := FieldParts(td, isInterface, Indented(e));
    DefsConcat(parts);
    FieldPrefix(td, isInterface, Indented(e), |td.fields|);
    assert parts[..|parts|] == parts;
  }

  // ----- constructors and methods -----

  /** The ids of the callables of `cs`. */
  ghost function CallableIds(cs: seq<Callable>): set<string> {
    set c | c in cs :: c.id
  }

  lemma CallablesDefs(group: seq<Callable>, e: Env)
    ensures Defs(Concat(CallableParts(group, e))) == CallableIds(group)
  {
    var parts := CallableParts(group, e);
    CallablePartsDefs(group, e);
    DefsPartsSingletons(parts, IdSeq(group));
    DefsConcat(parts);
    IdSeqSet(group);
  }

  /** The ids of the callables, in order. */
  ghost function IdSeq(cs: seq<Callable>): (r: seq<string>)
    ensures |r| == |cs|
  {
    seq(|cs|, i requires 0 <= i < |cs| => cs[i].id)
  }

  lemma IdSeqSet(cs: seq<Callable>)
    ensures CallableIds(cs) == set id | id in IdSeq(cs)
  {
    var ids := IdSeq(cs);
    forall id ensures id in CallableIds(cs) <==> id in ids {
      if id in CallableIds(cs) {
        var c :| c in cs && c.id == id;
        var i :| 0 <= i < |cs| && cs[i] == c;
        assert ids[i] == id;
      }
      if id in ids {
        var i :| 0 <= i < |ids| && ids[i] == id;
        assert cs[i] in cs;
      }
    }
  }

  lemma CallablePartsDefs(group: seq<Callable>, e: Env)
    ensures forall i :: 0 <= i < |group| ==> Defs(CallableParts(group, e)[i]) == {IdSeq(group)[i]}
  {
    forall i | 0 <= i < |group| ensures Defs(CallableParts(group, e)[i]) == {IdSeq(group)[i]} {
      CallableDefs(group[i], e);
    }
  }

  lemma GroupDefs(name: string, group: seq<Callable>, showGroupings: bool, e: Env)
    ensures Defs(GroupTokens(name, group, showGroupings, e)) == CallableIds(group)
  {
    var comment := GroupCommentTokens(name, group, showGroupings, e);
    assert NoDefinitions(comment);
    NoDefinitionsDefs(comment);
    CallablesDefs(group, e);
    DefsAppend(comment, Concat(CallableParts(group, e)));
  }

  lemma DefsPartsPair(a: seq<Token>, b: seq<Token>)
    ensures DefsParts([a, b]) == Defs(a) + Defs(b)
  {
    assert [a, b][..1] == [a];
    assert [a][..0] == [];
    assert DefsParts([a]) == Defs(a);
  }

  lemma ServiceGroupsIds(sorted: seq<Callable>)
    ensures CallableIds(sorted) == CallableIds(ServiceGroup(sorted, true)) + CallableIds(ServiceGroup(sorted, false))
  {
  }

  lemma UngroupedCover(sorted: seq<Callable>, e: Env)
    ensures DefsParts(GroupParts(sorted, false, e)) == CallableIds(sorted)
  {
    var parts := GroupParts(sorted, false, e);
    if |sorted| > 0 {
      assert parts == [GroupTokens("", sorted, false, e)];
      assert parts[..0] == [];
      GroupDefs("", sorted, false, e);
    }
  }

  lemma GroupedCover(sorted: seq<Callable>, e: Env)
    ensures DefsParts(GroupParts(sorted, true, e)) == CallableIds(sorted)
  {
    var groups := Groups(sorted, true, e);
    var a := GroupTokens(groups[0].0, groups[0].1, true, e);
    var b := GroupTokens(groups[1].0, groups[1].1, true, e);
    assert GroupParts(sorted, true, e) == [a, b];
    DefsPartsPair(a, b);
    GroupDefs(groups[0].0, groups[0].1, true, e);
    GroupDefs(groups[1].0, groups[1].1, true, e);
    ServiceGroupsIds(sorted);
  }

  lemma GroupsCover(sorted: seq<Callable>, showGroupings: bool, e: Env)
    ensures DefsParts(GroupParts(sorted, showGroupings, e)) == CallableIds(sorted)
  {
    if !showGroupings {
      UngroupedCover(sorted, e);
    } else {
      GroupedCover(sorted, e);
    }
  }

  lemma CallablesShown(td: TypeDecl, isInterface: bool, isConstructor: bool, cs: seq<Callable>, e: Env)
    requires !(isConstructor && AllPrivateOrPackagePrivate(cs))
    ensures Defs(CallablesTokens(td, isInterface, isConstructor, cs, e))
         == CallableIds(SortCallables(VisibleCallables(cs, isInterface)))
  {
    var showGroupings := !isConstructor && IsAnnotationPresent(td.annotations, "ServiceClient");
    var sorted := SortCallables(VisibleCallables(cs, isInterface));
    assert CallablesTokens(td, isInterface, isConstructor, cs, e) == Concat(GroupParts(sorted, showGroupings, Indented(e)));
    DefsConcat(GroupParts(sorted, showGroupings, Indented(e)));
    GroupsCover(sorted, showGroupings, Indented(e));
  }

  lemma SortedIds(cs: seq<Callable>, isInterface: bool)
    ensures CallableIds(SortCallables(VisibleCallables(cs, isInterface)))
         == set c | c in cs && Visible(c.access, isInterface) :: c.id
  {
    var visible := VisibleCallables(cs, isInterface);
    var sorted := SortCallables(visible);
    SortedCallablesOrder(visible);
    forall c ensures c in sorted <==> c in visible {
      assert c in sorted <==> c in multiset(sorted);
      assert c in visible <==> c in multiset(visible);
    }
  }

  /**
   * The constructors or methods of a type open exactly the anchors of the
   * callables that pass the visibility filter, whatever the grouping and the
   * group order; a constructor list whose members are all private or
   * package-private opens none.
   */
  lemma CallablesVisibility(td: TypeDecl, isInterface: bool, isConstructor: bool, cs: seq<Callable>, e: Env)
    ensures Defs(CallablesTokens(td, isInterface, isConstructor, cs, e))
         == if isConstructor && AllPrivateOrPackagePrivate(cs) then {}
            else set c | c in cs && Visible(c.access, isInterface) :: c.id
  {
    if isConstructor && AllPrivateOrPackagePrivate(cs) {
      var ts := [IndentToken(Indented(e).indent), Tok(Comment, NoPublicConstructorsComment), NewLineToken];
      assert NoDefinitions(ts);
      NoDefinitionsDefs(ts);
    } else {
      CallablesShown(td, isInterface, isConstructor, cs, e);
      SortedIds(cs, isInterface);
    }
  }

  /** The callables of all groups together. */
  ghost function GroupsMultiset(groups: seq<(string, seq<Callable>)>): multiset<Callable> {
    if |groups| == 0 then multiset{} else GroupsMultiset(groups[..|groups| - 1]) + multiset(groups[|groups| - 1].1)
  }

  lemma {:induction false} ServiceGroupSorted(sorted: seq<Callable>, service: bool)
    requires Sorted(sorted, SortMethods)
    ensures Sorted(ServiceGroup(sorted, service), SortMethods)
  {
    if |sorted| > 0 {
      var init := sorted[..|sorted| - 1];
      var x := sorted[|sorted| - 1];
      SortedInit(sorted, SortMethods);
      ServiceGroupSorted(init, service);
      var g := ServiceGroup(init, service);
      if IsAnnotationPresent(x.annotations, "ServiceMethod") == service {
        forall i | 0 <= i < |g| ensures SortMethods(g[i], x) <= 0 {
          assert g[i] in init;
          var k :| 0 <= k < |init| && init[k] == g[i];
        }
        SortedSnoc(g, x, SortMethods);
      }
      assert ServiceGroup(sorted, service) == g + (if IsAnnotationPresent(x.annotations, "ServiceMethod") == service then [x] else []);
    }
  }

  lemma {:induction false} ServiceGroupPartition(sorted: seq<Callable>)
    ensures multiset(ServiceGroup(sorted, true)) + multiset(ServiceGroup(sorted, false)) == multiset(sorted)
  {
    if |sorted| > 0 {
      ServiceGroupPartition(sorted[..|sorted| - 1]);
      assert sorted == sorted[..|sorted| - 1] + [sorted[|sorted| - 1]];
    }
  }

  lemma GroupsOfSorted(sorted: seq<Callable>, showGroupings: bool, e: Env)
    requires Sorted(sorted, SortMethods)
    ensures var groups := Groups(sorted, showGroupings, e);
      && (forall i :: 0 <= i < |groups| ==> Sorted(groups[i].1, SortMethods))
      && multiset(sorted) == GroupsMultiset(groups)
  {
    GroupsSorted(sorted, showGroupings, e);
    GroupsPartition(sorted, showGroupings, e);
  }

  lemma GroupsSorted(sorted: seq<Callable>, showGroupings: bool, e: Env)
    requires Sorted(sorted, SortMethods)
    ensures var groups := Groups(sorted, showGroupings, e);
      forall i :: 0 <= i < |groups| ==> Sorted(groups[i].1, SortMethods)
  {
    if showGroupings {
      ServiceGroupSorted(sorted, true);
      ServiceGroupSorted(sorted, false);
    }
  }

  lemma GroupsPartition(sorted: seq<Callable>, showGroupings: bool, e: Env)
    ensures multiset(sorted) == GroupsMultiset(Groups(sorted, showGroupings, e))
  {
    var groups := Groups(sorted, showGroupings, e);
    if showGroupings {
      var service, other := ServiceGroup(sorted, true), ServiceGroup(sorted, false);
      ServiceGroupPartition(sorted);
      if e.serviceGroupFirst {
        GroupsMultisetPair(("Service Methods", service), ("Non-Service Methods", other));
      } else {
        GroupsMultisetPair(("Non-Service Methods", other), ("Service Methods", service));
      }
    } else if |sorted| > 0 {
      assert groups[..0] == [];
    }
  }

  lemma GroupsMultisetPair(a: (string, seq<Callable>), b: (string, seq<Callable>))
    ensures GroupsMultiset([a, b]) == multiset(a.1) + multiset(b.1)
  {
    assert [a, b][..1] == [a];
    assert [a][..0] == [];
    assert GroupsMultiset([a]) == multiset(a.1);
  }

  /**
   * Whatever order the groups come out in, each group lists its callables in
   * `sortMethods` order, and together the groups hold every visible callable
   * exactly once.
   */
  lemma GroupsOrdered(cs: seq<Callable>, isInterface: bool, showGroupings: bool, e: Env)
    ensures var groups := Groups(SortCallables(VisibleCallables(cs, isInterface)), showGroupings, e);
      && (forall i :: 0 <= i < |groups| ==> Sorted(groups[i].1, SortMethods))
      && multiset(VisibleCallables(cs, isInterface)) == GroupsMultiset(groups)
  {
    var visible := VisibleCallables(cs, isInterface);
    SortedCallablesOrder(visible);
    SortMethodsTotalPreorder();
    SortBySorted(visible, SortMethods);
    GroupsOfSorted(SortCallables(visible), showGroupings, e);
  }

  // ----- the synthesised constructor -----

  /**
   * A type with no declared constructor gets exactly one constructor, named
   * after the type and anchored at `makeId(name)`, when it is neither an
   * interface, an enum nor an annotation declaration, and none otherwise.
   */
  lemma DefaultConstructor(td: TypeDecl, e: Env)
    requires |td.constructors| == 0
    ensures var ts := ConstructorSectionTokens(td, e);
      var synthesised := !td.isInterfaceType && td.kind != EnumDecl && td.kind != AnnotationDecl;
      && Defs(ts) == (if synthesised then {e.makeId(td.name)} else {})
      && Count(ts, MemberName, td.name) == (if synthesised then 1 else 0)
  {
    if !td.isInterfaceType && td.kind != EnumDecl && td.kind != AnnotationDecl {
      DefaultConstructorLine(td, e);
    }
  }

  lemma DefaultConstructorLine(td: TypeDecl, e: Env)
    ensures Defs(DefaultConstructorTokens(td, e)) == {e.makeId(td.name)}
    ensures Count(DefaultConstructorTokens(td, e), MemberName, td.name) == 1
  {
    var a := [IndentToken(e.indent + 4), Kw("public"), SpaceToken];
    var m := Defining(MemberName, td.name, e.makeId(td.name));
    var b := [Punct("("), Punct(")"), NewLineToken];
    assert DefaultConstructorTokens(td, e) == a + [m] + b;
    assert NoDefinitions(a) && NoDefinitions(b);
    DefsAround(a, m, b);
    CountAbsent(a, MemberName, td.name);
    CountAbsent(b, MemberName, td.name);
    CountSingleton(m, MemberName, td.name);
    CountAppend(a, [m], MemberName, td.name);
    CountAppend(a + [m], b, MemberName, td.name);
  }

  // ----- modules -----

  /** The anchors of the directives of a module, `makeId("module-info-" + name)` each. */
  ghost function DirectiveIds(ds: seq<ModuleDirective>, e: Env): (r: set<string>)
    ensures forall id :: id in r <==> exists i :: 0 <= i < |ds| && id == e.makeId(ModuleInfoKey + "-" + ds[i].name)
  {
    if |ds| == 0 then {}
    else DirectiveIds(ds[..|ds| - 1], e) + {e.makeId(ModuleInfoKey + "-" + ds[|ds| - 1].name)}
  }

  lemma NamesNoDefinitions(names: seq<string>)
    ensures NoDefinitions(Join(NameParts(names), CommaSpace))
  {
    NoDefinitionsJoin(NameParts(names), CommaSpace);
  }

  /** A single anchored token between anchor-free tokens contributes the only anchor. */
  lemma DefsAround(a: seq<Token>, t: Token, b: seq<Token>)
    requires NoDefinitions(a) && NoDefinitions(b) && t.definitionId.Some?
    ensures Defs(a + [t] + b) == {t.definitionId.value}
  {
    NoDefinitionsDefs(a);
    NoDefinitionsDefs(b);
    DefsSingleton(t);
    DefsAppend3(a, [t], b);
  }

  lemma DirectiveDefs(d: ModuleDirective, e: Env)
    ensures Defs(DirectiveTokens(d, e.makeId)) == {e.makeId(ModuleInfoKey + "-" + d.name)}
  {
    var t := DirectiveNameToken(d.name, e.makeId);
    match d
    case Requires(isTransitive, name) =>
      DefsAround([Kw("requires"), SpaceToken] + (if isTransitive then [Kw("transitive"), SpaceToken] else []), t, [Punct(";"), NewLineToken]);
    case Exports(name, names) =>
      NamesNoDefinitions(names);
      DefsAround([Kw("exports"), SpaceToken], t, ToListTokens(names) + [Punct(";"), NewLineToken]);
    case Opens(name, names) =>
      NamesNoDefinitions(names);
      DefsAround([Kw("opens"), SpaceToken], t, ToListTokens(names) + [Punct(";"), NewLineToken]);
    case Uses(name) =>
      DefsAround([Kw("uses"), SpaceToken], t, [Punct(";"), NewLineToken]);
    case Provides(name, with) =>
      NamesNoDefinitions(with);
      DefsAround([Kw("provides"), SpaceToken], t,
                 [SpaceToken, Kw("with"), SpaceToken] + Join(NameParts(with), CommaSpace) + [Punct(";"), NewLineToken]);
  }

  lemma {:induction false} DirectivePrefix(m: ModuleDecl, e: Env, k: nat)
    requires k <= |m.directives|
    ensures DefsParts(DirectiveParts(m, e)[..k]) == DirectiveIds(m.directives[..k], e)
  {
    var parts := DirectiveParts(m, e);
    if k > 0 {
      DirectivePrefix(m, e, k - 1);
      assert parts[..k][..k - 1] == parts[..k - 1];
      assert m.directives[..k][..k - 1] == m.directives[..k - 1];
      DirectiveDefs(m.directives[k - 1], e);
      DefsSingleton(IndentToken(e.indent + 4));
      DefsAppend([IndentToken(e.indent + 4)], DirectiveTokens(m.directives[k - 1], e.makeId));
    }
  }

  lemma DirectivesDefs(m: ModuleDecl, e: Env)
    ensures Defs(Concat(DirectiveParts(m, e))) == DirectiveIds(m.directives, e)
  {
    var parts := DirectiveParts(m, e);
    DirectivePrefix(m, e, |m.directives|);
    assert parts[..|parts|] == parts;
    assert m.directives[..|m.directives|] == m.directives;
    DefsConcat(parts);
  }

  /** A module declaration anchors its own name at "module-info" and each directive at its module-info id. */
  lemma ModuleDefs(m: ModuleDecl, e: Env)
    ensures Defs(ModuleTokens(m, e)) == {ModuleInfoKey} + DirectiveIds(m.directives, e)
  {
    var head := [IndentToken(e.indent), Kw("module"), SpaceToken]
      + [Defining(TypeName, m.name, ModuleInfoKey)]
      + [SpaceToken, Punct("{"), NewLineToken];
    var c := [IndentToken(e.indent), Punct("}"), NewLineToken];
    ModuleFrameDefs(m, e);
    DirectivesDefs(m, e);
    DefsAppend3(head, Concat(DirectiveParts(m, e)), c);
  }

  /** The lines around the directives anchor only the module name. */
  lemma ModuleFrameDefs(m: ModuleDecl, e: Env)
    ensures Defs([IndentToken(e.indent), Kw("module"), SpaceToken]
                 + [Defining(TypeName, m.name, ModuleInfoKey)]
                 + [SpaceToken, Punct("{"), NewLineToken]) == {ModuleInfoKey}
    ensures Defs([IndentToken(e.indent), Punct("}"), NewLineToken]) == {}
  {
    var a := [IndentToken(e.indent), Kw("module"), SpaceToken];
    var c := [IndentToken(e.indent), Punct("}"), NewLineToken];
    DefsAround(a, Defining(TypeName, m.name, ModuleInfoKey), [SpaceToken, Punct("{"), NewLineToken]);
    assert NoDefinitions(c);
    NoDefinitionsDefs(c);
  }

}
