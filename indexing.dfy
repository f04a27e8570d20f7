/**
 * The indexing pass (`ScanForClassTypeVisitor` and
 * `buildTypeHierarchyForNavigation`): every public enum, class, interface and
 * annotation declaration, with the enums, classes and interfaces nested in
 * it, becomes a known type (simple name to `makeId(node)`) and is mapped to
 * its package; every qualified import maps its identifier to its qualifier.
 */
module Indexing {
  import opened Wrappers
  import opened JavaStrings
  import opened JavaAst

  /** The two maps the pass fills. */
  datatype Index = Index(knownTypes: map<string, string>, typeToPackage: map<string, string>)

  /**
   * The pass can index the declaration: each public type it reaches has a
   * package, that is a '.' in its fully qualified name (for a type in the
   * default package the package lookup fails).
   */
  ghost predicate Indexable(td: TypeDecl)
    decreases td
  {
    td.isPublicApi ==>
      && '.' in td.fqn
      && forall i :: 0 <= i < |td.members| && IsVisitedMember(td.members[i]) ==> Indexable(td.members[i])
  }

  /** The part of a fully qualified name before its last '.'. */
  function PackageOf(fqn: string): (r: string)
    requires '.' in fqn
    ensures |r| < |fqn| && fqn[|r|] == '.' && r == fqn[..|r|]
    ensures '.' !in fqn[|r| + 1..]
  {
    fqn[..LastIndexOf(fqn, '.')]
  }

  /** `buildTypeHierarchyForNavigation(td)`. */
  function IndexType(td: TypeDecl, idx: Index): Index
    requires Indexable(td)
    decreases td, 1
  {
    if !td.isPublicApi then idx
    else
      var idx' := Index(idx.knownTypes[td.name := td.id], idx.typeToPackage[td.name := PackageOf(td.fqn)]);
      IndexMembers(td, |td.members|, idx')
  }

  /** The first `k` nested enums, classes and interfaces of a public type, in order. */
  function IndexMembers(td: TypeDecl, k: nat, idx: Index): Index
    requires Indexable(td) && td.isPublicApi && k <= |td.members|
    decreases td, 0, k
  {
    if k == 0 then idx
    else
      var prev := IndexMembers(td, k - 1, idx);
      if IsVisitedMember(td.members[k - 1]) then IndexType(td.members[k - 1], prev) else prev
  }

  /** The simple names the pass makes known for a declaration. */
  ghost function PublicTypeNames(td: TypeDecl): set<string>
    decreases td, 1
  {
    if !td.isPublicApi then {} else {td.name} + MemberTypeNames(td, |td.members|)
  }

  ghost function MemberTypeNames(td: TypeDecl, k: nat): set<string>
    requires k <= |td.members|
    decreases td, 0, k
  {
    if k == 0 then {}
    else MemberTypeNames(td, k - 1) + (if IsVisitedMember(td.members[k - 1]) then PublicTypeNames(td.members[k - 1]) else {})
  }

  /**
   * The pass only adds: afterwards both maps have exactly the keys they had
   * plus the simple names of the public types it reached.
   */
  lemma {:induction false} IndexTypeKeys(td: TypeDecl, idx: Index)
    requires Indexable(td)
    ensures IndexType(td, idx).knownTypes.Keys == idx.knownTypes.Keys + PublicTypeNames(td)
    ensures IndexType(td, idx).typeToPackage.Keys == idx.typeToPackage.Keys + PublicTypeNames(td)
    decreases td, 1
  {
    if td.isPublicApi {
      var idx' := Index(idx.knownTypes[td.name := td.id], idx.typeToPackage[td.name := PackageOf(td.fqn)]);
      IndexMembersKeys(td, |td.members|, idx');
    }
  }

  lemma {:induction false} IndexMembersKeys(td: TypeDecl, k: nat, idx: Index)
    requires Indexable(td) && td.isPublicApi && k <= |td.members|
    ensures IndexMembers(td, k, idx).knownTypes.Keys == idx.knownTypes.Keys + MemberTypeNames(td, k)
    ensures IndexMembers(td, k, idx).typeToPackage.Keys == idx.typeToPackage.Keys + MemberTypeNames(td, k)
    decreases td, 0, k
  {
    if k > 0 {
      IndexMembersKeys(td, k - 1, idx);
      if IsVisitedMember(td.members[k - 1]) {
        IndexTypeKeys(td.members[k - 1], IndexMembers(td, k - 1, idx));
      }
    }
  }

  /**
   * A public type whose nested types do not reuse its simple name is known
   * under its own id and mapped to its own package.
   */
  lemma IndexTypeOwnEntry(td: TypeDecl, idx: Index)
    requires Indexable(td) && td.isPublicApi
    requires td.name !in MemberTypeNames(td, |td.members|)
    ensures td.name in IndexType(td, idx).knownTypes && IndexType(td, idx).knownTypes[td.name] == td.id
    ensures td.name in IndexType(td, idx).typeToPackage && IndexType(td, idx).typeToPackage[td.name] == PackageOf(td.fqn)
  {
    var idx' := Index(idx.knownTypes[td.name := td.id], idx.typeToPackage[td.name := PackageOf(td.fqn)]);
    IndexMembersUntouched(td, |td.members|, idx', td.name);
  }

  lemma {:induction false} IndexTypeUntouched(td: TypeDecl, idx: Index, name: string)
    requires Indexable(td) && name !in PublicTypeNames(td)
    ensures name in idx.knownTypes ==> name in IndexType(td, idx).knownTypes && IndexType(td, idx).knownTypes[name] == idx.knownTypes[name]
    ensures name in idx.typeToPackage ==> name in IndexType(td, idx).typeToPackage && IndexType(td, idx).typeToPackage[name] == idx.typeToPackage[name]
    decreases td, 1
  {
    if td.isPublicApi {
      var idx' := Index(idx.knownTypes[td.name := td.id], idx.typeToPackage[td.name := PackageOf(td.fqn)]);
      IndexMembersUntouched(td, |td.members|, idx', name);
    }
  }

  lemma {:induction false} IndexMembersUntouched(td: TypeDecl, k: nat, idx: Index, name: string)
    requires Indexable(td) && td.isPublicApi && k <= |td.members| && name !in MemberTypeNames(td, k)
    ensures name in idx.knownTypes ==> name in IndexMembers(td, k, idx).knownTypes && IndexMembers(td, k, idx).knownTypes[name] == idx.knownTypes[name]
    ensures name in idx.typeToPackage ==> name in IndexMembers(td, k, idx).typeToPackage && IndexMembers(td, k, idx).typeToPackage[name] == idx.typeToPackage[name]
    decreases td, 0, k
  {
    if k > 0 {
      IndexMembersUntouched(td, k - 1, idx, name);
      if IsVisitedMember(td.members[k - 1]) {
        IndexTypeUntouched(td.members[k - 1], IndexMembers(td, k - 1, idx), name);
      }
    }
  }

  /** The top-level types of a unit, in order. */
  function IndexTypes(types: seq<TypeDecl>, idx: Index): Index
    requires forall i :: 0 <= i < |types| ==> Indexable(types[i])
  {
    if |types| == 0 then idx else IndexType(types[|types| - 1], IndexTypes(types[..|types| - 1], idx))
  }

  /** The imports of a unit: each qualified name maps its identifier to its qualifier. */
  function IndexImports(imports: seq<ImportName>, idx: Index): Index {
    if |imports| == 0 then idx
    else
      var prev := IndexImports(imports[..|imports| - 1], idx);
      match imports[|imports| - 1].qualifier
      case Some(q) => prev.(typeToPackage := prev.typeToPackage[imports[|imports| - 1].identifier := q])
      case None => prev
  }

  ghost predicate UnitIndexable(cu: CompilationUnit) {
    forall i :: 0 <= i < |cu.types| ==> Indexable(cu.types[i])
  }

  /** `ScanForClassTypeVisitor.visit(cu)`: the types, then the imports. */
  function IndexUnit(cu: CompilationUnit, idx: Index): Index
    requires UnitIndexable(cu)
  {
    IndexImports(cu.imports, IndexTypes(cu.types, idx))
  }

  /** Imports never touch the known types, and a qualified import's identifier ends up mapped. */
  lemma {:induction false} IndexImportsEffect(imports: seq<ImportName>, idx: Index)
    ensures IndexImports(imports, idx).knownTypes == idx.knownTypes
    ensures IndexImports(imports, idx).typeToPackage.Keys
         == idx.typeToPackage.Keys + set i | 0 <= i < |imports| && imports[i].qualifier.Some? :: imports[i].identifier
  {
    if |imports| > 0 {
      var init := imports[..|imports| - 1];
      IndexImportsEffect(init, idx);
      assert (set i | 0 <= i < |imports| && imports[i].qualifier.Some? :: imports[i].identifier)
          == (set i | 0 <= i < |init| && init[i].qualifier.Some? :: init[i].identifier)
             + (if imports[|imports| - 1].qualifier.Some? then {imports[|imports| - 1].identifier} else {});
    }
  }
}
