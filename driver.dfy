/**
 * The package-level driver: the file filter of `analyse`, the scan that
 * indexes every file and keeps the non-`package-info.java` units, the
 * grouping of units by package name in ascending order (a `TreeMap`), and
 * `processPackage`, which lists a package's units sorted by primary type name.
 */
module Driver {
  import opened Wrappers
  import opened JavaStrings
  import opened Tokens
  import opened JavaAst
  import opened Sorting
  import opened Signatures
  import opened Declarations
  import opened Indexing

  /** The filter of `analyse`: not a directory, no "implementation" in the path, a ".java" suffix. */
  predicate KeepFile(f: SourceFile) {
    if f.isDirectory then false
    else if Contains(f.path, "implementation") then false
    else EndsWith(f.path, ".java")
  }

  /** The files the filter keeps, in order. */
  function KeptFiles(files: seq<SourceFile>): (r: seq<SourceFile>)
    ensures forall f :: f in r <==> f in files && KeepFile(f)
  {
    if |files| == 0 then []
    else KeptFiles(files[..|files| - 1]) + (if KeepFile(files[|files| - 1]) then [files[|files| - 1]] else [])
  }

  /** The last name element of a '/'-separated path. */
  function FileName(path: string): (r: string)
    ensures '/' !in r
  {
    path[LastIndexOf(path, '/') + 1..]
  }

  /** `path.endsWith("package-info.java")`: the last name element is exactly that. */
  predicate IsPackageInfo(path: string) {
    FileName(path) == "package-info.java"
  }

  /** The units of the kept files that parsed and are not `package-info.java`: what `scanForTypes` hands on. */
  function ScannedUnits(files: seq<SourceFile>): (r: seq<CompilationUnit>)
    ensures forall u :: u in r <==> exists f :: f in files && f.unit == Some(u) && !IsPackageInfo(f.path)
  {
    if |files| == 0 then []
    else
      var f := files[|files| - 1];
      var r := ScannedUnits(files[..|files| - 1])
               + (if f.unit.Some? && !IsPackageInfo(f.path) then [f.unit.value] else []);
      FilesSnoc(files);
      r
  }

  lemma FilesSnoc(files: seq<SourceFile>)
    requires |files| > 0
    ensures forall g :: g in files <==> g in files[..|files| - 1] || g == files[|files| - 1]
  {
    assert files == files[..|files| - 1] + [files[|files| - 1]];
  }

  /** Every parsed unit can be indexed. */
  ghost predicate FilesIndexable(files: seq<SourceFile>) {
    forall i :: 0 <= i < |files| && files[i].unit.Some? ==> UnitIndexable(files[i].unit.value)
  }

  /** The indexing that `scanForTypes` does for each kept file that parsed, `package-info.java` included. */
  function IndexFiles(files: seq<SourceFile>, idx: Index): Index
    requires FilesIndexable(files)
  {
    if |files| == 0 then idx
    else
      var prev := IndexFiles(files[..|files| - 1], idx);
      var f := files[|files| - 1];
      if f.unit.Some? then IndexUnit(f.unit.value, prev) else prev
  }

  /** `ScanClass.getPackageName()`: the declared package, or "" without one. */
  function PackageName(cu: CompilationUnit): string {
    match cu.packageName
    case Some(p) => p
    case None => ""
  }

  /** Strictly ascending under `String.compareTo`: the key order of a `TreeMap`. */
  ghost predicate StrictlyAscending(keys: seq<string>) {
    forall i, j :: 0 <= i < j < |keys| ==> CompareTo(keys[i], keys[j]) < 0
  }

  /** `TreeMap.put` on the key list: an equal key is kept, a new one goes before the first larger key. */
  function InsertKey(k: string, keys: seq<string>): (r: seq<string>)
    ensures forall x :: x in r <==> x == k || x in keys
  {
    if |keys| == 0 then [k]
    else if CompareTo(k, keys[0]) < 0 then [k] + keys
    else if CompareTo(k, keys[0]) == 0 then (CompareToZero(k, keys[0]); keys)
    else
      assert keys == [keys[0]] + keys[1..];
      [keys[0]] + InsertKey(k, keys[1..])
  }

  lemma {:induction false} InsertKeyAscending(k: string, keys: seq<string>)
    requires StrictlyAscending(keys)
    ensures StrictlyAscending(InsertKey(k, keys))
  {
    if |keys| > 0 {
      if CompareTo(k, keys[0]) < 0 {
        InsertKeyFront(k, keys);
      } else if CompareTo(k, keys[0]) > 0 {
        InsertKeyAscending(k, keys[1..]);
        InsertKeyPast(k, keys);
      }
    }
  }

  /** A key below the first goes in front. */
  lemma InsertKeyFront(k: string, keys: seq<string>)
    requires StrictlyAscending(keys) && |keys| > 0 && CompareTo(k, keys[0]) < 0
    ensures StrictlyAscending([k] + keys)
  {
    var r := [k] + keys;
    forall i, j | 0 <= i < j < |r| ensures CompareTo(r[i], r[j]) < 0 {
      if i == 0 && j > 1 {
        CompareToStrictTransitive(k, keys[0], keys[j - 1]);
      }
    }
  }

  /** A key above the first goes into the rest, which stays above the first. */
  lemma InsertKeyPast(k: string, keys: seq<string>)
    requires StrictlyAscending(keys) && |keys| > 0 && CompareTo(k, keys[0]) > 0
    requires StrictlyAscending(InsertKey(k, keys[1..]))
    ensures StrictlyAscending(InsertKey(k, keys))
  {
    var rest := InsertKey(k, keys[1..]);
    forall j | 0 <= j < |rest| ensures CompareTo(keys[0], rest[j]) < 0 {
      if rest[j] == k {
        CompareToAntisymmetric(k, keys[0]);
      } else {
        assert rest[j] in keys[1..];
      }
    }
  }

  /** The package names of the units, in `TreeMap` key order. */
  function PackageKeys(units: seq<CompilationUnit>): seq<string> {
    if |units| == 0 then [] else InsertKey(PackageName(units[|units| - 1]), PackageKeys(units[..|units| - 1]))
  }

  /**
   * The packages come out in strictly ascending `String.compareTo` order,
   * each package of a scanned unit exactly once and no other.
   */
  lemma {:induction false} PackageKeysOrdered(units: seq<CompilationUnit>)
    ensures StrictlyAscending(PackageKeys(units))
    ensures forall p :: p in PackageKeys(units) <==> exists u :: u in units && PackageName(u) == p
  {
    if |units| > 0 {
      var init := units[..|units| - 1];
      PackageKeysOrdered(init);
      InsertKeyAscending(PackageName(units[|units| - 1]), PackageKeys(init));
      assert units == init + [units[|units| - 1]];
    }
  }

  /** The units of one package, in scan order (`Collectors.toList`). */
  function UnitsOf(units: seq<CompilationUnit>, pkg: string): (r: seq<CompilationUnit>)
    ensures forall u :: u in r <==> u in units && PackageName(u) == pkg
  {
    if |units| == 0 then []
    else
      var r := UnitsOf(units[..|units| - 1], pkg)
               + (if PackageName(units[|units| - 1]) == pkg then [units[|units| - 1]] else []);
      assert units == units[..|units| - 1] + [units[|units| - 1]];
      r
  }

  /** `Comparator.comparing(s -> s.primaryTypeName)`. */
  function ComparePrimaryTypeName(a: CompilationUnit, b: CompilationUnit): int {
    CompareTo(a.primaryTypeName, b.primaryTypeName)
  }

  lemma ComparePrimaryTypeNameTotalPreorder()
    ensures TotalPreorder(ComparePrimaryTypeName)
  {
    forall a, b ensures ComparePrimaryTypeName(a, b) < 0 <==> ComparePrimaryTypeName(b, a) > 0 {
      CompareToAntisymmetric(a.primaryTypeName, b.primaryTypeName);
    }
    forall a, b, c | ComparePrimaryTypeName(a, b) <= 0 && ComparePrimaryTypeName(b, c) <= 0
      ensures ComparePrimaryTypeName(a, c) <= 0
    {
      CompareToTransitive(a.primaryTypeName, b.primaryTypeName, c.primaryTypeName);
    }
  }

  /** A package's units in primary-type-name order. */
  function SortUnits(units: seq<CompilationUnit>): seq<CompilationUnit> {
    SortBy(units, ComparePrimaryTypeName)
  }

  /** `processPackage` lists a permutation of the package's units, ascending by primary type name. */
  lemma SortUnitsOrdered(units: seq<CompilationUnit>)
    ensures multiset(SortUnits(units)) == multiset(units)
    ensures forall i, j :: 0 <= i < j < |SortUnits(units)| ==>
      CompareTo(SortUnits(units)[i].primaryTypeName, SortUnits(units)[j].primaryTypeName) <= 0
  {
    ComparePrimaryTypeNameTotalPreorder();
    SortBySorted(units, ComparePrimaryTypeName);
  }

  /** The package token: "<root package>" as text for the default package, else the name, anchored and linked. */
  function PackageToken(pkg: string): Token {
    if |pkg| == 0 then Tok(Text, "<root package>") else Token(TypeName, pkg, Some(pkg), Some(pkg))
  }

  function UnitParts(units: seq<CompilationUnit>, e: Env): (r: seq<seq<Token>>)
    ensures |r| == |units|
  {
    seq(|units|, i requires 0 <= i < |units| => CompilationUnitTokens(units[i], e))
  }

  /** `processPackage(pkg, units)`. */
  function PackageTokens(pkg: string, units: seq<CompilationUnit>, e: Env): seq<Token> {
    [Kw("package"), SpaceToken, PackageToken(pkg), SpaceToken, Punct("{"), NewLineToken]
    + Concat(UnitParts(SortUnits(units), Indented(e)))
    + [Punct("}"), NewLineToken]
  }

  function PackageParts(units: seq<CompilationUnit>, e: Env): seq<seq<Token>> {
    var keys := PackageKeys(units);
    seq(|keys|, i requires 0 <= i < |keys| => PackageTokens(keys[i], UnitsOf(units, keys[i]), e))
  }

  /** What `analyse` appends: each package of the kept files' units in key order, with its units. */
  function AnalyseTokens(files: seq<SourceFile>, e: Env): seq<Token> {
    Concat(PackageParts(ScannedUnits(KeptFiles(files)), e))
  }
}
