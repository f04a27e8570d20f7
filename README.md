# APIView Java processor: the token emitter of `ASTAnalyser`

`ASTAnalyser` is the part of the APIView Java processor that turns parsed Java
compilation units into the flat list of classified tokens APIView renders.
Token kinds are KEYWORD, TYPE_NAME, MEMBER_NAME, TEXT, PUNCTUATION,
WHITESPACE, NEW_LINE and COMMENT. The list shows only the public API of a
library:
- packages in ascending name order;
- inside each package, the files sorted by primary type name;
- for each type: its annotations (from a fixed allow list), modifiers,
  type parameters, extends and implements clauses, enum constants,
  annotation members, fields, constructors, methods and nested types.

It runs two passes:
- An indexing pass fills two maps. The known-types map goes from a simple
  type name to its definition id; the type-to-package map goes from a simple
  type name to its package.
- An emitting pass appends tokens. Type names found in the known-types map
  become links.

This project models that emitter in Dafny and proves properties of it.

## Structure

| module | file | contents |
|---|---|---|
| `Wrappers` | `wrappers.dfy` | `Option` |
| `JavaStrings` | `java_strings.dfy` | `startsWith`, `endsWith`, `contains`, `lastIndexOf`, ASCII `toLowerCase`, `String.compareTo` on UTF-16 code units with its order laws, decimal `int` to string |
| `JavaAst` | `java_ast.dfy` | the parsed input: type nodes, types, annotations, callables, fields, enum constants, annotation members, type declarations, module declarations, compilation units, source files |
| `Tokens` | `tokens.dfy` | `Token`, `TokenModifier`, the expansion `handleTokenModifier` performs, list combinators (`Concat`, `Join`, `JoinTrailing`), token counting and the set of definition ids a sequence opens |
| `TypePrinter` | `type_printer.dfy` | what `getTypeDFS` and `getClassType` print, and its linking and bracket balance |
| `Signatures` | `signatures.dfy` | annotations, modifiers, type parameters, parameters, throws clauses, one callable line |
| `Sorting` | `sorting.dfy` | a stable insertion sort by a comparator, proved sorted, stable and a permutation for every total preorder |
| `MethodOrder` | `method_order.dfy` | `sortMethods` and its ordering laws |
| `Declarations` | `declarations.dfy` | what each declaration walker emits: enum constants, type headers, annotation members, fields, constructor and method groups, nested types, module directives |
| `Indexing` | `indexing.dfy` | `buildTypeHierarchyForNavigation` and `ScanForClassTypeVisitor` as functions on the two maps |
| `Driver` | `driver.dfy` | the file filter of `analyse`, the `TreeMap` package order, the per-package file order, the whole output |
| `DeclarationLemmas` | `declaration_lemmas.dfy` | properties of the walkers: enum punctuation and ids, annotation member anchors, visibility filtering, grouping, the synthesised constructor, module anchors |
| `Analyser` | `analyser.dfy` | the class `ASTAnalyser` |

### The class `ASTAnalyser`

The class holds the mutable state of the Java object:
- `tokens`, the list `apiListing.getTokens()`;
- `indent`;
- `knownTypes` and `typeToPackage`, the two maps.

Each routine that appends tokens is a method with `modifies this`. Its
contract is `Appended(S(...))`: the method appended exactly the token
sequence `S`, and left `indent` and both maps as they were. `S` is a function
of the inputs and of the state on entry (`CurrentEnv()`). The specification
functions are the reference definitions. The lemmas in the other modules
state what those sequences contain.

The loops of the source are kept as loops. Their invariants say that the
tokens so far are the entry tokens plus the parts emitted for the first `i`
items. Two list emitters append a trailing `", "` and then delete the last
two tokens: the implements list and multi-declarator fields. Both are
modelled with that append-then-retract loop and proved equal to the
separated list.

The state that the routines `put` into is updated by the indexing methods:
- `BuildTypeHierarchyForNavigation` and `ScanForClassTypes` are proved to
  leave the tokens alone;
- their effect on the maps equals the `Indexing` functions.

### Indentation

`indent` is a `nat`:
- `Indent` adds 4.
- `Unindent` is `Math.max(indent - 4, 0)`: it subtracts 4 and stays at 0
  when below 4.
- Both keep a multiple of 4 a multiple of 4.
- So `Indent` followed by `Unindent` restores the value.

Every emitting method restores `indent` on exit. Its `Appended` contract
says so.

### Notes on the code

Behaviour of the analyser worth knowing before reading the model. Line
numbers refer to `src/java/apiview-java-processor/src/main/java/com/azure/tools/apiview/processor/analysers/ASTAnalyser.java`.
- A wildcard, union or intersection type passed to `getClassType`
  prints nothing: those branches are empty (lines 1019-1024). A wildcard
  that is a type argument is different. It is a child node of its class
  type, so `getTypeDFS` reaches it and prints its text as one TYPE_NAME
  token when it has at most one child (lines 1034-1041).
- `sortMethods` strips "set"/"get" or "is" and lower-cases before
  comparing (lines 767-773). So `getName` and `setName` tie on "name" and
  are then ordered by full name, and `isReady` strips to "ready". A class
  with `acquire`, `buildA`, `getName`, `isReady` and `setName` lists them
  as acquire, getName, setName, isReady, buildA (lines 745-799,
  `MethodOrderExample`).
- Names are compared with `String.compareTo`, which compares UTF-16 code
  units. A character above U+FFFF counts as its two surrogates, so it can
  sort before a character below U+FFFF with a smaller code point.
- The package javadoc is never emitted: `SHOW_JAVADOC` is false (line 83),
  so `visitJavaDoc` returns at once (lines 1157-1160).
- Each enum constant argument gets its own "(" and ")" (lines 430-434).
- Several type-parameter bounds are printed with no separator between
  them (lines 949-956).
- Annotations come out in the order of the allow list, not in source
  order (lines 849-855).
- In `getTypeDFS`, the separator after child 0 depends only on whether
  the node has type arguments (lines 1062-1071). A qualified name with
  type arguments therefore gets "<" after its scope.
- A field with several declarators prints no initializers (lines
  615-624).
- A field's type is its element type (line 996), so array brackets
  written after the variable name are not printed.

## Model

| member | source | states |
|---|---|---|
| Analyser.ASTAnalyser.constructor | src/java/apiview-java-processor/src/main/java/com/azure/tools/apiview/processor/analysers/ASTAnalyser.java:93-97 | a new analyser starts with no tokens, indent 0 and empty maps |
| Analyser.ASTAnalyser.Indent | src/java/apiview-java-processor/src/main/java/com/azure/tools/apiview/processor/analysers/ASTAnalyser.java:1168-1170 | indent grows by 4 and stays a multiple of 4; tokens and maps unchanged |
| Analyser.ASTAnalyser.Unindent | src/java/apiview-java-processor/src/main/java/com/azure/tools/apiview/processor/analysers/ASTAnalyser.java:1172-1174 | indent drops by 4, or to 0 when below 4, and stays a multiple of 4; tokens and maps unchanged |
| Analyser.ASTAnalyser.MakeWhitespace | src/java/apiview-java-processor/src/main/java/com/azure/tools/apiview/processor/analysers/ASTAnalyser.java:1176-1182 | a WHITESPACE token with no anchor and no link, whose text is exactly `indent` spaces |
| Analyser.ASTAnalyser.HandleTokenModifier | src/java/apiview-java-processor/src/main/java/com/azure/tools/apiview/processor/analysers/ASTAnalyser.java:1198-1205 | appends exactly the expansion of the modifier at the current indent |
| Tokens.ExpandLayout | src/java/apiview-java-processor/src/main/java/com/azure/tools/apiview/processor/analysers/ASTAnalyser.java:1198-1205 | a modifier expands to at most one token, to none exactly for NOTHING, and that token is blanks (WHITESPACE) or an empty NEW_LINE with no anchor and no link |
| Analyser.ASTAnalyser.AddToken | src/java/apiview-java-processor/src/main/java/com/azure/tools/apiview/processor/analysers/ASTAnalyser.java:1184-1196 | appends expand(prefix), the token, expand(suffix), and leaves earlier tokens, indent and maps unchanged |
| Analyser.ASTAnalyser.RemoveLastToken | src/java/apiview-java-processor/src/main/java/com/azure/tools/apiview/processor/analysers/ASTAnalyser.java:538-539 | drops exactly the last token of a non-empty list |
| TypePrinter.TypeNameToken | src/java/apiview-java-processor/src/main/java/com/azure/tools/apiview/processor/analysers/ASTAnalyser.java:1034-1040 | a leaf prints one TYPE_NAME with its text, linked iff the text is a known type, to that type's id |
| Analyser.ASTAnalyser.GetTypeDFS | src/java/apiview-java-processor/src/main/java/com/azure/tools/apiview/processor/analysers/ASTAnalyser.java:1030-1087 | appends the depth-first print of the node: leaf name, or children with "<" or "." after child 0, ", " between later children, ">" after the last with type arguments |
| TypePrinter.DfsLinked | src/java/apiview-java-processor/src/main/java/com/azure/tools/apiview/processor/analysers/ASTAnalyser.java:1030-1087 | a printed type opens no anchor, and every TYPE_NAME in it is linked exactly when its text is a known type |
| TypePrinter.DfsAngleBalanced | src/java/apiview-java-processor/src/main/java/com/azure/tools/apiview/processor/analysers/ASTAnalyser.java:1057-1086 | a printed type holds as many "<" as ">" |
| TypePrinter.DfsChildrenAngles | src/java/apiview-java-processor/src/main/java/com/azure/tools/apiview/processor/analysers/ASTAnalyser.java:1062-1085 | after some of the children, "<" outnumber ">" by exactly one while a node with type arguments is open, by none otherwise |
| Analyser.ASTAnalyser.GetClassType | src/java/apiview-java-processor/src/main/java/com/azure/tools/apiview/processor/analysers/ASTAnalyser.java:1005-1028 | appends the print of a type: primitive and void by name, arrays as component then "[]", class types by `getTypeDFS`, nothing for wildcard, union, intersection and other types |
| TypePrinter.ClassTypeNoDefinitions | src/java/apiview-java-processor/src/main/java/com/azure/tools/apiview/processor/analysers/ASTAnalyser.java:1005-1028 | a printed type never opens an anchor |
| Analyser.ASTAnalyser.GetParameterType | src/java/apiview-java-processor/src/main/java/com/azure/tools/apiview/processor/analysers/ASTAnalyser.java:987-991 | a parameter's type, then "..." exactly for varargs |
| Analyser.ASTAnalyser.GetReturnType | src/java/apiview-java-processor/src/main/java/com/azure/tools/apiview/processor/analysers/ASTAnalyser.java:992-994 | a method's return type followed by one space |
| Analyser.ASTAnalyser.GetFieldType | src/java/apiview-java-processor/src/main/java/com/azure/tools/apiview/processor/analysers/ASTAnalyser.java:995-997 | a field's element type followed by one space |
| Signatures.FindAnnotation | src/java/apiview-java-processor/src/main/java/com/azure/tools/apiview/processor/analysers/ASTAnalyser.java:850-856 | `getAnnotationByName` finds an annotation of that name exactly when one is present |
| Analyser.ASTAnalyser.GetAnnotations | src/java/apiview-java-processor/src/main/java/com/azure/tools/apiview/processor/analysers/ASTAnalyser.java:811-857 | appends the allow-listed annotations in allow-list order, each formatted by the consumer |
| Analyser.ASTAnalyser.AnnotationConsumer | src/java/apiview-java-processor/src/main/java/com/azure/tools/apiview/processor/analysers/ASTAnalyser.java:814-847 | one annotation: optional indent, "@name", properties when asked for and normal, then a line break or a space |
| Analyser.ASTAnalyser.AnnotationProperties | src/java/apiview-java-processor/src/main/java/com/azure/tools/apiview/processor/analysers/ASTAnalyser.java:822-838 | "(", the pairs `name = value` separated by ", ", then ")" |
| Analyser.ASTAnalyser.AnnotationIfPresentConsumer | src/java/apiview-java-processor/src/main/java/com/azure/tools/apiview/processor/analysers/ASTAnalyser.java:850 | one allow-list lookup: the consumer's tokens when the name is present, nothing otherwise |
| Signatures.AnnotationsInOrder | src/java/apiview-java-processor/src/main/java/com/azure/tools/apiview/processor/analysers/ASTAnalyser.java:850-856 | the output is the six lookups Deprecated, Override, ServiceClient, ServiceClientBuilder, Fluent, Immutable in that order |
| Signatures.AnnotationsShown | src/java/apiview-java-processor/src/main/java/com/azure/tools/apiview/processor/analysers/ASTAnalyser.java:849-856 | without properties, "@n" appears exactly once if n is on the allow list and present, never otherwise (ServiceMethod is dropped) |
| Signatures.AnnotationIfPresentCount | src/java/apiview-java-processor/src/main/java/com/azure/tools/apiview/processor/analysers/ASTAnalyser.java:814-819 | one lookup contributes "@n" once exactly when it looks up n and n is present |
| Signatures.AllowListDistinct | src/java/apiview-java-processor/src/main/java/com/azure/tools/apiview/processor/analysers/ASTAnalyser.java:850-856 | no annotation name is looked up twice |
| Signatures.AnnotationsNoDefinitions | src/java/apiview-java-processor/src/main/java/com/azure/tools/apiview/processor/analysers/ASTAnalyser.java:811-857 | annotations never open an anchor |
| Analyser.ASTAnalyser.ProcessAnnotationValueExpression | src/java/apiview-java-processor/src/main/java/com/azure/tools/apiview/processor/analysers/ASTAnalyser.java:859-890 | a known class literal becomes a linked TYPE_NAME; an array becomes "{ ", elements separated by ", ", " }"; anything else its text |
| Analyser.ASTAnalyser.ArrayElements | src/java/apiview-java-processor/src/main/java/com/azure/tools/apiview/processor/analysers/ASTAnalyser.java:871-883 | the elements separated by ", ", a non-expression child printing the whole initializer text |
| Signatures.ValueNoDefinitions | src/java/apiview-java-processor/src/main/java/com/azure/tools/apiview/processor/analysers/ASTAnalyser.java:859-890 | annotation values never open an anchor |
| Analyser.ASTAnalyser.GetModifiers | src/java/apiview-java-processor/src/main/java/com/azure/tools/apiview/processor/analysers/ASTAnalyser.java:892-896 | one KEYWORD per modifier, in order, with no separator |
| Analyser.ASTAnalyser.GetTypeParameters | src/java/apiview-java-processor/src/main/java/com/azure/tools/apiview/processor/analysers/ASTAnalyser.java:923-937 | nothing for no parameters, else "<", the parameters separated by "," and one space, ">" |
| Analyser.ASTAnalyser.TypeParameterList | src/java/apiview-java-processor/src/main/java/com/azure/tools/apiview/processor/analysers/ASTAnalyser.java:929-935 | the loop appends the parameters joined by ", " with no trailing separator |
| Analyser.ASTAnalyser.GetGenericTypeParameter | src/java/apiview-java-processor/src/main/java/com/azure/tools/apiview/processor/analysers/ASTAnalyser.java:939-957 | the name, linked iff known, then " extends " and the bounds when there are any |
| Analyser.ASTAnalyser.Bounds | src/java/apiview-java-processor/src/main/java/com/azure/tools/apiview/processor/analysers/ASTAnalyser.java:953-955 | the bounds printed one after the other with no separator |
| Signatures.TypeParametersNoDefinitions | src/java/apiview-java-processor/src/main/java/com/azure/tools/apiview/processor/analysers/ASTAnalyser.java:923-957 | type parameters never open an anchor |
| Analyser.ASTAnalyser.GetDeclarationNameAndParameters | src/java/apiview-java-processor/src/main/java/com/azure/tools/apiview/processor/analysers/ASTAnalyser.java:898-921 | the name anchored at the callable's id, "(", the parameters (type, space, name) joined by ", ", ")" and a space |
| Signatures.ParametersNoDefinitions | src/java/apiview-java-processor/src/main/java/com/azure/tools/apiview/processor/analysers/ASTAnalyser.java:906-917 | the parameter list never opens an anchor |
| Tokens.JoinCountsCommas | src/java/apiview-java-processor/src/main/java/com/azure/tools/apiview/processor/analysers/ASTAnalyser.java:906-917 | a list of n items joined by ", " has the items' commas plus exactly n-1 |
| Analyser.ASTAnalyser.GetThrowException | src/java/apiview-java-processor/src/main/java/com/azure/tools/apiview/processor/analysers/ASTAnalyser.java:959-984 | nothing without exceptions, else "throws ", the names joined by ", " (linked to makeId(package.name) when the package is known), then a space |
| Signatures.ThrowsNoDefinitions | src/java/apiview-java-processor/src/main/java/com/azure/tools/apiview/processor/analysers/ASTAnalyser.java:959-984 | a throws clause never opens an anchor |
| Analyser.ASTAnalyser.TokeniseCallable | src/java/apiview-java-processor/src/main/java/com/azure/tools/apiview/processor/analysers/ASTAnalyser.java:706-739 | one constructor or method line: indent, annotations, modifiers, type parameters and a space, return type for methods, name and parameters, throws, line break |
| Signatures.CallableLine | src/java/apiview-java-processor/src/main/java/com/azure/tools/apiview/processor/analysers/ASTAnalyser.java:710-738 | a callable line is its head, its name and parameters, its throws clause and NEW_LINE |
| Signatures.CallableDefs | src/java/apiview-java-processor/src/main/java/com/azure/tools/apiview/processor/analysers/ASTAnalyser.java:898-902 | a callable line opens exactly one anchor, the callable's id |
| Analyser.ASTAnalyser.GetEnumEntries | src/java/apiview-java-processor/src/main/java/com/azure/tools/apiview/processor/analysers/ASTAnalyser.java:413-445 | the constants one after the other, one indent deeper, indent restored |
| Analyser.ASTAnalyser.EnumEntry | src/java/apiview-java-processor/src/main/java/com/azure/tools/apiview/processor/analysers/ASTAnalyser.java:423-441 | constant i: indent, name anchored at makeId(fqn + "." + i), arguments, "," unless last else ";", NEW_LINE |
| Analyser.ASTAnalyser.EnumArguments | src/java/apiview-java-processor/src/main/java/com/azure/tools/apiview/processor/analysers/ASTAnalyser.java:430-434 | every argument as "(", its text, ")" |
| DeclarationLemmas.EnumEntryCount | src/java/apiview-java-processor/src/main/java/com/azure/tools/apiview/processor/analysers/ASTAnalyser.java:436-440 | constant i carries one ";" iff it is the last, one "," iff it is not |
| DeclarationLemmas.EnumEntriesShape | src/java/apiview-java-processor/src/main/java/com/azure/tools/apiview/processor/analysers/ASTAnalyser.java:413-445 | n > 0 constants give exactly one ";" and n-1 ","; the anchors opened are exactly makeId(fqn + "." + i) for i < n |
| DeclarationLemmas.EnumIdsDistinct | src/java/apiview-java-processor/src/main/java/com/azure/tools/apiview/processor/analysers/ASTAnalyser.java:427 | with an injective makeId, different counters give different anchors |
| JavaStrings.NatToStringInjective | src/java/apiview-java-processor/src/main/java/com/azure/tools/apiview/processor/analysers/ASTAnalyser.java:427 | different counters print as different decimal strings |
| DeclarationLemmas.ArgumentsPlain | src/java/apiview-java-processor/src/main/java/com/azure/tools/apiview/processor/analysers/ASTAnalyser.java:430-434 | arguments hold no "," or ";" punctuation and open no anchor |
| Analyser.ASTAnalyser.GetTypeDeclaration | src/java/apiview-java-processor/src/main/java/com/azure/tools/apiview/processor/analysers/ASTAnalyser.java:447-546 | reports private iff not a public API, and then appends nothing; otherwise appends the header up to " {" and a line break |
| Analyser.ASTAnalyser.TypeHeaderStartTokens | src/java/apiview-java-processor/src/main/java/com/azure/tools/apiview/processor/analysers/ASTAnalyser.java:454-458 | annotations with properties on their own lines, indent, modifiers |
| Analyser.ASTAnalyser.KindAndName | src/java/apiview-java-processor/src/main/java/com/azure/tools/apiview/processor/analysers/ASTAnalyser.java:461-489 | "@" for annotations, the kind keyword (interface for annotations), a space, the name anchored at the type's id |
| Analyser.ASTAnalyser.GetExtends | src/java/apiview-java-processor/src/main/java/com/azure/tools/apiview/processor/analysers/ASTAnalyser.java:500-515 | nothing without extended types, else " extends " and the types joined by ", " |
| Analyser.ASTAnalyser.TypeList | src/java/apiview-java-processor/src/main/java/com/azure/tools/apiview/processor/analysers/ASTAnalyser.java:506-513 | the separator-if-not-last loop appends the types joined by ", " |
| Analyser.ASTAnalyser.GetImplements | src/java/apiview-java-processor/src/main/java/com/azure/tools/apiview/processor/analysers/ASTAnalyser.java:528-541 | nothing without implemented types (annotations have none), else " implements " and the types joined by ", " |
| Analyser.ASTAnalyser.ImplementedList | src/java/apiview-java-processor/src/main/java/com/azure/tools/apiview/processor/analysers/ASTAnalyser.java:532-540 | appending "," and " " after every type and deleting the last two tokens gives the types joined by ", " |
| Tokens.JoinTrailingRetract | src/java/apiview-java-processor/src/main/java/com/azure/tools/apiview/processor/analysers/ASTAnalyser.java:537-540 | every item followed by the separator, minus the last separator, is the separated list |
| Analyser.ASTAnalyser.TokeniseAnnotationMember | src/java/apiview-java-processor/src/main/java/com/azure/tools/apiview/processor/analysers/ASTAnalyser.java:548-583 | the annotation members one indent deeper, indent restored |
| Analyser.ASTAnalyser.AnnotationMember | src/java/apiview-java-processor/src/main/java/com/azure/tools/apiview/processor/analysers/ASTAnalyser.java:559-580 | indent, type, a space, then name and default |
| DeclarationLemmas.AnnotationMemberDefs | src/java/apiview-java-processor/src/main/java/com/azure/tools/apiview/processor/analysers/ASTAnalyser.java:559-580 | a member line anchors exactly one id: the declaration's qualified name, ".", the member's name |
| DeclarationLemmas.AnnotationMembersDefs | src/java/apiview-java-processor/src/main/java/com/azure/tools/apiview/processor/analysers/ASTAnalyser.java:548-583 | the member lines anchor exactly one id per member, built from the declaration's qualified name and the member's name, and nothing else |
| Analyser.ASTAnalyser.MemberNameAndDefault | src/java/apiview-java-processor/src/main/java/com/azure/tools/apiview/processor/analysers/ASTAnalyser.java:563-580 | name anchored at makeId(fqn + "." + name), "()", " default value" when present, ";" and a line break |
| Analyser.ASTAnalyser.TokeniseFields | src/java/apiview-java-processor/src/main/java/com/azure/tools/apiview/processor/analysers/ASTAnalyser.java:585-644 | the visible fields one indent deeper, indent restored |
| Analyser.ASTAnalyser.TokeniseField | src/java/apiview-java-processor/src/main/java/com/azure/tools/apiview/processor/analysers/ASTAnalyser.java:601-641 | indent, annotations, modifiers, declarators, ";" and a line break |
| Analyser.ASTAnalyser.GetDeclarators | src/java/apiview-java-processor/src/main/java/com/azure/tools/apiview/processor/analysers/ASTAnalyser.java:613-638 | several declarators: type and names joined by ", "; one: type, name and " = initializer" when present; none: nothing |
| Analyser.ASTAnalyser.DeclaratorList | src/java/apiview-java-processor/src/main/java/com/azure/tools/apiview/processor/analysers/ASTAnalyser.java:618-625 | appending "," and a space after every name and deleting the last two tokens gives the names joined by ", " |
| Analyser.ASTAnalyser.SingleDeclarator | src/java/apiview-java-processor/src/main/java/com/azure/tools/apiview/processor/analysers/ASTAnalyser.java:626-638 | a single declarator with its initializer |
| DeclarationLemmas.FieldsVisibility | src/java/apiview-java-processor/src/main/java/com/azure/tools/apiview/processor/analysers/ASTAnalyser.java:590-597 | the anchors opened are exactly the declarator ids of the fields that are visible: every field in an interface, no private or package-private field elsewhere |
| DeclarationLemmas.FieldDefs | src/java/apiview-java-processor/src/main/java/com/azure/tools/apiview/processor/analysers/ASTAnalyser.java:613-638 | a field opens exactly the anchors makeId(fqn + "." + name) of its declarators |
| DeclarationLemmas.DeclaratorsDefs | src/java/apiview-java-processor/src/main/java/com/azure/tools/apiview/processor/analysers/ASTAnalyser.java:613-638 | the declarator part opens exactly one anchor per declarator |
| DeclarationLemmas.SingleDeclaratorDefs | src/java/apiview-java-processor/src/main/java/com/azure/tools/apiview/processor/analysers/ASTAnalyser.java:626-637 | a single declarator opens exactly its own anchor |
| MethodOrder.IntegerCompare | src/java/apiview-java-processor/src/main/java/com/azure/tools/apiview/processor/analysers/ASTAnalyser.java:752 | `Integer.compare`: negative, zero or positive as x is below, equal to or above y |
| MethodOrder.StrippedName | src/java/apiview-java-processor/src/main/java/com/azure/tools/apiview/processor/analysers/ASTAnalyser.java:767-773 | a name starting with "set" or "get" becomes the lower-cased rest after 3 characters, else one starting with "is" the lower-cased rest after 2, else the lower-cased name itself |
| JavaStrings.ToLowerChar | src/java/apiview-java-processor/src/main/java/com/azure/tools/apiview/processor/analysers/ASTAnalyser.java:769 | an upper-case ASCII letter becomes the matching lower-case letter; every other character is kept |
| JavaStrings.ToLower | src/java/apiview-java-processor/src/main/java/com/azure/tools/apiview/processor/analysers/ASTAnalyser.java:769 | `toLowerCase` keeps the length and lower-cases each character on its own |
| JavaStrings.ToLowerIdempotent | src/java/apiview-java-processor/src/main/java/com/azure/tools/apiview/processor/analysers/ASTAnalyser.java:769 | the lower-cased name holds no upper-case ASCII letter, so lower-casing it again changes nothing |
| MethodOrder.SortMethods | src/java/apiview-java-processor/src/main/java/com/azure/tools/apiview/processor/analysers/ASTAnalyser.java:745-799 | constructors before methods before build methods; constructors by parameter count; build methods by stripped name alone |
| MethodOrder.OrdinaryMethodOrder | src/java/apiview-java-processor/src/main/java/com/azure/tools/apiview/processor/analysers/ASTAnalyser.java:788-798 | two ordinary methods compare by stripped name, then full name, then parameter count, and tie exactly on equal name and count |
| MethodOrder.RankOrder | src/java/apiview-java-processor/src/main/java/com/azure/tools/apiview/processor/analysers/ASTAnalyser.java:754-786 | a callable at or before another never has a later rank (constructor, method, build method) |
| MethodOrder.SortMethodsAntisymmetric | src/java/apiview-java-processor/src/main/java/com/azure/tools/apiview/processor/analysers/ASTAnalyser.java:745-799 | swapping the operands flips the sign and keeps ties |
| MethodOrder.SortMethodsTransitive | src/java/apiview-java-processor/src/main/java/com/azure/tools/apiview/processor/analysers/ASTAnalyser.java:745-799 | at-or-before is transitive |
| MethodOrder.SortMethodsTotalPreorder | src/java/apiview-java-processor/src/main/java/com/azure/tools/apiview/processor/analysers/ASTAnalyser.java:745-799 | the comparator is a total preorder, as `Stream.sorted` requires |
| MethodOrder.SortedCallablesOrder | src/java/apiview-java-processor/src/main/java/com/azure/tools/apiview/processor/analysers/ASTAnalyser.java:697 | the sorted callables are a permutation with constructors first, build methods last, constructors by non-decreasing parameter count |
| MethodOrder.MethodOrderExample | src/java/apiview-java-processor/src/main/java/com/azure/tools/apiview/processor/analysers/ASTAnalyser.java:767-798 | acquire, getName, setName, isReady, buildA compare in exactly that order |
| Sorting.SortBy | src/java/apiview-java-processor/src/main/java/com/azure/tools/apiview/processor/analysers/ASTAnalyser.java:697 | sorting keeps the same multiset of elements |
| Sorting.SortBySorted | src/java/apiview-java-processor/src/main/java/com/azure/tools/apiview/processor/analysers/ASTAnalyser.java:697 | under a total preorder the result is sorted |
| Sorting.InsertSorted | src/java/apiview-java-processor/src/main/java/com/azure/tools/apiview/processor/analysers/ASTAnalyser.java:697 | inserting into a sorted list keeps it sorted |
| Sorting.SortByStable | src/java/apiview-java-processor/src/main/java/com/azure/tools/apiview/processor/analysers/ASTAnalyser.java:697 | the sort is stable: the elements tied with any given element come out in their input order |
| Sorting.InsertTies | src/java/apiview-java-processor/src/main/java/com/azure/tools/apiview/processor/analysers/ASTAnalyser.java:697 | an element inserted into a sorted list goes after every element it ties with |
| MethodOrder.SortedCallablesStable | src/java/apiview-java-processor/src/main/java/com/azure/tools/apiview/processor/analysers/ASTAnalyser.java:697 | callables that `sortMethods` ties, such as overloads with the same parameter count, keep their declaration order |
| JavaStrings.CompareToAntisymmetric | src/java/apiview-java-processor/src/main/java/com/azure/tools/apiview/processor/analysers/ASTAnalyser.java:788 | `a.compareTo(b)` is minus `b.compareTo(a)` |
| JavaStrings.CompareToZero | src/java/apiview-java-processor/src/main/java/com/azure/tools/apiview/processor/analysers/ASTAnalyser.java:789 | `compareTo` answers 0 exactly for equal strings |
| JavaStrings.CompareToTransitive | src/java/apiview-java-processor/src/main/java/com/azure/tools/apiview/processor/analysers/ASTAnalyser.java:788 | at-or-before under `compareTo` is transitive |
| JavaStrings.CompareToPrefix | src/java/apiview-java-processor/src/main/java/com/azure/tools/apiview/processor/analysers/ASTAnalyser.java:778 | a proper prefix compares below the longer string |
| JavaStrings.Utf16Injective | src/java/apiview-java-processor/src/main/java/com/azure/tools/apiview/processor/analysers/ASTAnalyser.java:788-789 | different strings have different UTF-16 encodings, the code units `compareTo` compares |
| JavaStrings.Utf16Append | src/java/apiview-java-processor/src/main/java/com/azure/tools/apiview/processor/analysers/ASTAnalyser.java:788 | the encoding of a concatenation is the concatenation of the encodings |
| JavaStrings.CompareToStrictTransitive | src/java/apiview-java-processor/src/main/java/com/azure/tools/apiview/processor/analysers/ASTAnalyser.java:788 | strictly-before under `compareTo` is transitive |
| JavaStrings.CompareToFirstChar | src/java/apiview-java-processor/src/main/java/com/azure/tools/apiview/processor/analysers/ASTAnalyser.java:788 | strings whose first characters differ and lie below U+10000 compare as those characters do |
| JavaStrings.CompareToSurrogateOrder | src/java/apiview-java-processor/src/main/java/com/azure/tools/apiview/processor/analysers/ASTAnalyser.java:788 | U+1D41A compares below U+FF41 although its code point is larger, because `compareTo` sees its high surrogate |
| Declarations.VisibleCallables | src/java/apiview-java-processor/src/main/java/com/azure/tools/apiview/processor/analysers/ASTAnalyser.java:685-696 | keeps exactly the callables of an interface, or the non-private, non-package-private ones elsewhere |
| Declarations.ServiceGroup | src/java/apiview-java-processor/src/main/java/com/azure/tools/apiview/processor/analysers/ASTAnalyser.java:673-683 | the "Service Methods" group holds exactly the callables annotated ServiceMethod, the other group the rest |
| Analyser.ASTAnalyser.TokeniseConstructorsOrMethods | src/java/apiview-java-processor/src/main/java/com/azure/tools/apiview/processor/analysers/ASTAnalyser.java:646-743 | the all-private constructor comment alone, or the groups of the visible sorted callables, one indent deeper, indent restored |
| Analyser.ASTAnalyser.ShownCallables | src/java/apiview-java-processor/src/main/java/com/azure/tools/apiview/processor/analysers/ASTAnalyser.java:672-740 | groups only for methods of a ServiceClient type; visible callables sorted by `sortMethods` |
| Analyser.ASTAnalyser.TokeniseGroups | src/java/apiview-java-processor/src/main/java/com/azure/tools/apiview/processor/analysers/ASTAnalyser.java:699-740 | the groups one after the other |
| Analyser.ASTAnalyser.TokeniseGroup | src/java/apiview-java-processor/src/main/java/com/azure/tools/apiview/processor/analysers/ASTAnalyser.java:700-739 | a "// name:" comment line for a non-empty group when grouping, then its callables |
| Analyser.ASTAnalyser.TokeniseCallables | src/java/apiview-java-processor/src/main/java/com/azure/tools/apiview/processor/analysers/ASTAnalyser.java:706-739 | one line per callable, in group order |
| DeclarationLemmas.CallablesVisibility | src/java/apiview-java-processor/src/main/java/com/azure/tools/apiview/processor/analysers/ASTAnalyser.java:652-696 | the anchors opened are none for an all-private constructor list, else exactly the ids of the visible callables, whatever the grouping |
| DeclarationLemmas.GroupsOrdered | src/java/apiview-java-processor/src/main/java/com/azure/tools/apiview/processor/analysers/ASTAnalyser.java:685-699 | every group is sorted by `sortMethods`, and the groups together hold each visible callable exactly once |
| DeclarationLemmas.ServiceGroupSorted | src/java/apiview-java-processor/src/main/java/com/azure/tools/apiview/processor/analysers/ASTAnalyser.java:697-698 | a group taken from a sorted list is sorted |
| DeclarationLemmas.ServiceGroupPartition | src/java/apiview-java-processor/src/main/java/com/azure/tools/apiview/processor/analysers/ASTAnalyser.java:673-683 | the two service groups split the callables as a multiset |
| DeclarationLemmas.GroupsCover | src/java/apiview-java-processor/src/main/java/com/azure/tools/apiview/processor/analysers/ASTAnalyser.java:699-740 | grouped or not, the emitted groups open exactly the anchors of the sorted callables |
| Analyser.ASTAnalyser.AddDefaultConstructor | src/java/apiview-java-processor/src/main/java/com/azure/tools/apiview/processor/analysers/ASTAnalyser.java:1089-1100 | one line `public Name()` one indent deeper, the name anchored at makeId(name), indent restored |
| DeclarationLemmas.DefaultConstructorLine | src/java/apiview-java-processor/src/main/java/com/azure/tools/apiview/processor/analysers/ASTAnalyser.java:1089-1100 | the synthesised line opens only makeId(name) and names the type exactly once |
| Analyser.ASTAnalyser.ConstructorSection | src/java/apiview-java-processor/src/main/java/com/azure/tools/apiview/processor/analysers/ASTAnalyser.java:296-306 | no constructors: the default one for a class that is not an interface, enum or annotation, else nothing; otherwise the constructor listing |
| DeclarationLemmas.DefaultConstructor | src/java/apiview-java-processor/src/main/java/com/azure/tools/apiview/processor/analysers/ASTAnalyser.java:296-306 | without declared constructors, exactly one constructor named after the type is synthesised for a class that is not an interface, enum or annotation, and none otherwise |
| Analyser.ASTAnalyser.VisitClassOrInterfaceOrEnumDeclaration | src/java/apiview-java-processor/src/main/java/com/azure/tools/apiview/processor/analysers/ASTAnalyser.java:248-317 | raw annotations of a public annotation declaration, then nothing more for a type that is not a public API, else header, members, nested types and "}" |
| Analyser.ASTAnalyser.VisitRawAnnotations | src/java/apiview-java-processor/src/main/java/com/azure/tools/apiview/processor/analysers/ASTAnalyser.java:251-270 | only for a non-private, non-package-private annotation declaration, one indented KEYWORD line per annotation with a token range |
| Analyser.ASTAnalyser.TypeBody | src/java/apiview-java-processor/src/main/java/com/azure/tools/apiview/processor/analysers/ASTAnalyser.java:279-316 | members, nested types, then the indented "}" line |
| Analyser.ASTAnalyser.MemberDeclarations | src/java/apiview-java-processor/src/main/java/com/azure/tools/apiview/processor/analysers/ASTAnalyser.java:279-293 | enum constants for enums, annotation members for visible annotation declarations, then the fields |
| Analyser.ASTAnalyser.CloseTypeBody | src/java/apiview-java-processor/src/main/java/com/azure/tools/apiview/processor/analysers/ASTAnalyser.java:315-316 | indent, "}", a line break |
| Analyser.ASTAnalyser.TokeniseInnerClasses | src/java/apiview-java-processor/src/main/java/com/azure/tools/apiview/processor/analysers/ASTAnalyser.java:801-809 | each nested enum, class or interface visited one indent deeper, annotation declarations skipped |
| Analyser.ASTAnalyser.VisitModuleDeclaration | src/java/apiview-java-processor/src/main/java/com/azure/tools/apiview/processor/analysers/ASTAnalyser.java:319-411 | "module name {" anchored at "module-info", one indented line per directive, the closing "}" |
| Analyser.ASTAnalyser.Directive | src/java/apiview-java-processor/src/main/java/com/azure/tools/apiview/processor/analysers/ASTAnalyser.java:329-404 | the directive's keyword line, its name anchored at makeId("module-info-" + name) |
| Analyser.ASTAnalyser.RequiresDirective | src/java/apiview-java-processor/src/main/java/com/azure/tools/apiview/processor/analysers/ASTAnalyser.java:329-338 | "requires", "transitive" when transitive, the name, ";" |
| Analyser.ASTAnalyser.ExportsOrOpensDirective | src/java/apiview-java-processor/src/main/java/com/azure/tools/apiview/processor/analysers/ASTAnalyser.java:340-381 | "exports" or "opens", the name, " to " and the module names when there are any, ";" |
| Analyser.ASTAnalyser.UsesDirective | src/java/apiview-java-processor/src/main/java/com/azure/tools/apiview/processor/analysers/ASTAnalyser.java:383-387 | "uses", the name, ";" |
| Analyser.ASTAnalyser.ProvidesDirective | src/java/apiview-java-processor/src/main/java/com/azure/tools/apiview/processor/analysers/ASTAnalyser.java:389-404 | "provides", the name, "with", the names joined by ", ", ";" |
| Analyser.ASTAnalyser.NameList | src/java/apiview-java-processor/src/main/java/com/azure/tools/apiview/processor/analysers/ASTAnalyser.java:350-356 | the names joined by ", " with no trailing separator |
| DeclarationLemmas.ModuleDefs | src/java/apiview-java-processor/src/main/java/com/azure/tools/apiview/processor/analysers/ASTAnalyser.java:319-411 | a module opens exactly "module-info" and one anchor per directive name |
| DeclarationLemmas.DirectiveDefs | src/java/apiview-java-processor/src/main/java/com/azure/tools/apiview/processor/analysers/ASTAnalyser.java:329-404 | each directive opens exactly makeId("module-info-" + name) |
| Analyser.ASTAnalyser.Visit | src/java/apiview-java-processor/src/main/java/com/azure/tools/apiview/processor/analysers/ASTAnalyser.java:237-246 | the module declaration when present, then every top-level type |
| Analyser.ASTAnalyser.VisitTypes | src/java/apiview-java-processor/src/main/java/com/azure/tools/apiview/processor/analysers/ASTAnalyser.java:241-243 | the top-level types one after the other |
| Analyser.ASTAnalyser.ProcessPackage | src/java/apiview-java-processor/src/main/java/com/azure/tools/apiview/processor/analysers/ASTAnalyser.java:192-219 | "package", the name (TEXT "<root package>" when empty, else a TYPE_NAME anchored and linked at the name), "{", the units by primary type name one indent deeper, "}" |
| Analyser.ASTAnalyser.ProcessFiles | src/java/apiview-java-processor/src/main/java/com/azure/tools/apiview/processor/analysers/ASTAnalyser.java:212-214 | the units one after the other |
| Driver.SortUnitsOrdered | src/java/apiview-java-processor/src/main/java/com/azure/tools/apiview/processor/analysers/ASTAnalyser.java:212-214 | the units of a package are listed as a permutation ascending by primary type name |
| Driver.ComparePrimaryTypeNameTotalPreorder | src/java/apiview-java-processor/src/main/java/com/azure/tools/apiview/processor/analysers/ASTAnalyser.java:213 | comparing by primary type name is a total preorder |
| Driver.KeptFiles | src/java/apiview-java-processor/src/main/java/com/azure/tools/apiview/processor/analysers/ASTAnalyser.java:102-108 | keeps exactly the non-directory paths without "implementation" that end in ".java" |
| Driver.FileName | src/java/apiview-java-processor/src/main/java/com/azure/tools/apiview/processor/analysers/ASTAnalyser.java:173 | the last path component, which holds no "/" |
| Driver.ScannedUnits | src/java/apiview-java-processor/src/main/java/com/azure/tools/apiview/processor/analysers/ASTAnalyser.java:112-115 | exactly the parsed units of files that are not `package-info.java` |
| Driver.InsertKeyAscending | src/java/apiview-java-processor/src/main/java/com/azure/tools/apiview/processor/analysers/ASTAnalyser.java:116 | putting a key into a `TreeMap` key list keeps it strictly ascending |
| Driver.PackageKeysOrdered | src/java/apiview-java-processor/src/main/java/com/azure/tools/apiview/processor/analysers/ASTAnalyser.java:116 | packages come out strictly ascending by `compareTo`, each package of a unit once and no other |
| Driver.UnitsOf | src/java/apiview-java-processor/src/main/java/com/azure/tools/apiview/processor/analysers/ASTAnalyser.java:116 | a package's group holds exactly the units of that package |
| Analyser.ASTAnalyser.ProcessPackages | src/java/apiview-java-processor/src/main/java/com/azure/tools/apiview/processor/analysers/ASTAnalyser.java:116-117 | each package in key order with its units |
| Analyser.ASTAnalyser.Analyse | src/java/apiview-java-processor/src/main/java/com/azure/tools/apiview/processor/analysers/ASTAnalyser.java:100-118 | the kept files are indexed in order, then every package of their scanned units is emitted in key order; indent restored |
| Analyser.ASTAnalyser.ScanForTypes | src/java/apiview-java-processor/src/main/java/com/azure/tools/apiview/processor/analysers/ASTAnalyser.java:155-190 | a parsed file is indexed and handed on unless it is `package-info.java`; a file that failed to read yields nothing |
| Analyser.ASTAnalyser.ScanFiles | src/java/apiview-java-processor/src/main/java/com/azure/tools/apiview/processor/analysers/ASTAnalyser.java:112-115 | scanning the files in order indexes them all and hands on the scanned units |
| Analyser.ASTAnalyser.ScanForClassTypes | src/java/apiview-java-processor/src/main/java/com/azure/tools/apiview/processor/analysers/ASTAnalyser.java:1103-1121 | indexes the unit's types, then maps each qualified import to its qualifier; tokens untouched |
| Analyser.ASTAnalyser.BuildTypeHierarchyForNavigation | src/java/apiview-java-processor/src/main/java/com/azure/tools/apiview/processor/analysers/ASTAnalyser.java:1127-1151 | the maps change as the reference indexing says; tokens and indent untouched |
| Indexing.PackageOf | src/java/apiview-java-processor/src/main/java/com/azure/tools/apiview/processor/analysers/ASTAnalyser.java:1142 | `substring(0, lastIndexOf("."))`: the prefix before the last dot |
| JavaStrings.LastIndexOf | src/java/apiview-java-processor/src/main/java/com/azure/tools/apiview/processor/analysers/ASTAnalyser.java:1142 | the last position of the character, or -1 exactly when it is absent |
| Indexing.IndexTypeKeys | src/java/apiview-java-processor/src/main/java/com/azure/tools/apiview/processor/analysers/ASTAnalyser.java:1127-1151 | both maps gain exactly the names of the public types in the declaration and its nested enums, classes and interfaces |
| Indexing.IndexMembersKeys | src/java/apiview-java-processor/src/main/java/com/azure/tools/apiview/processor/analysers/ASTAnalyser.java:1148-1150 | the nested declarations add exactly their public type names |
| Indexing.IndexTypeOwnEntry | src/java/apiview-java-processor/src/main/java/com/azure/tools/apiview/processor/analysers/ASTAnalyser.java:1141-1145 | a public type maps to its id and to its package, unless a nested type of the same name overrides it |
| Indexing.IndexTypeUntouched | src/java/apiview-java-processor/src/main/java/com/azure/tools/apiview/processor/analysers/ASTAnalyser.java:1127-1151 | entries for other names keep their values |
| Indexing.IndexImportsEffect | src/java/apiview-java-processor/src/main/java/com/azure/tools/apiview/processor/analysers/ASTAnalyser.java:1115-1119 | imports leave the known types alone and add exactly the identifiers of qualified imports to the package map |

## Left out

- Parsing and file I/O are not modelled. The parsed compilation unit is an
  input, and so is the outcome of reading a file: a unit, or none when
  reading failed (the `IOException` path). `Files.isDirectory` is a flag of
  the input.
- Javadoc emission is not modelled. `SHOW_JAVADOC` is false, so
  `visitJavaDoc` emits nothing. That includes the package javadoc that
  `processPackage` looks up and the map `scanForTypes` fills for it.
- `Diagnostics.scan` is not part of this model.
- The navigation tree is not modelled: `ChildItem`, `parentNav`,
  `addChildItem`, and the module `ChildItem` that `ScanForClassTypeVisitor`
  adds.
- `makeId` on strings is a function-valued constant of the class.
  `makeId(node)`, `isTypeAPublicAPI`, `isInterfaceType`, `getPackageName`
  and `getFullyQualifiedName` are attributes of the input declarations. The
  ASTUtils helpers behind them are not part of this model.
  `isPrivateOrPackagePrivate` is modelled on the access specifier, as its
  name says.
- The order between the "Service Methods" and "Non-Service Methods" groups
  comes from a HashMap. It is the class constant `serviceGroupFirst`, not a
  proved order. The order inside each group is proved.
- `toString()` texts of expressions, modifiers, names and annotation token
  ranges are strings carried by the input.
- An annotation without a token range is `None`.
- The `System.err` messages for unknown types are not modelled. Such a type
  prints nothing (`OtherType`).
- `JavaStrings.ToLower`: lower-cases ASCII letters only, while Java's
  `toLowerCase` also maps non-ASCII letters and depends on the default
  locale.
- `TypePrinter.DfsTokens`: `getTypeDFS` casts every node with two or more
  children to `ClassOrInterfaceType` (lines 1064 and 1081). A node with two
  or more children that is not a class type, such as an annotated wildcard
  `@A ? extends T`, makes that cast throw `ClassCastException`. The model
  has no such failure: it prints the children with "." between them.
- `Declarations.KindName`: the keywords "class", "interface" and "enum"
  are what `TypeKind.getName()` is taken to return. `TypeKind` is not part
  of this model.
- `Indexing.IndexType`: the `substring(0, lastIndexOf("."))` at line 1142
  throws for a public type whose fully qualified name has no dot, that is a
  type in the unnamed package. The model requires a dot (`Indexable`)
  instead of modelling the exception.
- `Analyser.ASTAnalyser.Analyse`: requires every kept unit to be
  indexable, for the same reason.
- `addPackageTypeMapping` belongs to `APIListing`, which is not part of
  this model. It is modelled as setting the type-to-package map entry of
  the type to the package, because `getThrowException` reads that map back
  as type name to package name.
