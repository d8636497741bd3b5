# Two Error Prone checks, modelled and proved in Dafny

This project models two bug checkers of Error Prone, a static analysis for Java
that runs on javac's resolved syntax trees.

- **AutoValueSubclassLeaked** looks at one compilation unit. Pass 1 collects the
  types of all classes annotated `@AutoValue`. Pass 2 walks the unit in pre-order
  and never enters a class that some tool generated. It warns at every identifier
  or member select that resolves to a class whose simple name starts with
  `AutoValue_` when that class's type is a subtype of none of the collected
  types. The checker aims to catch a generated `AutoValue_` class named outside
  the file that declares its base class. The test itself is weaker than that
  aim. It goes by the name prefix, so a hand-written `AutoValue_Helper` is
  reported too. It also compares against every collected type, so being a
  subtype of any `@AutoValue` class of the unit silences a reference.
- **RandomModInteger** matches a remainder `rnd.nextInt() % m`, where `nextInt`
  is the no-parameter instance method on a descendant of `java.util.Random`. It is
  an ERROR. Its one fix replaces the whole expression by `rnd.nextInt(m)`, built
  from the source text of the receiver and of the modulus.

Files:

- `wrappers.dfy`: `Option`.
- `syntax.dfy`: the resolved tree. Each node has a kind, ordered children, an
  optional symbol, an optional type, the `@AutoValue` flag and optional source
  text. A symbol has a simple name, a kind (class, method with its parameter
  count and staticness, other) and a type. The file also defines `Contains`,
  occurrence of one node inside another.
- `diagnostics.dfy`: severities, fixes and descriptions (`NoMatch` or a match
  located at a node). Also the `VisitorState` class, whose `ReportMatch` appends
  to the list of reports.
- `auto_value_subclass_leaked.dfy`: the first checker. The two scanners are
  recursive methods. Pass 1 appends to a set builder object. Pass 2 pushes
  reports into the visitor state. Each method is proved equal to a pure
  pre-order function (`AutoValueTypes`, `Reports`), and the lemmas state what
  those functions mean.
- `random_mod_integer.dfy`: the second checker, as pure functions, with lemmas.

The compiler queries the checkers call are parameters, and nothing is assumed
about them:

- `isSubtype` is `ASTHelpers.isSubtype`;
- `generatedBy` is `ASTHelpers.getGeneratedBy`;
- `onDescendantOf` is the receiver-type test of `Matchers.instanceMethod().onDescendantOf(..)`.

`hasAnnotation(.., AutoValue.class, ..)` is the node's `autoValue` flag.
`getSourceForNode` is the node's `source` field.

Subtyping is not assumed reflexive or transitive; neither checker relies on
that. A node with no source text puts `null` into the fix text:
`getSourceForNode` returns null, `String.format` renders it as `"null"`, and
`matchBinary` builds the fix anyway. `SourceText` models this.

## Model

| member | source | states |
|---|---|---|
| AutoValueSubclassLeaked.CollectAutoValueClasses | core/src/main/java/com/google/errorprone/bugpatterns/AutoValueSubclassLeaked.java:106-116 | the pass-1 scanner appends to the builder exactly the types of the annotated classes at and below the node, in pre-order; generated classes are entered too |
| AutoValueSubclassLeaked.FindAutoValueClasses | core/src/main/java/com/google/errorprone/bugpatterns/AutoValueSubclassLeaked.java:103-118 | the built set holds a type iff some class occurring anywhere in the unit, nested or generated ones included, is annotated `@AutoValue` and has that type |
| AutoValueSubclassLeaked.AutoValueTypesComplete | core/src/main/java/com/google/errorprone/bugpatterns/AutoValueSubclassLeaked.java:108-114 | a type is collected iff an annotated class of that type occurs somewhere in the tree (both directions) |
| AutoValueSubclassLeaked.CollectedEvenInsideGeneratedClass | core/src/main/java/com/google/errorprone/bugpatterns/AutoValueSubclassLeaked.java:106-116 | pass 1 prunes nothing: an annotated class nested inside a generated class still contributes its type |
| AutoValueSubclassLeaked.Handle | core/src/main/java/com/google/errorprone/bugpatterns/AutoValueSubclassLeaked.java:91-99 | `handle` reports the node, once and located at it, iff its symbol is a class whose simple name starts with `AutoValue_` and whose type is a subtype of no collected type; otherwise the state is unchanged |
| AutoValueSubclassLeaked.ScanReferences | core/src/main/java/com/google/errorprone/bugpatterns/AutoValueSubclassLeaked.java:69-100 | the pass-2 scanner appends exactly the pre-order reports of the subtree: nothing inside a generated class, and after an identifier or member select is handled its children are still scanned |
| AutoValueSubclassLeaked.ScanAndReportAutoValueReferences | core/src/main/java/com/google/errorprone/bugpatterns/AutoValueSubclassLeaked.java:65-101 | scanning the unit adds exactly the pass-2 reports of the whole unit to the state |
| AutoValueSubclassLeaked.MatchCompilationUnit | core/src/main/java/com/google/errorprone/bugpatterns/AutoValueSubclassLeaked.java:59-63 | always returns NoMatch; the state gains exactly the pass-2 reports computed against the types pass 1 found in the same unit |
| AutoValueSubclassLeaked.ReportsCharacterized | core/src/main/java/com/google/errorprone/bugpatterns/AutoValueSubclassLeaked.java:72-97 | a description is reported iff it is the warning at some node that pass 2 reaches (no generated class on the way) and that leaks |
| AutoValueSubclassLeaked.ReportedIff | core/src/main/java/com/google/errorprone/bugpatterns/AutoValueSubclassLeaked.java:93-97 | a node is reported iff pass 2 reaches it, it is an identifier or member select resolving to an `AutoValue_` class, and that class's type is a subtype of none of the collected types |
| AutoValueSubclassLeaked.ReportShape | core/src/main/java/com/google/errorprone/bugpatterns/AutoValueSubclassLeaked.java:79-97 | every report is this checker's WARNING with no fix, located at the referencing identifier or member select; that node resolves to an `AutoValue_`-prefixed class symbol |
| AutoValueSubclassLeaked.EmptyCollectionReportsEveryReference | core/src/main/java/com/google/errorprone/bugpatterns/AutoValueSubclassLeaked.java:95-97 | with nothing collected, every `AutoValue_` class reference outside generated classes is reported, and nothing else is |
| AutoValueSubclassLeaked.GeneratedChildContributesNothing | core/src/main/java/com/google/errorprone/bugpatterns/AutoValueSubclassLeaked.java:72-77 | removing a generated class from a list of siblings leaves the reports unchanged: nothing arises from it or its descendants |
| AutoValueSubclassLeaked.VisibleWithoutGeneratedClasses | core/src/main/java/com/google/errorprone/bugpatterns/AutoValueSubclassLeaked.java:72-77 | pass 2 reaches only nodes of the unit; in a unit without generated classes it reaches every node |
| AutoValueSubclassLeaked.SelectAndQualifierEachCheckedOnce | core/src/main/java/com/google/errorprone/bugpatterns/AutoValueSubclassLeaked.java:80-89 | in `AutoValue_Foo.create` the select is checked but not reported, and the inner identifier is reported exactly once; in `p.AutoValue_Foo` the select is reported exactly once |
| AutoValueSubclassLeaked.OwnUnitSilent | core/src/main/java/com/google/errorprone/bugpatterns/AutoValueSubclassLeaked.java:93-97 | a reference to `AutoValue_Foo` in the unit declaring `@AutoValue Foo` gives no report when `AutoValue_Foo` is a subtype of `Foo` |
| AutoValueSubclassLeaked.OtherUnitReported | core/src/main/java/com/google/errorprone/bugpatterns/AutoValueSubclassLeaked.java:93-97 | the same reference in a unit declaring no `@AutoValue` class gives exactly one report, at the reference |
| AutoValueSubclassLeaked.GeneratedClassSilent | core/src/main/java/com/google/errorprone/bugpatterns/AutoValueSubclassLeaked.java:72-77 | a generated class that refers to its own `AutoValue_` name gives no report whatever was collected |
| AutoValueSubclassLeaked.PrefixNotProvenanceDecides | core/src/main/java/com/google/errorprone/bugpatterns/AutoValueSubclassLeaked.java:93-94 | a reference to a hand-written class named `AutoValue_Helper` is reported: the test is the simple-name prefix, not who produced the class |
| AutoValueSubclassLeaked.AnyCollectedSupertypeSilences | core/src/main/java/com/google/errorprone/bugpatterns/AutoValueSubclassLeaked.java:95-96 | a reference whose type is a subtype of any collected type, even an unrelated `@AutoValue` base, gives no report |
| RandomModInteger.MatchBinary | core/src/main/java/com/google/errorprone/bugpatterns/RandomModInteger.java:46-61 | a match iff the node is a REMAINDER whose left operand is an invocation matching the nextInt matcher (both directions), NoMatch otherwise; a match is one ERROR description at the whole expression, with one fix whose target is the whole expression (not the left operand) and whose text is receiver source + `.nextInt(` + modulus source + `)` |
| RandomModInteger.RightOperandNotInspected | core/src/main/java/com/google/errorprone/bugpatterns/RandomModInteger.java:46-58 | replacing the modulus by any expression changes neither whether the checker fires nor anything of the fix but the modulus text |
| RandomModInteger.BoundedCallNeverMatches | core/src/main/java/com/google/errorprone/bugpatterns/RandomModInteger.java:39-43 | a left operand resolving to a method that declares parameters, as `rng.nextInt(10)`, never matches |
| RandomModInteger.ReplacementTextParts | core/src/main/java/com/google/errorprone/bugpatterns/RandomModInteger.java:56-58 | the replacement is exactly the receiver text, then `.nextInt(`, then the modulus text, then `)`; its length is their sum plus 10 |
| RandomModInteger.RewriteNotRetriggered | core/src/main/java/com/google/errorprone/bugpatterns/RandomModInteger.java:39-58 | the rewritten call `rnd.nextInt(m)`, resolved to the one-parameter overload, is no binary expression, its text is the fix's text, and it does not match even as the left operand of another `%` |
| RandomModInteger.Scenarios | core/src/main/java/com/google/errorprone/bugpatterns/RandomModInteger.java:46-61 | `rng.nextInt() % bound` gives one ERROR whose fix text is `rng.nextInt(bound)`; `rng.nextInt(10) % bound` gives NoMatch |

## Left out

- Suppression by `SuppressibleTreePathScanner` (for example `@SuppressWarnings`) is not modelled. That scanner is not part of this model, so its suppression logic is missing.
- The bodies of `isSubtype`, `getGeneratedBy` and the `onDescendantOf` test are not modelled. They live in library code that is not part of this model, so they are uninterpreted parameters. In particular, neither reflexivity nor transitivity of subtyping is assumed.
- IsAutoValueClass: an `@AutoValue` class that has no resolved type is skipped. The source would pass null to the set builder, which throws. javac always gives a class declaration a type.
- IsGeneratedClass: a class declaration without a resolved symbol counts as hand-written. The source would fail inside `getGeneratedBy`. javac always gives a class declaration a symbol.
- MatchBinary: requires that an invocation matching the nextInt matcher has a receiver. For an unqualified `nextInt()`, what `ASTHelpers.getReceiver` returns depends on library code that is not part of this model.
- The order in which javac's `TreeScanner` visits the fields of each kind of node is not modelled. The model visits a node's children in the order of its `children` sequence and leaves that order to the front end.
- Source spans are not modelled. A fix names the node whose whole span it replaces, and `getSourceForNode` is a per-node text field. Span lookup and the application of edits to a text buffer are not modelled.
- Most of the reporting plumbing is not modelled. A description records the checker name, its severity, its summary message, the node and the fixes. The `explanation` text, links and the rest of the `@BugPattern` metadata are left out.
- Error Prone's driver is not modelled: running several units, in parallel or in sequence. Neither file contains it.
