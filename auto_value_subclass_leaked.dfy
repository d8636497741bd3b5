/**
 * The rule that flags references to a generated `AutoValue_` class from outside
 * the compilation unit that declares its `@AutoValue` base class.
 *
 * Pass 1 walks every class of the unit, generated ones and nested ones included,
 * and collects the types of the classes annotated `@AutoValue`.  Pass 2 walks the
 * unit again in pre-order, never enters a class that some tool generated, and
 * reports every identifier or member select that resolves to a class whose simple
 * name starts with `AutoValue_` and whose type is a subtype of none of the
 * collected types.
 *
 * The compiler queries the rule relies on are parameters: `isSubtype` is the
 * subtype relation of the front end, about which nothing is assumed, and
 * `generatedBy` gives the (possibly empty) set of generators that produced a
 * symbol.
 */
module AutoValueSubclassLeaked {
  import opened Wrappers
  import opened Syntax
  import opened Diagnostics

  const CheckerName: string := "AutoValueSubclassLeaked"
  const Summary: string :=
    "Do not refer to the autogenerated AutoValue_ class outside the file containing the"
    + " corresponding @AutoValue base class."
  const GeneratedPrefix: string := "AutoValue_"

  type SubtypeQuery = (TypeRef, TypeRef) -> bool
  type GeneratedByQuery = Symbol -> set<string>

  // ---------------------------------------------------------------------------
  // Pass 1: collecting the @AutoValue classes of the unit

  /** A class declaration annotated `@AutoValue` whose type the front end resolved. */
  predicate IsAutoValueClass(n: Node)
  {
    n.kind == ClassDecl && n.autoValue && n.ty.Some?
  }

  /** The types pass 1 adds, in the order a pre-order walk meets their classes. */
  function AutoValueTypes(n: Node): seq<TypeRef>
  {
    (if IsAutoValueClass(n) then [n.ty.value] else []) + AutoValueTypesOf(n.children)
  }

  function AutoValueTypesOf(ns: seq<Node>): seq<TypeRef>
  {
    if ns == [] then [] else AutoValueTypesOf(ns[..|ns| - 1]) + AutoValueTypes(ns[|ns| - 1])
  }

  /** The set pass 1 builds for the unit `tree`. */
  function FoundTypes(tree: Node): set<TypeRef>
  {
    set ty | ty in AutoValueTypes(tree)
  }

  /** The set builder pass 1 appends to. */
  class TypeSetBuilder {
    var elems: seq<TypeRef>

    constructor ()
      ensures elems == []
    {
      elems := [];
    }

    method Add(ty: TypeRef)
      modifies this
      ensures elems == old(elems) + [ty]
    {
      elems := elems + [ty];
    }

    function Build(): set<TypeRef>
      reads this
    {
      set ty | ty in elems
    }
  }

  /** The scanner of pass 1, visiting `n` and everything below it; it prunes nothing. */
  method CollectAutoValueClasses(n: Node, types: TypeSetBuilder)
    modifies types
    ensures types.elems == old(types.elems) + AutoValueTypes(n)
  {
    if IsAutoValueClass(n) {
      types.Add(n.ty.value);
    }
    ghost var own := if IsAutoValueClass(n) then [n.ty.value] else [];
    var i := 0;
    while i < |n.children|
      invariant 0 <= i <= |n.children|
      invariant types.elems == old(types.elems) + own + AutoValueTypesOf(n.children[..i])
    {
      assert n.children[..i + 1][..i] == n.children[..i];
      CollectAutoValueClasses(n.children[i], types);
      i := i + 1;
    }
    assert n.children[..i] == n.children;
  }

  /** Pass 1 on a whole unit: the types of every `@AutoValue` class anywhere in it. */
  method FindAutoValueClasses(tree: Node) returns (found: set<TypeRef>)
    ensures found == FoundTypes(tree)
    ensures forall ty :: ty in found <==>
      exists c :: Contains(tree, c) && IsAutoValueClass(c) && c.ty == Some(ty)
  {
    var types := new TypeSetBuilder();
    CollectAutoValueClasses(tree, types);
    found := types.Build();
    forall ty
      ensures ty in found <==> exists c :: Contains(tree, c) && IsAutoValueClass(c) && c.ty == Some(ty)
    {
      AutoValueTypesComplete(tree, ty);
    }
  }

  // ---------------------------------------------------------------------------
  // Pass 2: reporting leaked references

  /** A class declaration whose symbol some generator produced; pass 2 does not enter it. */
  predicate IsGeneratedClass(n: Node, generatedBy: GeneratedByQuery)
  {
    n.kind == ClassDecl && n.sym.Some? && generatedBy(n.sym.value) != {}
  }

  /** The symbol is a class whose simple name carries the generated prefix. */
  predicate IsAutoValueClassSymbol(sym: Option<Symbol>)
  {
    sym.Some? && sym.value.kind == ClassSymbol && StartsWith(sym.value.simpleName, GeneratedPrefix)
  }

  /** The condition under which `handle` reports the node it is given. */
  predicate HandleReports(n: Node, found: set<TypeRef>, isSubtype: SubtypeQuery)
  {
    IsAutoValueClassSymbol(n.sym) && forall av :: av in found ==> !isSubtype(n.sym.value.ty, av)
  }

  /** An identifier or member select resolving to an `AutoValue_` class. */
  predicate IsAutoValueReference(n: Node)
  {
    (n.kind == Identifier || n.kind == MemberSelect) && IsAutoValueClassSymbol(n.sym)
  }

  /** A node pass 2 hands to `handle` and reports. */
  predicate Leaks(n: Node, found: set<TypeRef>, isSubtype: SubtypeQuery)
  {
    (n.kind == Identifier || n.kind == MemberSelect) && HandleReports(n, found, isSubtype)
  }

  /** The description of a leak: this rule's warning, located at the referencing node. */
  function LeakAt(n: Node): Description
  {
    Match(CheckerName, Warning, Summary, n, [])
  }

  /** The reports pass 2 emits for `n`, in the order it emits them. */
  function Reports(n: Node, found: set<TypeRef>, isSubtype: SubtypeQuery, generatedBy: GeneratedByQuery)
    : seq<Description>
  {
    if IsGeneratedClass(n, generatedBy) then
      []
    else
      (if Leaks(n, found, isSubtype) then [LeakAt(n)] else [])
      + ReportsOf(n.children, found, isSubtype, generatedBy)
  }

  function ReportsOf(ns: seq<Node>, found: set<TypeRef>, isSubtype: SubtypeQuery, generatedBy: GeneratedByQuery)
    : seq<Description>
  {
    if ns == [] then
      []
    else
      ReportsOf(ns[..|ns| - 1], found, isSubtype, generatedBy)
      + Reports(ns[|ns| - 1], found, isSubtype, generatedBy)
  }

  /** An occurrence of `c` in `t` that pass 2 reaches: no generated class on the way, `c` included. */
  predicate Visible(t: Node, c: Node, generatedBy: GeneratedByQuery)
  {
    !IsGeneratedClass(t, generatedBy)
    && (t == c || exists i :: 0 <= i < |t.children| && Visible(t.children[i], c, generatedBy))
  }

  /** `handle`: report `n` if it refers to an `AutoValue_` class that is no subtype of a collected type. */
  method Handle(n: Node, found: set<TypeRef>, isSubtype: SubtypeQuery, state: VisitorState)
    modifies state
    ensures state.reports == old(state.reports) + (if HandleReports(n, found, isSubtype) then [LeakAt(n)] else [])
  {
    var sym := n.sym;
    if sym.Some? && sym.value.kind == ClassSymbol && StartsWith(sym.value.simpleName, GeneratedPrefix)
      && forall av :: av in found ==> !isSubtype(sym.value.ty, av)
    {
      state.ReportMatch(LeakAt(n));
    }
  }

  /**
   * The scanner of pass 2 at `n`: a generated class ends the walk there; an
   * identifier or member select is handled and its children are still scanned.
   */
  method ScanReferences(n: Node, found: set<TypeRef>, isSubtype: SubtypeQuery,
                        generatedBy: GeneratedByQuery, state: VisitorState)
    modifies state
    ensures state.reports == old(state.reports) + Reports(n, found, isSubtype, generatedBy)
  {
    if n.kind == ClassDecl && n.sym.Some? && generatedBy(n.sym.value) != {} {
      return;
    }
    if n.kind == Identifier || n.kind == MemberSelect {
      Handle(n, found, isSubtype, state);
    }
    ghost var own := if Leaks(n, found, isSubtype) then [LeakAt(n)] else [];
    var i := 0;
    while i < |n.children|
      invariant 0 <= i <= |n.children|
      invariant state.reports == old(state.reports) + own + ReportsOf(n.children[..i], found, isSubtype, generatedBy)
    {
      assert n.children[..i + 1][..i] == n.children[..i];
      ScanReferences(n.children[i], found, isSubtype, generatedBy, state);
      i := i + 1;
    }
    assert n.children[..i] == n.children;
  }

  /** Pass 2 on a whole unit. */
  method ScanAndReportAutoValueReferences(tree: Node, found: set<TypeRef>, isSubtype: SubtypeQuery,
                                           generatedBy: GeneratedByQuery, state: VisitorState)
    modifies state
    ensures state.reports == old(state.reports) + Reports(tree, found, isSubtype, generatedBy)
  {
    ScanReferences(tree, found, isSubtype, generatedBy, state);
  }

  /** The rule's entry point: both passes; every finding goes to `state`, the result is always NoMatch. */
  method MatchCompilationUnit(tree: Node, isSubtype: SubtypeQuery, generatedBy: GeneratedByQuery,
                              state: VisitorState) returns (d: Description)
    modifies state
    ensures d == NoMatch
    ensures state.reports == old(state.reports) + Reports(tree, FoundTypes(tree), isSubtype, generatedBy)
  {
    var found := FindAutoValueClasses(tree);
    ScanAndReportAutoValueReferences(tree, found, isSubtype, generatedBy, state);
    d := NoMatch;
  }

  // ---------------------------------------------------------------------------
  // Properties of pass 1

  /** Pass 1 finds the type of every `@AutoValue` class occurring anywhere in `t`, and nothing else. */
  lemma {:induction false} AutoValueTypesComplete(t: Node, ty: TypeRef)
    ensures ty in AutoValueTypes(t) <==> exists c :: Contains(t, c) && IsAutoValueClass(c) && c.ty == Some(ty)
  {
    AutoValueTypesOfComplete(t.children, ty);
    if ty in AutoValueTypes(t) {
      if IsAutoValueClass(t) && t.ty == Some(ty) {
        assert Contains(t, t);
      } else {
        var i, c :| 0 <= i < |t.children| && Contains(t.children[i], c) && IsAutoValueClass(c) && c.ty == Some(ty);
        assert Contains(t, c);
      }
    }
    if exists c :: Contains(t, c) && IsAutoValueClass(c) && c.ty == Some(ty) {
      var c :| Contains(t, c) && IsAutoValueClass(c) && c.ty == Some(ty);
      if t != c {
        var i :| 0 <= i < |t.children| && Contains(t.children[i], c);
        assert ty in AutoValueTypesOf(t.children);
      }
    }
  }

  lemma {:induction false} AutoValueTypesOfComplete(ns: seq<Node>, ty: TypeRef)
    ensures ty in AutoValueTypesOf(ns) <==>
      exists i, c :: 0 <= i < |ns| && Contains(ns[i], c) && IsAutoValueClass(c) && c.ty == Some(ty)
  {
    if ns != [] {
      var init, last := ns[..|ns| - 1], ns[|ns| - 1];
      AutoValueTypesOfComplete(init, ty);
      AutoValueTypesComplete(last, ty);
      if exists i, c :: 0 <= i < |ns| && Contains(ns[i], c) && IsAutoValueClass(c) && c.ty == Some(ty) {
        var i, c :| 0 <= i < |ns| && Contains(ns[i], c) && IsAutoValueClass(c) && c.ty == Some(ty);
        if i < |ns| - 1 {
          assert init[i] == ns[i];
        }
      }
      if ty in AutoValueTypesOf(init) {
        var i, c :| 0 <= i < |init| && Contains(init[i], c) && IsAutoValueClass(c) && c.ty == Some(ty);
        assert ns[i] == init[i];
      }
    }
  }

  /** Occurrence is transitive. */
  lemma {:induction false} ContainsTransitive(t: Node, m: Node, c: Node)
    requires Contains(t, m) && Contains(m, c)
    ensures Contains(t, c)
  {
    if t != m {
      var i :| 0 <= i < |t.children| && Contains(t.children[i], m);
      ContainsTransitive(t.children[i], m, c);
    }
  }

  /**
   * Pass 1 prunes nothing: an `@AutoValue` class nested anywhere, even inside a
   * generated class, still contributes its type.
   */
  lemma CollectedEvenInsideGeneratedClass(t: Node, g: Node, c: Node, generatedBy: GeneratedByQuery)
    requires Contains(t, g) && IsGeneratedClass(g, generatedBy)
    requires Contains(g, c) && IsAutoValueClass(c)
    ensures c.ty.value in FoundTypes(t)
  {
    ContainsTransitive(t, g, c);
    AutoValueTypesComplete(t, c.ty.value);
  }

  // ---------------------------------------------------------------------------
  // Properties of pass 2

  /** Every report of pass 2 is a leak at a node it reaches, and every such leak is reported. */
  lemma {:induction false} ReportsCharacterized(t: Node, found: set<TypeRef>, isSubtype: SubtypeQuery,
                                                generatedBy: GeneratedByQuery, d: Description)
    ensures d in Reports(t, found, isSubtype, generatedBy) <==>
      exists c :: Visible(t, c, generatedBy) && Leaks(c, found, isSubtype) && d == LeakAt(c)
  {
    if !IsGeneratedClass(t, generatedBy) {
      ReportsOfCharacterized(t.children, found, isSubtype, generatedBy, d);
      if d in Reports(t, found, isSubtype, generatedBy) {
        if Leaks(t, found, isSubtype) && d == LeakAt(t) {
          assert Visible(t, t, generatedBy);
        } else {
          var i, c :| 0 <= i < |t.children| && Visible(t.children[i], c, generatedBy)
            && Leaks(c, found, isSubtype) && d == LeakAt(c);
          assert Visible(t, c, generatedBy);
        }
      }
      if exists c :: Visible(t, c, generatedBy) && Leaks(c, found, isSubtype) && d == LeakAt(c) {
        var c :| Visible(t, c, generatedBy) && Leaks(c, found, isSubtype) && d == LeakAt(c);
        if t != c {
          var i :| 0 <= i < |t.children| && Visible(t.children[i], c, generatedBy);
          assert d in ReportsOf(t.children, found, isSubtype, generatedBy);
        }
      }
    }
  }

  lemma {:induction false} ReportsOfCharacterized(ns: seq<Node>, found: set<TypeRef>, isSubtype: SubtypeQuery,
                                                  generatedBy: GeneratedByQuery, d: Description)
    ensures d in ReportsOf(ns, found, isSubtype, generatedBy) <==>
      exists i, c :: 0 <= i < |ns| && Visible(ns[i], c, generatedBy) && Leaks(c, found, isSubtype) && d == LeakAt(c)
  {
    if ns != [] {
      var init, last := ns[..|ns| - 1], ns[|ns| - 1];
      ReportsOfCharacterized(init, found, isSubtype, generatedBy, d);
      ReportsCharacterized(last, found, isSubtype, generatedBy, d);
      if exists i, c :: 0 <= i < |ns| && Visible(ns[i], c, generatedBy) && Leaks(c, found, isSubtype) && d == LeakAt(c) {
        var i, c :| 0 <= i < |ns| && Visible(ns[i], c, generatedBy) && Leaks(c, found, isSubtype) && d == LeakAt(c);
        if i < |ns| - 1 {
          assert init[i] == ns[i];
        }
      }
      if d in ReportsOf(init, found, isSubtype, generatedBy) {
        var i, c :| 0 <= i < |init| && Visible(init[i], c, generatedBy) && Leaks(c, found, isSubtype) && d == LeakAt(c);
        assert ns[i] == init[i];
      }
    }
  }

  /**
   * A node `c` is reported iff pass 2 reaches an occurrence of it, it is an
   * identifier or member select resolving to an `AutoValue_` class, and that
   * class's type is a subtype of none of the collected types.
   */
  lemma ReportedIff(t: Node, found: set<TypeRef>, isSubtype: SubtypeQuery, generatedBy: GeneratedByQuery, c: Node)
    ensures LeakAt(c) in Reports(t, found, isSubtype, generatedBy) <==>
      Visible(t, c, generatedBy) && IsAutoValueReference(c)
      && forall av :: av in found ==> !isSubtype(c.sym.value.ty, av)
  {
    ReportsCharacterized(t, found, isSubtype, generatedBy, LeakAt(c));
  }

  /** Each report is this rule's warning, located at an `AutoValue_` reference pass 2 reaches, with no fix. */
  lemma ReportShape(t: Node, found: set<TypeRef>, isSubtype: SubtypeQuery, generatedBy: GeneratedByQuery, d: Description)
    requires d in Reports(t, found, isSubtype, generatedBy)
    ensures d.Match? && d.checker == CheckerName && d.severity == Warning && d.fixes == []
    ensures Visible(t, d.at, generatedBy) && IsAutoValueReference(d.at)
    ensures d.at.kind == Identifier || d.at.kind == MemberSelect
    ensures d.at.sym.value.kind == ClassSymbol && StartsWith(d.at.sym.value.simpleName, GeneratedPrefix)
  {
    ReportsCharacterized(t, found, isSubtype, generatedBy, d);
  }

  /** With nothing collected, every `AutoValue_` reference pass 2 reaches is reported, and only those. */
  lemma EmptyCollectionReportsEveryReference(t: Node, isSubtype: SubtypeQuery, generatedBy: GeneratedByQuery, c: Node)
    ensures LeakAt(c) in Reports(t, {}, isSubtype, generatedBy) <==>
      Visible(t, c, generatedBy) && IsAutoValueReference(c)
  {
    ReportedIff(t, {}, isSubtype, generatedBy, c);
  }

  /** A generated class contributes no report at all, wherever it stands among its siblings. */
  lemma {:induction false} GeneratedChildContributesNothing(ns: seq<Node>, i: nat, found: set<TypeRef>,
                                                           isSubtype: SubtypeQuery, generatedBy: GeneratedByQuery)
    requires i < |ns| && IsGeneratedClass(ns[i], generatedBy)
    ensures ReportsOf(ns, found, isSubtype, generatedBy) == ReportsOf(ns[..i] + ns[i + 1..], found, isSubtype, generatedBy)
  {
    assert ns == (ns[..i] + [ns[i]]) + ns[i + 1..];
    ReportsOfAppend(ns[..i] + [ns[i]], ns[i + 1..], found, isSubtype, generatedBy);
    ReportsOfAppend(ns[..i], ns[i + 1..], found, isSubtype, generatedBy);
    assert (ns[..i] + [ns[i]])[..i] == ns[..i];
  }

  lemma {:induction false} ReportsOfAppend(a: seq<Node>, b: seq<Node>, found: set<TypeRef>,
                                           isSubtype: SubtypeQuery, generatedBy: GeneratedByQuery)
    ensures ReportsOf(a + b, found, isSubtype, generatedBy)
      == ReportsOf(a, found, isSubtype, generatedBy) + ReportsOf(b, found, isSubtype, generatedBy)
  {
    if b == [] {
      assert a + b == a;
    } else {
      assert (a + b)[..|a + b| - 1] == a + b[..|b| - 1];
      ReportsOfAppend(a, b[..|b| - 1], found, isSubtype, generatedBy);
    }
  }

  /** Pass 2 reaches only nodes of the unit, and in a unit without generated classes it reaches all of them. */
  lemma {:induction false} VisibleWithoutGeneratedClasses(t: Node, c: Node, generatedBy: GeneratedByQuery)
    ensures Visible(t, c, generatedBy) ==> Contains(t, c)
    ensures (forall g :: Contains(t, g) ==> !IsGeneratedClass(g, generatedBy)) ==>
      (Visible(t, c, generatedBy) <==> Contains(t, c))
  {
    assert Contains(t, t);
    forall i | 0 <= i < |t.children|
      ensures Visible(t.children[i], c, generatedBy) ==> Contains(t.children[i], c)
      ensures (forall g :: Contains(t, g) ==> !IsGeneratedClass(g, generatedBy)) ==>
        (Visible(t.children[i], c, generatedBy) <==> Contains(t.children[i], c))
    {
      VisibleWithoutGeneratedClasses(t.children[i], c, generatedBy);
      forall g | Contains(t.children[i], g) ensures Contains(t, g) {
        assert Contains(t, t.children[i]);
        ContainsTransitive(t, t.children[i], g);
      }
    }
  }

  // ---------------------------------------------------------------------------
  // Scenarios

  /** The generated class `p.AutoValue_Foo` as a symbol, and an identifier naming it. */
  function GeneratedFooSymbol(): Symbol
  {
    Symbol("AutoValue_Foo", ClassSymbol, "p.AutoValue_Foo")
  }

  function GeneratedFooRef(): Node
  {
    Node(Identifier, [], Some(GeneratedFooSymbol()), Some("p.AutoValue_Foo"), false, Some("AutoValue_Foo"))
  }

  /**
   * In `AutoValue_Foo.create` both the select and the inner identifier are
   * checked; the select resolves to a method and is not reported, the identifier
   * is reported once.  In `p.AutoValue_Foo` it is the select that resolves to the
   * class, and it is reported once.
   */
  lemma SelectAndQualifierEachCheckedOnce(isSubtype: SubtypeQuery, generatedBy: GeneratedByQuery)
    ensures var create := Node(MemberSelect, [GeneratedFooRef()],
                               Some(Symbol("create", MethodSymbol(0, true), "p.Foo")), None, false,
                               Some("AutoValue_Foo.create"));
      Reports(create, {}, isSubtype, generatedBy) == [LeakAt(GeneratedFooRef())]
    ensures var pkg := Node(Identifier, [], Some(Symbol("p", OtherSymbol, "p")), None, false, Some("p"));
      var qualified := Node(MemberSelect, [pkg], Some(GeneratedFooSymbol()), Some("p.AutoValue_Foo"), false,
                            Some("p.AutoValue_Foo"));
      Reports(qualified, {}, isSubtype, generatedBy) == [LeakAt(qualified)]
  {
    assert StartsWith("AutoValue_Foo", GeneratedPrefix);
    assert !StartsWith("create", GeneratedPrefix);
    var pkg := Node(Identifier, [], Some(Symbol("p", OtherSymbol, "p")), None, false, Some("p"));
    assert [pkg][..0] == [] && [GeneratedFooRef()][..0] == [];
    assert ReportsOf([pkg], {}, isSubtype, generatedBy) == Reports(pkg, {}, isSubtype, generatedBy) == [];
  }

  /** A unit declaring `@AutoValue class Foo` (or a plain `name`) around a reference to `AutoValue_Foo`. */
  function UnitWith(autoValue: bool, name: string, ty: TypeRef): Node
  {
    Node(CompilationUnit, [DeclWith(autoValue, name, ty)], None, None, false, None)
  }

  function DeclWith(autoValue: bool, name: string, ty: TypeRef): Node
  {
    Node(ClassDecl, [GeneratedFooRef()], Some(Symbol(name, ClassSymbol, ty)), Some(ty), autoValue, None)
  }

  /** Inside `Foo`'s own unit, the reference is silent when `AutoValue_Foo` is a subtype of `Foo`. */
  lemma OwnUnitSilent(isSubtype: SubtypeQuery, generatedBy: GeneratedByQuery)
    requires isSubtype("p.AutoValue_Foo", "p.Foo")
    requires generatedBy(Symbol("Foo", ClassSymbol, "p.Foo")) == {}
    ensures Reports(UnitWith(true, "Foo", "p.Foo"), FoundTypes(UnitWith(true, "Foo", "p.Foo")), isSubtype, generatedBy) == []
  {
    var ref, decl := GeneratedFooRef(), DeclWith(true, "Foo", "p.Foo");
    assert [ref][..0] == [] && [decl][..0] == [];
    assert AutoValueTypesOf([ref]) == AutoValueTypes(ref) == [];
    assert AutoValueTypes(decl) == ["p.Foo"];
    assert AutoValueTypesOf([decl]) == ["p.Foo"];
    assert FoundTypes(UnitWith(true, "Foo", "p.Foo")) == {"p.Foo"};
    assert ReportsOf([ref], {"p.Foo"}, isSubtype, generatedBy) == Reports(ref, {"p.Foo"}, isSubtype, generatedBy) == [];
    assert ReportsOf([decl], {"p.Foo"}, isSubtype, generatedBy) == Reports(decl, {"p.Foo"}, isSubtype, generatedBy);
  }

  /** From a unit that declares only `Bar`, which `AutoValue_Foo` does not extend, the reference is reported exactly once. */
  lemma OtherUnitReported(isSubtype: SubtypeQuery, generatedBy: GeneratedByQuery)
    requires generatedBy(Symbol("Bar", ClassSymbol, "p.Bar")) == {}
    ensures Reports(UnitWith(false, "Bar", "p.Bar"), FoundTypes(UnitWith(false, "Bar", "p.Bar")), isSubtype, generatedBy)
      == [LeakAt(GeneratedFooRef())]
  {
    var ref, decl := GeneratedFooRef(), DeclWith(false, "Bar", "p.Bar");
    assert StartsWith("AutoValue_Foo", GeneratedPrefix);
    assert [ref][..0] == [] && [decl][..0] == [];
    assert AutoValueTypesOf([ref]) == AutoValueTypes(ref) == [];
    assert AutoValueTypesOf([decl]) == AutoValueTypes(decl) == [];
    assert FoundTypes(UnitWith(false, "Bar", "p.Bar")) == {};
    assert ReportsOf([ref], {}, isSubtype, generatedBy) == Reports(ref, {}, isSubtype, generatedBy) == [LeakAt(ref)];
    assert ReportsOf([decl], {}, isSubtype, generatedBy) == Reports(decl, {}, isSubtype, generatedBy);
  }

  /** The generated class itself, referring to its own name, gives no report. */
  lemma GeneratedClassSilent(isSubtype: SubtypeQuery, generatedBy: GeneratedByQuery, found: set<TypeRef>)
    requires generatedBy(GeneratedFooSymbol()) != {}
    ensures var decl := Node(ClassDecl, [GeneratedFooRef()], Some(GeneratedFooSymbol()), Some("p.AutoValue_Foo"),
                             false, None);
      Reports(Node(CompilationUnit, [decl], None, None, false, None), found, isSubtype, generatedBy) == []
  {
    var decl := Node(ClassDecl, [GeneratedFooRef()], Some(GeneratedFooSymbol()), Some("p.AutoValue_Foo"), false, None);
    assert [decl][..0] == [];
    assert IsGeneratedClass(decl, generatedBy);
    assert ReportsOf([decl], found, isSubtype, generatedBy) == Reports(decl, found, isSubtype, generatedBy) == [];
  }

  /** The test goes by name: a reference to a hand-written class called `AutoValue_Helper` is reported too. */
  lemma PrefixNotProvenanceDecides(isSubtype: SubtypeQuery, generatedBy: GeneratedByQuery)
    ensures var helper := Node(Identifier, [], Some(Symbol("AutoValue_Helper", ClassSymbol, "p.AutoValue_Helper")),
                               Some("p.AutoValue_Helper"), false, Some("AutoValue_Helper"));
      Reports(helper, {}, isSubtype, generatedBy) == [LeakAt(helper)]
  {
    assert StartsWith("AutoValue_Helper", GeneratedPrefix);
  }

  /** Any collected type silences a reference whose type is its subtype, even an unrelated `@AutoValue` base. */
  lemma AnyCollectedSupertypeSilences(isSubtype: SubtypeQuery, generatedBy: GeneratedByQuery)
    requires isSubtype("p.AutoValue_Foo", "p.Base")
    ensures Reports(GeneratedFooRef(), {"p.Base"}, isSubtype, generatedBy) == []
  {
  }
}
