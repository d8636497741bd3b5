/**
 * The rule that flags `rnd.nextInt() % n` on a `java.util.Random` and suggests
 * the bounded draw `rnd.nextInt(n)` instead, because the remainder of an
 * unbounded draw can be negative.
 *
 * Which receiver types descend from `java.util.Random` is a question for the
 * front end's type hierarchy: it is the parameter `onDescendantOf`, applied to the
 * invocation and the type name.  The other conditions of the matcher (an instance
 * method, named `nextInt`, declared with no parameters) are read off the
 * invocation's method symbol.
 */
module RandomModInteger {
  import opened Wrappers
  import opened Syntax
  import opened Diagnostics

  const CheckerName: string := "RandomModInteger"
  const Summary: string := "Use Random.nextInt(int).  Random.nextInt() % n can have negative results"
  const RandomType: TypeRef := "java.util.Random"

  type DescendantQuery = (Node, TypeRef) -> bool

  /** A binary expression: its kind is a binary operator and it has its two operands. */
  predicate IsBinaryTree(tree: Node)
  {
    tree.kind.Binary? && |tree.children| == 2
  }

  function LeftOperand(tree: Node): Node
    requires IsBinaryTree(tree)
  {
    tree.children[0]
  }

  function RightOperand(tree: Node): Node
    requires IsBinaryTree(tree)
  {
    tree.children[1]
  }

  /** The matcher RANDOM_NEXT_INT: an instance method on a descendant of Random, named nextInt, with no parameters. */
  predicate RandomNextInt(e: Node, onDescendantOf: DescendantQuery)
  {
    && e.sym.Some?
    && e.sym.value.kind.MethodSymbol?
    && !e.sym.value.kind.isStatic
    && onDescendantOf(e, RandomType)
    && e.sym.value.simpleName == "nextInt"
    && e.sym.value.kind.paramCount == 0
  }

  /** The receiver of an invocation: the qualifier of its method select, if it has one. */
  function Receiver(call: Node): Option<Node>
  {
    if |call.children| > 0 && call.children[0].kind == MemberSelect && |call.children[0].children| > 0 then
      Some(call.children[0].children[0])
    else
      None
  }

  /** The source text of a node; `String.format` renders a missing one as "null". */
  function SourceText(n: Node): string
  {
    match n.source
    case Some(s) => s
    case None => "null"
  }

  /** The text of the suggested call `<receiver>.nextInt(<modulus>)`. */
  function ReplacementText(receiver: Node, modulus: Node): string
  {
    SourceText(receiver) + ".nextInt(" + SourceText(modulus) + ")"
  }

  /** The condition of matchBinary. */
  predicate Fires(tree: Node, onDescendantOf: DescendantQuery)
    requires IsBinaryTree(tree)
  {
    && tree.kind == Binary(Remainder)
    && LeftOperand(tree).kind == MethodInvocation
    && RandomNextInt(LeftOperand(tree), onDescendantOf)
  }

  /**
   * matchBinary: on `rnd.nextInt() % m`, one ERROR description at the whole
   * expression, with the single fix that replaces the whole expression by
   * `rnd.nextInt(m)`; on anything else, no match.
   */
  function MatchBinary(tree: Node, onDescendantOf: DescendantQuery): (d: Description)
    requires IsBinaryTree(tree)
    requires Fires(tree, onDescendantOf) ==> Receiver(LeftOperand(tree)).Some?
    ensures tree.kind != Binary(Remainder) ==> d == NoMatch
    ensures LeftOperand(tree).kind != MethodInvocation || !RandomNextInt(LeftOperand(tree), onDescendantOf) ==> d == NoMatch
    ensures Fires(tree, onDescendantOf) ==> d.Match?
    ensures d.Match? ==>
      && d.checker == CheckerName && d.severity == Error && d.at == tree
      && |d.fixes| == 1 && d.fixes[0].target == tree && d.fixes[0].target != LeftOperand(tree)
      && d.fixes[0].replacement
         == SourceText(Receiver(LeftOperand(tree)).value) + ".nextInt(" + SourceText(RightOperand(tree)) + ")"
  {
    if Fires(tree, onDescendantOf) then
      var left := LeftOperand(tree);
      assert left in tree.children;
      var randomExpr := Receiver(left).value;
      var modulus := RightOperand(tree);
      Match(CheckerName, Error, Summary, tree, [Replace(tree, ReplacementText(randomExpr, modulus))])
    else
      NoMatch
  }

  /** `tree` with its right operand replaced by `modulus`. */
  function WithRightOperand(tree: Node, modulus: Node): (r: Node)
    requires IsBinaryTree(tree)
    ensures IsBinaryTree(r) && LeftOperand(r) == LeftOperand(tree) && RightOperand(r) == modulus
  {
    tree.(children := [LeftOperand(tree), modulus])
  }

  /**
   * The right operand is not inspected: whatever the modulus, the rule fires
   * exactly when it fires on the original, and the fix then passes the new
   * modulus's text.
   */
  lemma RightOperandNotInspected(tree: Node, modulus: Node, onDescendantOf: DescendantQuery)
    requires IsBinaryTree(tree)
    requires Fires(tree, onDescendantOf) ==> Receiver(LeftOperand(tree)).Some?
    ensures var t' := WithRightOperand(tree, modulus);
      && (Fires(t', onDescendantOf) ==> Receiver(LeftOperand(t')).Some?)
      && MatchBinary(t', onDescendantOf).Match? == MatchBinary(tree, onDescendantOf).Match?
      && (MatchBinary(t', onDescendantOf).Match? ==>
            MatchBinary(t', onDescendantOf).fixes[0].replacement
            == SourceText(Receiver(LeftOperand(tree)).value) + ".nextInt(" + SourceText(modulus) + ")")
  {
  }

  /** A call already resolved to a `nextInt` overload that takes a bound, as in `rnd.nextInt(10) % m`, never matches. */
  lemma BoundedCallNeverMatches(tree: Node, onDescendantOf: DescendantQuery)
    requires IsBinaryTree(tree)
    requires LeftOperand(tree).sym.Some? && LeftOperand(tree).sym.value.kind.MethodSymbol?
    requires LeftOperand(tree).sym.value.kind.paramCount > 0
    ensures MatchBinary(tree, onDescendantOf) == NoMatch
  {
  }

  /**
   * The replacement text splits back into its parts: the receiver's text, then
   * `.nextInt(`, then the modulus's text, then `)`.
   */
  lemma ReplacementTextParts(receiver: Node, modulus: Node)
    ensures var text, r, m := ReplacementText(receiver, modulus), SourceText(receiver), SourceText(modulus);
      && |text| == |r| + |m| + 10
      && text[..|r|] == r
      && text[|r|..|r| + 9] == ".nextInt("
      && text[|r| + 9..|text| - 1] == m
      && text[|text| - 1] == ')'
  {
    var text, r, m := ReplacementText(receiver, modulus), SourceText(receiver), SourceText(modulus);
    assert text == r + (".nextInt(" + m + ")");
    assert text[|r|..] == ".nextInt(" + m + ")";
    assert text[|r|..][9..|m| + 9] == m;
  }

  /**
   * The call the fix writes, `rnd.nextInt(m)`, once resolved to the one-argument
   * overload `nextInt(int)`.
   */
  function RewrittenCall(receiver: Node, modulus: Node): (call: Node)
    ensures call.kind == MethodInvocation && Receiver(call) == Some(receiver)
  {
    var bounded := Symbol("nextInt", MethodSymbol(1, false), "int");
    var select := Node(MemberSelect, [receiver], Some(bounded), None, false,
                       Some(SourceText(receiver) + ".nextInt"));
    Node(MethodInvocation, [select, modulus], Some(bounded), Some("int"), false,
         Some(ReplacementText(receiver, modulus)))
  }

  /**
   * The fix does not trigger the rule again: the rewritten call is no binary
   * expression, and even as the left operand of a further `%` it takes one
   * parameter and so does not match.
   */
  lemma RewriteNotRetriggered(tree: Node, onDescendantOf: DescendantQuery, outer: Node)
    requires IsBinaryTree(tree)
    requires Fires(tree, onDescendantOf) ==> Receiver(LeftOperand(tree)).Some?
    requires MatchBinary(tree, onDescendantOf).Match?
    requires IsBinaryTree(outer)
    requires LeftOperand(outer) == RewrittenCall(Receiver(LeftOperand(tree)).value, RightOperand(tree))
    ensures var call := RewrittenCall(Receiver(LeftOperand(tree)).value, RightOperand(tree));
      && !IsBinaryTree(call)
      && SourceText(call) == MatchBinary(tree, onDescendantOf).fixes[0].replacement
      && MatchBinary(outer, onDescendantOf) == NoMatch
  {
  }

  // ---------------------------------------------------------------------------
  // Two worked examples

  function Ident(name: string, sym: Symbol): Node
  {
    Node(Identifier, [], Some(sym), Some(sym.ty), false, Some(name))
  }

  /** `rng.nextInt(<args>)`, resolved to the overload with `params` parameters. */
  function NextIntCall(args: seq<Node>, params: nat): Node
  {
    var rng := Ident("rng", Symbol("rng", OtherSymbol, "java.util.Random"));
    var nextInt := Symbol("nextInt", MethodSymbol(params, false), "int");
    var select := Node(MemberSelect, [rng], Some(nextInt), None, false, Some("rng.nextInt"));
    Node(MethodInvocation, [select] + args, Some(nextInt), Some("int"), false, None)
  }

  function RemainderOf(left: Node, right: Node): Node
  {
    Node(Binary(Remainder), [left, right], None, Some("int"), false, None)
  }

  /** `rng.nextInt() % bound` gives one ERROR with replacement `rng.nextInt(bound)`; `rng.nextInt(10) % bound` gives none. */
  lemma Scenarios(onDescendantOf: DescendantQuery)
    requires onDescendantOf(NextIntCall([], 0), RandomType)
    ensures var bound := Ident("bound", Symbol("bound", OtherSymbol, "int"));
      && MatchBinary(RemainderOf(NextIntCall([], 0), bound), onDescendantOf)
         == Match(CheckerName, Error, Summary, RemainderOf(NextIntCall([], 0), bound),
                  [Replace(RemainderOf(NextIntCall([], 0), bound), "rng.nextInt(bound)")])
    ensures var bound := Ident("bound", Symbol("bound", OtherSymbol, "int"));
      var ten := Node(OtherKind, [], None, Some("int"), false, Some("10"));
      MatchBinary(RemainderOf(NextIntCall([ten], 1), bound), onDescendantOf) == NoMatch
  {
    var bound := Ident("bound", Symbol("bound", OtherSymbol, "int"));
    var rng := Receiver(NextIntCall([], 0)).value;
    assert SourceText(rng) == "rng" && SourceText(bound) == "bound";
    assert ReplacementText(rng, bound) == "rng.nextInt(bound)";
  }
}
