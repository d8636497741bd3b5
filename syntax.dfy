/**
 * The resolved syntax tree both rules read: a node kind, the ordered children,
 * the symbol and type the front end attached, whether the declaration carries
 * the AutoValue annotation, and the node's source text.
 */
module Syntax {
  import opened Wrappers

  /** A type, named by its fully qualified name. */
  type TypeRef = string

  /** The kinds of symbol the two rules tell apart. */
  datatype SymbolKind =
    | ClassSymbol
    | MethodSymbol(paramCount: nat, isStatic: bool)
    | OtherSymbol

  /** A resolved symbol: its simple name, its kind and the type it declares or has. */
  datatype Symbol = Symbol(simpleName: string, kind: SymbolKind, ty: TypeRef)

  datatype BinaryOp = Remainder | Plus | Minus | Multiply | Divide | OtherOp

  /**
   * Node kinds.  A member select has its qualifying expression as its only child;
   * a method invocation has the method select first and then the arguments;
   * a binary expression has its two operands.
   */
  datatype Kind =
    | CompilationUnit
    | ClassDecl
    | Identifier
    | MemberSelect
    | MethodInvocation
    | Binary(op: BinaryOp)
    | OtherKind

  datatype Node = Node(
    kind: Kind,
    children: seq<Node>,
    sym: Option<Symbol>,
    ty: Option<TypeRef>,
    autoValue: bool,
    source: Option<string>)

  /** `c` occurs somewhere in `t`, `t` itself included. */
  predicate Contains(t: Node, c: Node)
  {
    t == c || exists i :: 0 <= i < |t.children| && Contains(t.children[i], c)
  }

  /** `s` begins with `prefix`, as Java's String.startsWith. */
  predicate StartsWith(s: string, prefix: string)
  {
    prefix <= s
  }
}
