/** The abstract syntax tree the parser builds and the lowering walks (the node classes of
    tree.py), and the declarator trees the declaration parser builds. */
module Ast {
  import opened Wrappers
  import opened Tokens

  /** Expression nodes. A number node is kept as `str()` of what it was built from: the
      number token's content, the one character of a character constant, or "None" for a
      malformed character constant. A string node keeps its token's content. */
  datatype Expr =
    | NumberNode(text: string)
    | StringNode(chars: string)
    | IdentifierNode(identifier: Token)
    | ParenExprNode(expr: Expr)
    | BinaryOperatorNode(left: Expr, operator: Token, right: Expr)
      /** `PreIncrNode`, `PreDecrNode`, `PostIncrNode` and `PostDecrNode`. */
    | IncrDecrNode(expr: Expr, incr: bool, pre: bool, tok: Token)
    | BoolNotNode(expr: Expr, op: Token)
    | AddrOfNode(expr: Expr, op: Token)
    | DerefNode(expr: Expr, op: Token)
    | ArraySubscriptNode(head: Expr, arg: Expr, op: Token)

  /** A declarator below its root: pointers and arrays wrapping, innermost, the declared
      identifier (None for an abstract declarator). */
  datatype DeclNode =
    | PointerDecl(child: DeclNode)
    | ArrayDecl(n: nat, child: DeclNode)
    | IdentifierDecl(identifier: Option<Token>)

  /** The root of a declarator tree: the declaration specifiers and the declarator. */
  datatype DeclRoot = DeclRoot(specs: seq<Token>, child: DeclNode)

  /** Statement-level nodes. */
  datatype Node =
    | RootNode(nodes: seq<Node>)
    | MainNode(body: Node)
    | CompoundNode(items: seq<Node>)
      /** The keyword token is None for the return the lowering adds at the end of `main`. */
    | ReturnNode(value: Expr, kw: Option<Token>)
    | IfStatementNode(cond: Expr, stmt: Node, elseStmt: Option<Node>)
    | ExprStatementNode(expr: Expr)
      /** One initializer slot per declarator. */
    | DeclarationNode(decls: seq<DeclRoot>, inits: seq<Option<Expr>>)
}
