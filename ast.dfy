/**
 * The syntax tree the parser builds (src/parser.py call sites). Source
 * positions are dropped; names are kept as the text of their identifier
 * tokens, and operator tokens are kept whole.
 */
module Syntax {
  import opened Wrappers
  import opened Tokens

  /** One `IF`/`ELIF` branch: its condition, its body and whether the branch
      yields null (true for the block form `THEN NEWLINE ... END`). */
  datatype IfCase = IfCase(condition: Node, body: Node, returnsNull: bool)

  /** The `ELSE` branch, with the same null flag. */
  datatype ElseCase = ElseCase(body: Node, returnsNull: bool)

  /** One `name: value` entry of an object literal. */
  datatype Entry = Entry(key: string, value: Node)

  datatype Node =
    | NumberNode(tok: Token)
    | StringNode(tok: Token)
    | BooleanNode(truth: bool)
    | NullNode
    | ListNode(elements: seq<Node>)
    | ObjectNode(entries: seq<Entry>)
    | VarAccessNode(name: string)
    | VarAssignNode(name: string, value: Node, update: bool)
    | MultiVarAccessNode(names: seq<string>)
    | MultiVarAssignNode(names: seq<string>, value: Node)
    | BinOpNode(left: Node, op: Token, right: Node)
    | UnaryOpNode(op: Token, operand: Node)
    | IfNode(cases: seq<IfCase>, elseCase: Option<ElseCase>)
    | ForNode(varName: string, start: Node, end: Node, step: Option<Node>, body: Node, returnsNull: bool)
    | WhileNode(condition: Node, body: Node, returnsNull: bool)
    | FuncDefNode(funcName: Option<string>, params: seq<string>, body: Node, autoReturn: bool)
    | CallNode(callee: Node, args: seq<Node>)
    | ImportNode(libName: Node, varName: string)
    | ReturnNode(result: Option<Node>)
    | ContinueNode
    | BreakNode

  /** The text of an identifier token (the empty text for a token without one). */
  function TokText(tok: Token): string
  {
    if tok.value.Text? then tok.value.s else ""
  }
}
