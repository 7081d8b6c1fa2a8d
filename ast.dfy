/**
 * Syntax tree nodes (`struct AST`, ast.h) and the helpers the parser uses to
 * build them (ast.c). A node's `subs`/`next` sibling chain is its sequence of
 * children.
 */
module Ast {
  import opened Wrappers

  /** The node kinds, TYPE_STATEMENTS .. TYPE_DOWHILE. */
  datatype Kind =
    | Statements | Print | IntLit | Add | Minus | Multiply | Divide | Assignment
    | IntExp | Identifier | IdentifierStr | StrLit | StrExp | Input
    | ForLoop | ForLoopStep | If | IfCore | IfCoreTree
    | CondEqual | CondGreater | CondLess | CondNoLess | CondNoGreater
    | CondEqualStr | CondAnd | CondOr | CondNot | While | DoWhile

  /** The `#define` value of each kind. */
  function Code(k: Kind): (c: int)
    ensures 1 <= c <= 30
  {
    match k
    case Statements => 1    case Print => 2        case IntLit => 3
    case Add => 4           case Minus => 5        case Multiply => 6
    case Divide => 7        case Assignment => 8   case IntExp => 9
    case Identifier => 10   case IdentifierStr => 11 case StrLit => 12
    case StrExp => 13       case Input => 14       case ForLoop => 15
    case ForLoopStep => 16  case If => 17          case IfCore => 18
    case IfCoreTree => 19   case CondEqual => 20   case CondGreater => 21
    case CondLess => 22     case CondNoLess => 23  case CondNoGreater => 24
    case CondEqualStr => 25 case CondAnd => 26     case CondOr => 27
    case CondNot => 28      case While => 29       case DoWhile => 30
  }

  /** The kind a `type` number stands for, if any. */
  function KindOf(c: int): Option<Kind>
  {
    if c == 1 then Some(Statements) else if c == 2 then Some(Print)
    else if c == 3 then Some(IntLit) else if c == 4 then Some(Add)
    else if c == 5 then Some(Minus) else if c == 6 then Some(Multiply)
    else if c == 7 then Some(Divide) else if c == 8 then Some(Assignment)
    else if c == 9 then Some(IntExp) else if c == 10 then Some(Identifier)
    else if c == 11 then Some(IdentifierStr) else if c == 12 then Some(StrLit)
    else if c == 13 then Some(StrExp) else if c == 14 then Some(Input)
    else if c == 15 then Some(ForLoop) else if c == 16 then Some(ForLoopStep)
    else if c == 17 then Some(If) else if c == 18 then Some(IfCore)
    else if c == 19 then Some(IfCoreTree) else if c == 20 then Some(CondEqual)
    else if c == 21 then Some(CondGreater) else if c == 22 then Some(CondLess)
    else if c == 23 then Some(CondNoLess) else if c == 24 then Some(CondNoGreater)
    else if c == 25 then Some(CondEqualStr) else if c == 26 then Some(CondAnd)
    else if c == 27 then Some(CondOr) else if c == 28 then Some(CondNot)
    else if c == 29 then Some(While) else if c == 30 then Some(DoWhile)
    else None
  }

  /** The thirty codes are distinct: each kind is recovered from its code. */
  lemma CodeRoundTrip(k: Kind)
    ensures KindOf(Code(k)) == Some(k)
  {
  }

  /** A node: its kind, its children in sibling order, and its literal payloads. */
  datatype AST = Node(kind: Kind, subs: seq<AST>, intval: int, strval: string)

  /** `getAST`: a zero-filled node of the given kind, with no children. */
  function GetAst(k: Kind): (r: AST)
    ensures r.kind == k && r.subs == [] && r.intval == 0 && r.strval == ""
  {
    Node(k, [], 0, "")
  }

  /** `set_intval`: only the integer payload changes. */
  function SetIntval(t: AST, n: int): (r: AST)
    ensures r.intval == n && r.kind == t.kind && r.subs == t.subs && r.strval == t.strval
  {
    t.(intval := n)
  }

  /** `set_strval`: the node gets its own copy of the text; nothing else changes. */
  function SetStrval(t: AST, s: string): (r: AST)
    ensures r.strval == s && r.kind == t.kind && r.subs == t.subs && r.intval == t.intval
  {
    t.(strval := s)
  }

  /**
   * `add_param`: walks to the last sibling of the child chain and links the
   * new node after it (or makes it the first child).
   */
  function AddParam(t: AST, param: AST): (r: AST)
    ensures |r.subs| == |t.subs| + 1 && r.subs[|t.subs|] == param
    ensures r.subs[..|t.subs|] == t.subs
    ensures r.kind == t.kind && r.intval == t.intval && r.strval == t.strval
  {
    t.(subs := t.subs + [param])
  }

  /** The node a parser action builds with `getAST(k)` followed by one `add_param` per element of `params`. */
  function Build(k: Kind, params: seq<AST>): AST
  {
    if params == [] then GetAst(k)
    else AddParam(Build(k, params[..|params| - 1]), params[|params| - 1])
  }

  /** Children keep the order in which they were added. */
  lemma {:induction false} BuildKeepsOrder(k: Kind, params: seq<AST>)
    ensures Build(k, params).subs == params
    ensures Build(k, params).kind == k
  {
    if params != [] {
      BuildKeepsOrder(k, params[..|params| - 1]);
      assert params[..|params| - 1] + [params[|params| - 1]] == params;
    }
  }
}
