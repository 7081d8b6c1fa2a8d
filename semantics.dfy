/**
 * What `run_ast` (ast.c) computes, as a function: the specification that
 * `Interpreter.Interpreter.Run` implements.
 *
 * Fatal `exit(1)` paths become `Fail(error, out)`, where `out` is everything
 * printed before the error, which `exit` still delivers. The untyped `void *` result
 * becomes a tagged `Value`; where the source reads a child's result as a type
 * the child did not produce (including no result at all, as from a missing
 * child) the model fails with `TypeMismatch`, and where it dereferences a child
 * the node does not have it fails with `Malformed`. Loops may not terminate,
 * so every loop is given `fuel`: the number of body runs it may still make
 * (nested loops receive the fuel left at the point they start). Running out
 * is `OutOfFuel`, which is not an outcome of the source.
 */
module Semantics {
  import opened Wrappers
  import opened Names
  import opened Variables
  import opened Ast
  import opened Decimal

  datatype Value = Void | Int(i: int) | Str(s: string) | Bool(b: bool)

  datatype Error =
    | DivisionByZero      // "DIVISION BY ZERO"
    | Undefined(name: string)  // "IDENTIFIER … NOT DEFINED", "Identifier … undefiend"
    | MismatchedNext      // "Identifier cannot be different after NEXT keyword"
    | ZeroStep            // "STEP cannot be ZERO"
    | TypeMismatch        // a result read as a type it does not have
    | Malformed           // a node without a child the source dereferences
    | BadInput            // an INPUT token `%d` cannot read as an integer
    | EndOfInput          // INPUT with no token left
    | OutOfFuel           // a loop ran out of fuel

  /** Everything `run_ast` reads and changes: the variable list, what has been printed, the unread input tokens. */
  datatype State = State(vars: seq<Binding>, out: string, input: seq<string>)

  datatype Outcome = Ok(value: Value, st: State) | Fail(error: Error, out: string)

  /** Both operands of a binary node, left evaluated first, then right. */
  datatype Operands = Operands(left: Value, right: Value, st: State) | OperandsFail(error: Error, out: string)

  function Abs(n: int): nat
  {
    if n < 0 then -n else n
  }

  /** C's `/` on int: the quotient truncated toward zero (Dafny's `/` is Euclidean). */
  function TruncDiv(a: int, b: int): int
    requires b != 0
  {
    if (a < 0) == (b < 0) then Abs(a) / Abs(b) else -(Abs(a) / Abs(b))
  }

  /** ADD, MINUS, MULTIPLY and DIVIDE on the two operand values. */
  function Arith(k: Kind, a: int, b: int): int
    requires k == Divide ==> b != 0
  {
    match k
    case Add => a + b
    case Minus => a - b
    case Multiply => a * b
    case Divide => TruncDiv(a, b)
    case _ => 0
  }

  /** The five integer comparisons, all read off `test_equal`, `test_greater` and `test_less`. */
  function Compare(k: Kind, a: int, b: int): bool
  {
    var equal, greater, less := a == b, a > b, a < b;
    match k
    case CondEqual => equal
    case CondGreater => greater
    case CondLess => less
    case CondNoLess => equal || greater
    case CondNoGreater => equal || less
    case _ => false
  }

  /** `output_variables`: an integer or string binding printed with a trailing space; an unbound name prints nothing. */
  function OutputVariables(vars: seq<Binding>, name: string): string
  {
    match Lookup(vars, name)
    case None => ""
    case Some(Binding(_, IntData(n))) => IntToString(n) + " "
    case Some(Binding(_, StrData(s))) => s + " "
  }

  /** `assign_variables` / `assign_variables_by_val` on a state. */
  function Bind(st: State, name: string, d: Data): State
  {
    st.(vars := Assign(st.vars, Binding(name, d)))
  }

  /** Whether a FOR loop with this counter, end bound and step runs its body again. */
  predicate Continues(i: int, end: int, step: int)
  {
    if step > 0 then i <= end else i >= end
  }

  /** `run_ast(ast)` for a non-NULL node. */
  function Eval(fuel: nat, t: AST, st: State): Outcome
    decreases fuel, t, 3, 0
  {
    match t.kind
    case Statements => SeqFrom(fuel, t, 0, st)
    case Print => PrintFrom(fuel, t, 0, st)
    case IntLit => Ok(Int(t.intval), st)
    case Add => EvalArith(fuel, t, st)
    case Minus => EvalArith(fuel, t, st)
    case Multiply => EvalArith(fuel, t, st)
    case Divide => EvalArith(fuel, t, st)
    case Assignment => EvalAssign(fuel, t, st)
    case IntExp => Child(fuel, t, 0, st)
    case StrExp => Child(fuel, t, 0, st)
    case Identifier => ReadInt(st, t.strval)
    case IdentifierStr => ReadStr(st, t.strval)
    case StrLit => Ok(Str(t.strval), st)
    case Input => EvalInput(fuel, t, st)
    case ForLoop => EvalFor(fuel, t, st)
    case ForLoopStep => EvalFor(fuel, t, st)
    case If => EvalIf(fuel, t, st)
    case IfCoreTree => EvalIf(fuel, t, st)
    case IfCore => EvalIfCore(fuel, t, st)
    case CondEqual => EvalCompare(fuel, t, st)
    case CondGreater => EvalCompare(fuel, t, st)
    case CondLess => EvalCompare(fuel, t, st)
    case CondNoLess => EvalCompare(fuel, t, st)
    case CondNoGreater => EvalCompare(fuel, t, st)
    case CondEqualStr => EvalEqualStr(fuel, t, st)
    case CondAnd => EvalLogic(fuel, t, st)
    case CondOr => EvalLogic(fuel, t, st)
    case CondNot => EvalNot(fuel, t, st)
    case While => WhileFrom(fuel, t, st)
    case DoWhile => EvalDoWhile(fuel, t, st)
  }

  /** TYPE_IDENTIFIER: the integer value of the named variable. */
  function ReadInt(st: State, name: string): Outcome
  {
    match Lookup(st.vars, name)
    case None => Fail(Undefined(name), st.out)
    case Some(v) => if v.val.IntData? then Ok(Int(v.val.i), st) else Fail(TypeMismatch, st.out)
  }

  /** TYPE_IDENTIFIERSTR: a copy of the string value of the named variable. */
  function ReadStr(st: State, name: string): Outcome
  {
    match Lookup(st.vars, name)
    case None => Fail(Undefined(name), st.out)
    case Some(v) => if v.val.StrData? then Ok(Str(v.val.s), st) else Fail(TypeMismatch, st.out)
  }

  function EvalNot(fuel: nat, t: AST, st: State): Outcome
    decreases fuel, t, 2, 0
  {
    match Child(fuel, t, 0, st)
    case Fail(e, o) => Fail(e, o)
    case Ok(c, st1) => if c.Bool? then Ok(Bool(!c.b), st1) else Fail(TypeMismatch, st1.out)
  }

  /** TYPE_DOWHILE: run the body once, then fall through into the WHILE loop. */
  function EvalDoWhile(fuel: nat, t: AST, st: State): Outcome
    decreases fuel, t, 2, 0
  {
    if |t.subs| == 0 then Fail(Malformed, st.out)
    else match Child(fuel, t, 1, st)
      case Fail(e, o) => Fail(e, o)
      case Ok(_, st1) => WhileFrom(fuel, t, st1)
  }

  /** `run_ast` of the i-th child, where a missing child is `run_ast(NULL)`, which yields nothing. */
  function Child(fuel: nat, t: AST, i: nat, st: State): Outcome
    decreases fuel, t, 0, 0
  {
    if i < |t.subs| then Eval(fuel, t.subs[i], st) else Ok(Void, st)
  }

  /** The two operands of a binary node, both always evaluated. */
  function EvalBoth(fuel: nat, t: AST, st: State): Operands
    decreases fuel, t, 0, 0
  {
    if |t.subs| < 2 then OperandsFail(Malformed, st.out)
    else match Eval(fuel, t.subs[0], st)
      case Fail(e, o) => OperandsFail(e, o)
      case Ok(a, st1) =>
        match Eval(fuel, t.subs[1], st1)
        case Fail(e, o) => OperandsFail(e, o)
        case Ok(b, st2) => Operands(a, b, st2)
  }

  /** TYPE_STATEMENTS from the i-th statement on: each runs for its effect only. */
  function SeqFrom(fuel: nat, t: AST, i: nat, st: State): Outcome
    requires i <= |t.subs|
    decreases fuel, t, 1, |t.subs| - i
  {
    if i == |t.subs| then Ok(Void, st)
    else match Eval(fuel, t.subs[i], st)
      case Fail(e, o) => Fail(e, o)
      case Ok(_, st1) => SeqFrom(fuel, t, i + 1, st1)
  }

  /**
   * TYPE_PRINT from the i-th argument on: an INTEXP argument prints as `%d `,
   * an IDENTIFIER through `output_variables`, a STREXP as `%s `; other kinds
   * print nothing. A newline ends the line.
   */
  function PrintFrom(fuel: nat, t: AST, i: nat, st: State): Outcome
    requires i <= |t.subs|
    decreases fuel, t, 1, |t.subs| - i
  {
    if i == |t.subs| then Ok(Void, st.(out := st.out + "\n"))
    else
      var arg := t.subs[i];
      if arg.kind == IntExp then
        match Eval(fuel, arg, st)
        case Fail(e, o) => Fail(e, o)
        case Ok(v, st1) =>
          if v.Int? then PrintFrom(fuel, t, i + 1, st1.(out := st1.out + IntToString(v.i) + " "))
          else Fail(TypeMismatch, st1.out)
      else if arg.kind == Identifier then
        PrintFrom(fuel, t, i + 1, st.(out := st.out + OutputVariables(st.vars, arg.strval)))
      else if arg.kind == StrExp then
        match Eval(fuel, arg, st)
        case Fail(e, o) => Fail(e, o)
        case Ok(v, st1) =>
          if v.Str? then PrintFrom(fuel, t, i + 1, st1.(out := st1.out + v.s + " "))
          else Fail(TypeMismatch, st1.out)
      else PrintFrom(fuel, t, i + 1, st)
  }

  function EvalArith(fuel: nat, t: AST, st: State): Outcome
    decreases fuel, t, 2, 0
  {
    match EvalBoth(fuel, t, st)
    case OperandsFail(e, o) => Fail(e, o)
    case Operands(a, b, st2) =>
      if !a.Int? || !b.Int? then Fail(TypeMismatch, st2.out)
      else if t.kind == Divide && b.i == 0 then Fail(DivisionByZero, st2.out)
      else Ok(Int(Arith(t.kind, a.i, b.i)), st2)
  }

  function EvalCompare(fuel: nat, t: AST, st: State): Outcome
    decreases fuel, t, 2, 0
  {
    match EvalBoth(fuel, t, st)
    case OperandsFail(e, o) => Fail(e, o)
    case Operands(a, b, st2) =>
      if a.Int? && b.Int? then Ok(Bool(Compare(t.kind, a.i, b.i)), st2) else Fail(TypeMismatch, st2.out)
  }

  /** `strcmp(…) == 0`: exact equality of the two strings. */
  function EvalEqualStr(fuel: nat, t: AST, st: State): Outcome
    decreases fuel, t, 2, 0
  {
    match EvalBoth(fuel, t, st)
    case OperandsFail(e, o) => Fail(e, o)
    case Operands(a, b, st2) =>
      if a.Str? && b.Str? then Ok(Bool(a.s == b.s), st2) else Fail(TypeMismatch, st2.out)
  }

  /** AND / OR: both operands are evaluated before they are combined. */
  function EvalLogic(fuel: nat, t: AST, st: State): Outcome
    decreases fuel, t, 2, 0
  {
    match EvalBoth(fuel, t, st)
    case OperandsFail(e, o) => Fail(e, o)
    case Operands(a, b, st2) =>
      if !a.Bool? || !b.Bool? then Fail(TypeMismatch, st2.out)
      else Ok(Bool(if t.kind == CondAnd then a.b && b.b else a.b || b.b), st2)
  }

  /**
   * TYPE_ASSIGNMENT: the second child's kind chooses the form. INTEXP and
   * STREXP store the evaluated value; IDENTIFIER copies the named variable;
   * any other kind does nothing.
   */
  function EvalAssign(fuel: nat, t: AST, st: State): Outcome
    decreases fuel, t, 2, 0
  {
    if |t.subs| < 2 then Fail(Malformed, st.out)
    else
      var lhs, rhs := t.subs[0], t.subs[1];
      if rhs.kind == IntExp then
        match Eval(fuel, rhs, st)
        case Fail(e, o) => Fail(e, o)
        case Ok(v, st1) => if v.Int? then Ok(Void, Bind(st1, lhs.strval, IntData(v.i))) else Fail(TypeMismatch, st1.out)
      else if rhs.kind == Identifier then
        match AssignFromIdentifier(st.vars, lhs.strval, rhs.strval)
        case None => Fail(Undefined(rhs.strval), st.out)
        case Some(vars) => Ok(Void, st.(vars := vars))
      else if rhs.kind == StrExp then
        match Eval(fuel, rhs, st)
        case Fail(e, o) => Fail(e, o)
        case Ok(v, st1) => if v.Str? then Ok(Void, Bind(st1, lhs.strval, StrData(v.s))) else Fail(TypeMismatch, st1.out)
      else Ok(Void, st)
  }

  /** TYPE_INPUT: print the prompt (first child), then read one token per further child. */
  function EvalInput(fuel: nat, t: AST, st: State): Outcome
    decreases fuel, t, 2, 0
  {
    if |t.subs| == 0 then Fail(Malformed, st.out)
    else match Eval(fuel, t.subs[0], st)
      case Fail(e, o) => Fail(e, o)
      case Ok(p, st1) => if p.Str? then InputFrom(t, 1, st1.(out := st1.out + p.s)) else Fail(TypeMismatch, st1.out)
  }

  /** The INPUT targets from the i-th child on: an IDENTIFIER reads an integer, any other kind a word. */
  function InputFrom(t: AST, i: nat, st: State): Outcome
    requires i <= |t.subs|
    decreases |t.subs| - i
  {
    if i == |t.subs| then Ok(Void, st)
    else if st.input == [] then Fail(EndOfInput, st.out)
    else
      var target, word, rest := t.subs[i], st.input[0], st.input[1..];
      if target.kind == Identifier then
        match ParseInt(word)
        case None => Fail(BadInput, st.out)
        case Some(n) => InputFrom(t, i + 1, Bind(st.(input := rest), target.strval, IntData(n)))
      else InputFrom(t, i + 1, Bind(st.(input := rest), target.strval, StrData(word)))
  }

  /**
   * TYPE_FORLOOP / TYPE_FORLOOP_2. Children: loop variable, start, end, body,
   * NEXT identifier and (FORLOOP_2 only) step. The NEXT name is checked
   * first, then the step (1 by default) is evaluated and checked, then the
   * start value, once.
   */
  function EvalFor(fuel: nat, t: AST, st: State): Outcome
    decreases fuel, t, 2, 0
  {
    if |t.subs| < (if t.kind == ForLoopStep then 6 else 5) then Fail(Malformed, st.out)
    else if !SameName(t.subs[4].strval, t.subs[0].strval) then Fail(MismatchedNext, st.out)
    else
      var stepped := if t.kind == ForLoopStep then Eval(fuel, t.subs[5], st) else Ok(Int(1), st);
      match stepped
      case Fail(e, o) => Fail(e, o)
      case Ok(s, st1) =>
        if !s.Int? then Fail(TypeMismatch, st1.out)
        else if s.i == 0 then Fail(ZeroStep, st1.out)
        else match Eval(fuel, t.subs[1], st1)
          case Fail(e, o) => Fail(e, o)
          case Ok(v, st2) => if v.Int? then ForFrom(fuel, t, v.i, s.i, st2) else Fail(TypeMismatch, st2.out)
  }

  /**
   * The FOR loop with counter `i`: the end bound is evaluated again at every
   * check; while the counter has not passed it, the variable is assigned the
   * counter, the body runs, and the counter advances by `step`.
   */
  function ForFrom(fuel: nat, t: AST, i: int, step: int, st: State): Outcome
    requires |t.subs| >= 5
    decreases fuel, t, 1, 0
  {
    match Eval(fuel, t.subs[2], st)
    case Fail(e, o) => Fail(e, o)
    case Ok(end, st1) =>
      if !end.Int? then Fail(TypeMismatch, st1.out)
      else if !Continues(i, end.i, step) then Ok(Void, st1)
      else if fuel == 0 then Fail(OutOfFuel, st1.out)
      else match Eval(fuel - 1, t.subs[3], Bind(st1, t.subs[0].strval, IntData(i)))
        case Fail(e, o) => Fail(e, o)
        case Ok(_, st2) => ForFrom(fuel - 1, t, i + step, step, st2)
  }

  /**
   * TYPE_IF / TYPE_IFCORE_TREE: the first child reports whether it handled the
   * branch; only when it did not is the second child (if any) run. The source
   * returns no value from these cases; the model passes on the value of the
   * last child evaluated, which is what lets an IFCORE_TREE report to an
   * enclosing IF whether one of its branches ran.
   */
  function EvalIf(fuel: nat, t: AST, st: State): Outcome
    decreases fuel, t, 2, 0
  {
    match Child(fuel, t, 0, st)
    case Fail(e, o) => Fail(e, o)
    case Ok(h, st1) =>
      if !h.Bool? then Fail(TypeMismatch, st1.out)
      else if !h.b && |t.subs| >= 2 then Eval(fuel, t.subs[1], st1)
      else Ok(h, st1)
  }

  /** TYPE_IFCORE: when the condition holds, run the body and report 1; otherwise report 0. */
  function EvalIfCore(fuel: nat, t: AST, st: State): Outcome
    decreases fuel, t, 2, 0
  {
    match Child(fuel, t, 0, st)
    case Fail(e, o) => Fail(e, o)
    case Ok(c, st1) =>
      if !c.Bool? then Fail(TypeMismatch, st1.out)
      else if !c.b then Ok(Bool(false), st1)
      else match Child(fuel, t, 1, st1)
        case Fail(e, o) => Fail(e, o)
        case Ok(_, st2) => Ok(Bool(true), st2)
  }

  /** TYPE_WHILE (and the tail of TYPE_DOWHILE): test the first child, run the second while it holds. */
  function WhileFrom(fuel: nat, t: AST, st: State): Outcome
    decreases fuel, t, 1, 0
  {
    match Child(fuel, t, 0, st)
    case Fail(e, o) => Fail(e, o)
    case Ok(c, st1) =>
      if !c.Bool? then Fail(TypeMismatch, st1.out)
      else if !c.b then Ok(Void, st1)
      else if fuel == 0 then Fail(OutOfFuel, st1.out)
      else match Child(fuel - 1, t, 1, st1)
        case Fail(e, o) => Fail(e, o)
        case Ok(_, st2) => WhileFrom(fuel - 1, t, st2)
  }
}
