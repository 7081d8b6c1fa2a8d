/**
 * `run_ast` and the variable-table functions of ast.c in their own form: an
 * object whose fields are the global variable list, the output written so far
 * and the input not yet read, and methods that walk the tree, loop and update
 * those fields. Every method is proved to produce the result and the state
 * that `Semantics` specifies, and to keep at most one binding per
 * case-insensitive name.
 */
module Interpreter {
  import opened Wrappers
  import opened Names
  import opened Variables
  import opened Ast
  import opened Decimal
  import opened Semantics

  /**
   * The method's result and final state are those of outcome `o`. After a
   * fatal error only the output matters: the source exits, and `exit` still
   * delivers what was printed.
   */
  predicate Agrees(r: Result<Value, Error>, now: State, o: Outcome)
  {
    match o
    case Ok(v, st) => r == Success(v) && now == st
    case Fail(e, written) => r == Failure(e) && now.out == written
  }

  predicate AgreesBoth(r: Result<(Value, Value), Error>, now: State, o: Operands)
  {
    match o
    case Operands(a, b, st) => r == Success((a, b)) && now == st
    case OperandsFail(e, written) => r == Failure(e) && now.out == written
  }

  class Interpreter {
    /** The list `vars`, head first. */
    var vars: seq<Binding>
    /** Everything written to standard output. */
    var out: string
    /** The whitespace-separated tokens standard input has not yet delivered. */
    var input: seq<string>

    ghost predicate Valid()
      reads this
    {
      Unique(vars)
    }

    ghost function Snapshot(): State
      reads this
    {
      State(vars, out, input)
    }

    /** An empty variable list (`vars = NULL`), nothing printed, the given input. */
    constructor (tokens: seq<string>)
      ensures Valid() && Snapshot() == State([], "", tokens)
    {
      vars := [];
      out := "";
      input := tokens;
    }

    /** `get_identifier_vals`: the position of the first binding whose name matches, or None for NULL. */
    method GetIdentifierVals(name: string) returns (p: Option<nat>)
      ensures p == Locate(vars, name)
      ensures p.Some? ==> p.value < |vars| && SameName(vars[p.value].name, name)
    {
      var k := 0;
      while k < |vars|
        invariant 0 <= k <= |vars|
        invariant forall j :: 0 <= j < k ==> !SameName(vars[j].name, name)
      {
        var c := Stricmp(vars[k].name, name);
        if c == 0 {
          return Some(k);
        }
        k := k + 1;
      }
      return None;
    }

    /** `assign_variables_core`: overwrite the first binding with the same name in place, or link the new one in at the head. */
    method AssignCore(b: Binding)
      requires Valid()
      modifies this
      ensures Valid()
      ensures vars == Assign(old(vars), b) && out == old(out) && input == old(input)
    {
      AssignPreservesUnique(vars, b);
      if vars == [] {
        vars := [b];
      } else {
        var p := GetIdentifierVals(b.name);
        if p.Some? {
          vars := vars[p.value := b];
        } else {
          vars := [b] + vars;
        }
      }
    }

    /** `assign_variables_by_val`: a fresh binding with a copy of the name and the typed value, handed to `assign_variables_core`. */
    method AssignByVal(name: string, d: Data)
      requires Valid()
      modifies this
      ensures Valid()
      ensures Snapshot() == Bind(old(Snapshot()), name, d)
    {
      AssignCore(Binding(name, d));
    }

    /** `assign_variables`: the same, with the name taken from the left-hand node. */
    method AssignVariables(left: AST, d: Data)
      requires Valid()
      modifies this
      ensures Valid()
      ensures Snapshot() == Bind(old(Snapshot()), left.strval, d)
    {
      AssignByVal(left.strval, d);
    }

    /**
     * `assign_variables_via_identifer` (A = B) with its evident intent: A gets
     * a copy of B's type and value. False when B is unbound, where the source
     * reports it and exits.
     */
    method AssignViaIdentifier(left: AST, right: AST) returns (ok: bool)
      requires Valid()
      modifies this
      ensures Valid()
      ensures ok == AssignFromIdentifier(old(vars), left.strval, right.strval).Some?
      ensures ok ==> vars == AssignFromIdentifier(old(vars), left.strval, right.strval).value
      ensures out == old(out) && input == old(input)
    {
      var p := GetIdentifierVals(right.strval);
      if p.None? {
        return false;
      }
      AssignByVal(left.strval, vars[p.value].val);
      return true;
    }

    /** `output_variables`: print a bound variable by its type, followed by a space; nothing for an unbound name. */
    method OutputVariables(name: string)
      modifies this
      ensures vars == old(vars) && input == old(input)
      ensures out == old(out) + Semantics.OutputVariables(old(vars), name)
    {
      var p := GetIdentifierVals(name);
      if p.Some? {
        match vars[p.value].val
        case IntData(n) => out := out + IntToString(n) + " ";
        case StrData(s) => out := out + s + " ";
      }
    }

    /** `run_ast(ast)`. */
    method Run(fuel: nat, t: AST) returns (r: Result<Value, Error>)
      requires Valid()
      modifies this
      ensures Valid()
      ensures Agrees(r, Snapshot(), Eval(fuel, t, old(Snapshot())))
      decreases fuel, t, 3, 0
    {
      match t.kind
      case Statements => r := RunStatements(fuel, t);
      case Print => r := RunPrint(fuel, t);
      case IntLit => r := Success(Int(t.intval));
      case Add => r := RunArith(fuel, t);
      case Minus => r := RunArith(fuel, t);
      case Multiply => r := RunArith(fuel, t);
      case Divide => r := RunArith(fuel, t);
      case Assignment => r := RunAssign(fuel, t);
      case IntExp => r := RunChild(fuel, t, 0);
      case StrExp => r := RunChild(fuel, t, 0);
      case Identifier =>
        var p := GetIdentifierVals(t.strval);
        if p.None? {
          r := Failure(Undefined(t.strval));
        } else if vars[p.value].val.IntData? {
          r := Success(Int(vars[p.value].val.i));
        } else {
          r := Failure(TypeMismatch);
        }
      case IdentifierStr =>
        var p := GetIdentifierVals(t.strval);
        if p.None? {
          r := Failure(Undefined(t.strval));
        } else if vars[p.value].val.StrData? {
          r := Success(Str(vars[p.value].val.s));
        } else {
          r := Failure(TypeMismatch);
        }
      case StrLit => r := Success(Str(t.strval));
      case Input => r := RunInput(fuel, t);
      case ForLoop => r := RunFor(fuel, t);
      case ForLoopStep => r := RunFor(fuel, t);
      case If => r := RunIf(fuel, t);
      case IfCoreTree => r := RunIf(fuel, t);
      case IfCore => r := RunIfCore(fuel, t);
      case CondEqual => r := RunCompare(fuel, t);
      case CondGreater => r := RunCompare(fuel, t);
      case CondLess => r := RunCompare(fuel, t);
      case CondNoLess => r := RunCompare(fuel, t);
      case CondNoGreater => r := RunCompare(fuel, t);
      case CondEqualStr => r := RunEqualStr(fuel, t);
      case CondAnd => r := RunLogic(fuel, t);
      case CondOr => r := RunLogic(fuel, t);
      case CondNot =>
        var c := RunChild(fuel, t, 0);
        if c.Failure? {
          r := c;
        } else if c.value.Bool? {
          r := Success(Bool(!c.value.b));
        } else {
          r := Failure(TypeMismatch);
        }
      case While => r := RunWhile(fuel, t);
      case DoWhile =>
        // The body runs once, then control falls through into the WHILE case.
        if |t.subs| == 0 {
          return Failure(Malformed);
        }
        var b := RunChild(fuel, t, 1);
        if b.Failure? {
          return b;
        }
        r := RunWhile(fuel, t);
    }

    /** `run_ast` of the i-th child, or `run_ast(NULL)` when there is none. */
    method RunChild(fuel: nat, t: AST, i: nat) returns (r: Result<Value, Error>)
      requires Valid()
      modifies this
      ensures Valid()
      ensures Agrees(r, Snapshot(), Child(fuel, t, i, old(Snapshot())))
      decreases fuel, t, 0, 0
    {
      if i < |t.subs| {
        r := Run(fuel, t.subs[i]);
      } else {
        r := Success(Void);
      }
    }

    /** The two operands of a binary node, left then right. */
    method RunBoth(fuel: nat, t: AST) returns (r: Result<(Value, Value), Error>)
      requires Valid()
      modifies this
      ensures Valid()
      ensures AgreesBoth(r, Snapshot(), EvalBoth(fuel, t, old(Snapshot())))
      decreases fuel, t, 0, 0
    {
      if |t.subs| < 2 {
        return Failure(Malformed);
      }
      var a := Run(fuel, t.subs[0]);
      if a.Failure? {
        return Failure(a.error);
      }
      var b := Run(fuel, t.subs[1]);
      if b.Failure? {
        return Failure(b.error);
      }
      return Success((a.value, b.value));
    }

    method RunStatements(fuel: nat, t: AST) returns (r: Result<Value, Error>)
      requires Valid()
      modifies this
      ensures Valid()
      ensures Agrees(r, Snapshot(), SeqFrom(fuel, t, 0, old(Snapshot())))
      decreases fuel, t, 2, 0
    {
      var i := 0;
      while i < |t.subs|
        invariant 0 <= i <= |t.subs|
        invariant Valid()
        invariant SeqFrom(fuel, t, i, Snapshot()) == SeqFrom(fuel, t, 0, old(Snapshot()))
      {
        var c := Run(fuel, t.subs[i]);
        if c.Failure? {
          return c;
        }
        i := i + 1;
      }
      return Success(Void);
    }

    method RunPrint(fuel: nat, t: AST) returns (r: Result<Value, Error>)
      requires Valid()
      modifies this
      ensures Valid()
      ensures Agrees(r, Snapshot(), PrintFrom(fuel, t, 0, old(Snapshot())))
      decreases fuel, t, 2, 0
    {
      var i := 0;
      while i < |t.subs|
        invariant 0 <= i <= |t.subs|
        invariant Valid()
        invariant PrintFrom(fuel, t, i, Snapshot()) == PrintFrom(fuel, t, 0, old(Snapshot()))
      {
        var arg := t.subs[i];
        if arg.kind == IntExp {
          var v := Run(fuel, arg);
          if v.Failure? {
            return v;
          }
          if !v.value.Int? {
            return Failure(TypeMismatch);
          }
          out := out + IntToString(v.value.i) + " ";
        } else if arg.kind == Identifier {
          OutputVariables(arg.strval);
        } else if arg.kind == StrExp {
          var v := Run(fuel, arg);
          if v.Failure? {
            return v;
          }
          if !v.value.Str? {
            return Failure(TypeMismatch);
          }
          out := out + v.value.s + " ";
        }
        i := i + 1;
      }
      out := out + "\n";
      return Success(Void);
    }

    method RunArith(fuel: nat, t: AST) returns (r: Result<Value, Error>)
      requires Valid()
      modifies this
      ensures Valid()
      ensures Agrees(r, Snapshot(), EvalArith(fuel, t, old(Snapshot())))
      decreases fuel, t, 2, 0
    {
      var ops := RunBoth(fuel, t);
      if ops.Failure? {
        return Failure(ops.error);
      }
      var (a, b) := ops.value;
      if !a.Int? || !b.Int? {
        return Failure(TypeMismatch);
      }
      if t.kind == Divide && b.i == 0 {
        return Failure(DivisionByZero);
      }
      return Success(Int(Arith(t.kind, a.i, b.i)));
    }

    method RunCompare(fuel: nat, t: AST) returns (r: Result<Value, Error>)
      requires Valid()
      modifies this
      ensures Valid()
      ensures Agrees(r, Snapshot(), EvalCompare(fuel, t, old(Snapshot())))
      decreases fuel, t, 2, 0
    {
      var ops := RunBoth(fuel, t);
      if ops.Failure? {
        return Failure(ops.error);
      }
      var (a, b) := ops.value;
      if !a.Int? || !b.Int? {
        return Failure(TypeMismatch);
      }
      return Success(Bool(Compare(t.kind, a.i, b.i)));
    }

    method RunEqualStr(fuel: nat, t: AST) returns (r: Result<Value, Error>)
      requires Valid()
      modifies this
      ensures Valid()
      ensures Agrees(r, Snapshot(), EvalEqualStr(fuel, t, old(Snapshot())))
      decreases fuel, t, 2, 0
    {
      var ops := RunBoth(fuel, t);
      if ops.Failure? {
        return Failure(ops.error);
      }
      var (a, b) := ops.value;
      if !a.Str? || !b.Str? {
        return Failure(TypeMismatch);
      }
      return Success(Bool(a.s == b.s));
    }

    method RunLogic(fuel: nat, t: AST) returns (r: Result<Value, Error>)
      requires Valid()
      modifies this
      ensures Valid()
      ensures Agrees(r, Snapshot(), EvalLogic(fuel, t, old(Snapshot())))
      decreases fuel, t, 2, 0
    {
      var ops := RunBoth(fuel, t);
      if ops.Failure? {
        return Failure(ops.error);
      }
      var (a, b) := ops.value;
      if !a.Bool? || !b.Bool? {
        return Failure(TypeMismatch);
      }
      if t.kind == CondAnd {
        return Success(Bool(a.b && b.b));
      }
      return Success(Bool(a.b || b.b));
    }

    method RunAssign(fuel: nat, t: AST) returns (r: Result<Value, Error>)
      requires Valid()
      modifies this
      ensures Valid()
      ensures Agrees(r, Snapshot(), EvalAssign(fuel, t, old(Snapshot())))
      decreases fuel, t, 2, 0
    {
      if |t.subs| < 2 {
        return Failure(Malformed);
      }
      var lhs, rhs := t.subs[0], t.subs[1];
      if rhs.kind == IntExp {
        var v := Run(fuel, rhs);
        if v.Failure? {
          return v;
        }
        if !v.value.Int? {
          return Failure(TypeMismatch);
        }
        AssignVariables(lhs, IntData(v.value.i));
      } else if rhs.kind == Identifier {
        var ok := AssignViaIdentifier(lhs, rhs);
        if !ok {
          return Failure(Undefined(rhs.strval));
        }
      } else if rhs.kind == StrExp {
        var v := Run(fuel, rhs);
        if v.Failure? {
          return v;
        }
        if !v.value.Str? {
          return Failure(TypeMismatch);
        }
        AssignVariables(lhs, StrData(v.value.s));
      }
      return Success(Void);
    }

    method RunInput(fuel: nat, t: AST) returns (r: Result<Value, Error>)
      requires Valid()
      modifies this
      ensures Valid()
      ensures Agrees(r, Snapshot(), EvalInput(fuel, t, old(Snapshot())))
      decreases fuel, t, 2, 0
    {
      if |t.subs| == 0 {
        return Failure(Malformed);
      }
      var prompt := Run(fuel, t.subs[0]);
      if prompt.Failure? {
        return prompt;
      }
      if !prompt.value.Str? {
        return Failure(TypeMismatch);
      }
      out := out + prompt.value.s;
      ghost var st1 := Snapshot();
      var i := 1;
      while i < |t.subs|
        invariant 1 <= i <= |t.subs|
        invariant Valid()
        invariant InputFrom(t, i, Snapshot()) == InputFrom(t, 1, st1)
      {
        if input == [] {
          return Failure(EndOfInput);
        }
        var target, word := t.subs[i], input[0];
        input := input[1..];
        if target.kind == Identifier {
          var n := ParseInt(word);
          if n.None? {
            return Failure(BadInput);
          }
          AssignByVal(target.strval, IntData(n.value));
        } else {
          AssignByVal(target.strval, StrData(word));
        }
        i := i + 1;
      }
      return Success(Void);
    }

    method RunFor(fuel: nat, t: AST) returns (r: Result<Value, Error>)
      requires Valid()
      modifies this
      ensures Valid()
      ensures Agrees(r, Snapshot(), EvalFor(fuel, t, old(Snapshot())))
      decreases fuel, t, 2, 0
    {
      if |t.subs| < (if t.kind == ForLoopStep then 6 else 5) {
        return Failure(Malformed);
      }
      var differ := Stricmp(t.subs[4].strval, t.subs[0].strval);
      if differ != 0 {
        return Failure(MismatchedNext);
      }
      var step := 1;
      if t.kind == ForLoopStep {
        var s := Run(fuel, t.subs[5]);
        if s.Failure? {
          return s;
        }
        if !s.value.Int? {
          return Failure(TypeMismatch);
        }
        step := s.value.i;
      }
      if step == 0 {
        return Failure(ZeroStep);
      }
      var start := Run(fuel, t.subs[1]);
      if start.Failure? {
        return start;
      }
      if !start.value.Int? {
        return Failure(TypeMismatch);
      }
      ghost var st2 := Snapshot();
      var i := start.value.i;
      var f: nat := fuel;
      while true
        invariant f <= fuel
        invariant Valid()
        invariant ForFrom(f, t, i, step, Snapshot()) == ForFrom(fuel, t, start.value.i, step, st2)
        decreases f
      {
        // the end bound is evaluated afresh at every check
        var end := Run(f, t.subs[2]);
        if end.Failure? {
          return end;
        }
        if !end.value.Int? {
          return Failure(TypeMismatch);
        }
        if !Continues(i, end.value.i, step) {
          return Success(Void);
        }
        if f == 0 {
          return Failure(OutOfFuel);
        }
        AssignVariables(t.subs[0], IntData(i));
        var b := Run(f - 1, t.subs[3]);
        if b.Failure? {
          return b;
        }
        i, f := i + step, f - 1;
      }
    }

    method RunIf(fuel: nat, t: AST) returns (r: Result<Value, Error>)
      requires Valid()
      modifies this
      ensures Valid()
      ensures Agrees(r, Snapshot(), EvalIf(fuel, t, old(Snapshot())))
      decreases fuel, t, 2, 0
    {
      var h := RunChild(fuel, t, 0);
      if h.Failure? {
        return h;
      }
      if !h.value.Bool? {
        return Failure(TypeMismatch);
      }
      if !h.value.b && |t.subs| >= 2 {
        r := Run(fuel, t.subs[1]);
        return;
      }
      return h;
    }

    method RunIfCore(fuel: nat, t: AST) returns (r: Result<Value, Error>)
      requires Valid()
      modifies this
      ensures Valid()
      ensures Agrees(r, Snapshot(), EvalIfCore(fuel, t, old(Snapshot())))
      decreases fuel, t, 2, 0
    {
      var c := RunChild(fuel, t, 0);
      if c.Failure? {
        return c;
      }
      if !c.value.Bool? {
        return Failure(TypeMismatch);
      }
      if !c.value.b {
        return Success(Bool(false));
      }
      var b := RunChild(fuel, t, 1);
      if b.Failure? {
        return b;
      }
      return Success(Bool(true));
    }

    method RunWhile(fuel: nat, t: AST) returns (r: Result<Value, Error>)
      requires Valid()
      modifies this
      ensures Valid()
      ensures Agrees(r, Snapshot(), WhileFrom(fuel, t, old(Snapshot())))
      decreases fuel, t, 1, 0
    {
      var f: nat := fuel;
      while true
        invariant f <= fuel
        invariant Valid()
        invariant WhileFrom(f, t, Snapshot()) == WhileFrom(fuel, t, old(Snapshot()))
        decreases f
      {
        var c := RunChild(f, t, 0);
        if c.Failure? {
          return c;
        }
        if !c.value.Bool? {
          return Failure(TypeMismatch);
        }
        if !c.value.b {
          return Success(Void);
        }
        if f == 0 {
          return Failure(OutOfFuel);
        }
        var b := RunChild(f - 1, t, 1);
        if b.Failure? {
          return b;
        }
        f := f - 1;
      }
    }
  }
}
