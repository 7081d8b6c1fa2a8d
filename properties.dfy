/** Properties of the evaluator `Semantics.Eval`, one group per kind of node. */
module Properties {
  import opened Wrappers
  import opened Names
  import opened Variables
  import opened Ast
  import opened Semantics

  // ---------------------------------------------------------------- arithmetic

  /** C99 division: the remainder left by the truncated quotient is smaller than the divisor and has the dividend's sign. */
  lemma TruncDivRemainder(a: int, b: int)
    requires b != 0
    ensures var r := a - b * TruncDiv(a, b);
      Abs(r) < Abs(b) && (a >= 0 ==> r >= 0) && (a <= 0 ==> r <= 0)
  {
    var q := Abs(a) / Abs(b);
    var m := Abs(a) % Abs(b);
    assert Abs(a) == Abs(b) * q + m && 0 <= m < Abs(b);
    if b > 0 {
      assert b * q == Abs(b) * q;
      if a >= 0 {
        assert a - b * TruncDiv(a, b) == m;
      } else {
        assert b * TruncDiv(a, b) == -(Abs(b) * q);
        assert a - b * TruncDiv(a, b) == -m;
      }
    } else {
      assert b * q == -(Abs(b) * q);
      if a >= 0 {
        assert b * TruncDiv(a, b) == Abs(b) * q;
        assert a - b * TruncDiv(a, b) == m;
      } else {
        assert a - b * TruncDiv(a, b) == -m;
      }
    }
  }

  /** Truncation differs from Dafny's Euclidean division on negative operands. */
  lemma TruncDivExamples()
    ensures TruncDiv(-7, 2) == -3 && -7 / 2 == -4
    ensures TruncDiv(7, -2) == -3 && TruncDiv(-7, -2) == 3 && TruncDiv(7, 2) == 3
  {
  }

  predicate IsArith(k: Kind)
  {
    k == Add || k == Minus || k == Multiply || k == Divide
  }

  /**
   * ADD, MINUS, MULTIPLY and DIVIDE give left+right, left-right, left*right
   * and the truncated quotient of their two operands, evaluated left first.
   * A zero right operand of DIVIDE is fatal and yields no value.
   */
  lemma ArithmeticLaw(fuel: nat, t: AST, st: State, a: int, st1: State, b: int, st2: State)
    requires IsArith(t.kind) && |t.subs| >= 2
    requires Eval(fuel, t.subs[0], st) == Ok(Int(a), st1)
    requires Eval(fuel, t.subs[1], st1) == Ok(Int(b), st2)
    ensures t.kind == Add ==> Eval(fuel, t, st) == Ok(Int(a + b), st2)
    ensures t.kind == Minus ==> Eval(fuel, t, st) == Ok(Int(a - b), st2)
    ensures t.kind == Multiply ==> Eval(fuel, t, st) == Ok(Int(a * b), st2)
    ensures t.kind == Divide && b == 0 ==> Eval(fuel, t, st) == Fail(DivisionByZero, st2.out)
    ensures t.kind == Divide && b != 0 ==> Eval(fuel, t, st) == Ok(Int(TruncDiv(a, b)), st2)
  {
    assert EvalBoth(fuel, t, st) == Operands(Int(a), Int(b), st2);
    assert Eval(fuel, t, st) == EvalArith(fuel, t, st);
  }

  // ---------------------------------------------------------------- comparisons

  /** EQUAL, GREATER and LESS are the integer predicates; NOLESS is EQUAL or GREATER, NOGREATER is EQUAL or LESS. */
  lemma ComparisonAlgebra(a: int, b: int)
    ensures Compare(CondEqual, a, b) == (a == b)
    ensures Compare(CondGreater, a, b) == (a > b)
    ensures Compare(CondLess, a, b) == (a < b)
    ensures Compare(CondNoLess, a, b) == (Compare(CondEqual, a, b) || Compare(CondGreater, a, b)) == (a >= b)
    ensures Compare(CondNoGreater, a, b) == (Compare(CondEqual, a, b) || Compare(CondLess, a, b)) == (a <= b)
  {
  }

  predicate IsComparison(k: Kind)
  {
    k == CondEqual || k == CondGreater || k == CondLess || k == CondNoLess || k == CondNoGreater
  }

  /** A comparison node reports its comparison of the two integer operands. */
  lemma ComparisonLaw(fuel: nat, t: AST, st: State, a: int, st1: State, b: int, st2: State)
    requires IsComparison(t.kind) && |t.subs| >= 2
    requires Eval(fuel, t.subs[0], st) == Ok(Int(a), st1)
    requires Eval(fuel, t.subs[1], st1) == Ok(Int(b), st2)
    ensures Eval(fuel, t, st) == Ok(Bool(Compare(t.kind, a, b)), st2)
  {
    assert EvalBoth(fuel, t, st) == Operands(Int(a), Int(b), st2);
    assert Eval(fuel, t, st) == EvalCompare(fuel, t, st);
  }

  /** String equality is exact: equal length and equal characters, case included. */
  lemma StringEqualityLaw(fuel: nat, t: AST, st: State, x: string, st1: State, y: string, st2: State)
    requires t.kind == CondEqualStr && |t.subs| >= 2
    requires Eval(fuel, t.subs[0], st) == Ok(Str(x), st1)
    requires Eval(fuel, t.subs[1], st1) == Ok(Str(y), st2)
    ensures Eval(fuel, t, st) == Ok(Bool(|x| == |y| && forall i :: 0 <= i < |x| ==> x[i] == y[i]), st2)
  {
    assert EvalBoth(fuel, t, st) == Operands(Str(x), Str(y), st2);
    if |x| == |y| && forall i :: 0 <= i < |x| ==> x[i] == y[i] {
      assert x == y;
    }
  }

  /** AND and OR always evaluate the right operand: its failure is fatal, and its effects are kept, whatever the left operand said. */
  lemma NoShortCircuit(fuel: nat, t: AST, st: State, p: bool, st1: State)
    requires (t.kind == CondAnd || t.kind == CondOr) && |t.subs| >= 2
    requires Eval(fuel, t.subs[0], st) == Ok(Bool(p), st1)
    ensures Eval(fuel, t.subs[1], st1).Fail? ==> Eval(fuel, t, st) == Eval(fuel, t.subs[1], st1)
    ensures Eval(fuel, t.subs[1], st1).Ok? && Eval(fuel, t.subs[1], st1).value.Bool? ==>
      Eval(fuel, t, st) == Ok(Bool(if t.kind == CondAnd then p && Eval(fuel, t.subs[1], st1).value.b
                                   else p || Eval(fuel, t.subs[1], st1).value.b),
                              Eval(fuel, t.subs[1], st1).st)
  {
    assert Eval(fuel, t, st) == EvalLogic(fuel, t, st);
    match Eval(fuel, t.subs[1], st1)
    case Fail(e, o) =>
      assert EvalBoth(fuel, t, st) == OperandsFail(e, o);
    case Ok(q, st2) =>
      assert EvalBoth(fuel, t, st) == Operands(Bool(p), q, st2);
  }

  // ---------------------------------------------------------------- identifiers

  /** Reading a name as an integer: fatal when unbound, its value when integer-typed, a type error when string-typed. */
  lemma IdentifierLaw(fuel: nat, t: AST, st: State)
    requires t.kind == Identifier
    ensures Lookup(st.vars, t.strval).None? ==> Eval(fuel, t, st) == Fail(Undefined(t.strval), st.out)
    ensures Lookup(st.vars, t.strval).Some? && Lookup(st.vars, t.strval).value.val.IntData? ==>
      Eval(fuel, t, st) == Ok(Int(Lookup(st.vars, t.strval).value.val.i), st)
    ensures Lookup(st.vars, t.strval).Some? && Lookup(st.vars, t.strval).value.val.StrData? ==>
      Eval(fuel, t, st) == Fail(TypeMismatch, st.out)
  {
  }

  /** A value assigned under one spelling is read back under any spelling of the same name. */
  lemma ReadAfterBind(st: State, name: string, other: string, d: Data)
    requires SameName(name, other)
    ensures ReadInt(Bind(st, name, d), other) ==
      if d.IntData? then Ok(Int(d.i), Bind(st, name, d)) else Fail(TypeMismatch, st.out)
    ensures ReadStr(Bind(st, name, d), other) ==
      if d.StrData? then Ok(Str(d.s), Bind(st, name, d)) else Fail(TypeMismatch, st.out)
  {
    LookupAfterAssign(st.vars, Binding(name, d), other);
  }

  /** Reading a name as a string: fatal when unbound, its text when string-typed, a type error when integer-typed. */
  lemma IdentifierStrLaw(fuel: nat, t: AST, st: State)
    requires t.kind == IdentifierStr
    ensures Lookup(st.vars, t.strval).None? ==> Eval(fuel, t, st) == Fail(Undefined(t.strval), st.out)
    ensures Lookup(st.vars, t.strval).Some? && Lookup(st.vars, t.strval).value.val.StrData? ==>
      Eval(fuel, t, st) == Ok(Str(Lookup(st.vars, t.strval).value.val.s), st)
    ensures Lookup(st.vars, t.strval).Some? && Lookup(st.vars, t.strval).value.val.IntData? ==>
      Eval(fuel, t, st) == Fail(TypeMismatch, st.out)
  {
  }

  /** NOT negates the truth value its operand reports. */
  lemma NotLaw(fuel: nat, t: AST, st: State, c: bool, st1: State)
    requires t.kind == CondNot && |t.subs| >= 1
    requires Eval(fuel, t.subs[0], st) == Ok(Bool(c), st1)
    ensures Eval(fuel, t, st) == Ok(Bool(!c), st1)
  {
    assert Child(fuel, t, 0, st) == Ok(Bool(c), st1);
    assert Eval(fuel, t, st) == EvalNot(fuel, t, st);
  }

  // ---------------------------------------------------------------- ASSIGNMENT

  /**
   * ASSIGNMENT with an INTEXP or STREXP right-hand side that evaluates to v:
   * the left name is bound to v (an integer for INTEXP, a string for STREXP).
   */
  lemma AssignExpressionLaw(fuel: nat, t: AST, st: State, v: Value, st1: State)
    requires t.kind == Assignment && |t.subs| >= 2
    requires t.subs[1].kind == IntExp || t.subs[1].kind == StrExp
    requires Eval(fuel, t.subs[1], st) == Ok(v, st1)
    ensures t.subs[1].kind == IntExp && v.Int? ==> Eval(fuel, t, st) == Ok(Void, Bind(st1, t.subs[0].strval, IntData(v.i)))
    ensures t.subs[1].kind == StrExp && v.Str? ==> Eval(fuel, t, st) == Ok(Void, Bind(st1, t.subs[0].strval, StrData(v.s)))
    ensures t.subs[1].kind == IntExp && !v.Int? ==> Eval(fuel, t, st) == Fail(TypeMismatch, st1.out)
    ensures t.subs[1].kind == StrExp && !v.Str? ==> Eval(fuel, t, st) == Fail(TypeMismatch, st1.out)
  {
    assert Eval(fuel, t, st) == EvalAssign(fuel, t, st);
  }

  /**
   * ASSIGNMENT from an IDENTIFIER copies the named variable's value, and is
   * fatal when it is unbound; a failing right-hand expression is fatal; any
   * other right-hand kind does nothing.
   */
  lemma AssignmentLaw(fuel: nat, t: AST, st: State)
    requires t.kind == Assignment && |t.subs| >= 2
    ensures t.subs[1].kind == Identifier && Lookup(st.vars, t.subs[1].strval).None? ==>
      Eval(fuel, t, st) == Fail(Undefined(t.subs[1].strval), st.out)
    ensures t.subs[1].kind == Identifier && Lookup(st.vars, t.subs[1].strval).Some? ==>
      Eval(fuel, t, st) == Ok(Void, Bind(st, t.subs[0].strval, Lookup(st.vars, t.subs[1].strval).value.val))
    ensures (t.subs[1].kind == IntExp || t.subs[1].kind == StrExp) && Eval(fuel, t.subs[1], st).Fail? ==>
      Eval(fuel, t, st) == Eval(fuel, t.subs[1], st)
    ensures t.subs[1].kind !in {IntExp, StrExp, Identifier} ==> Eval(fuel, t, st) == Ok(Void, st)
  {
    assert Eval(fuel, t, st) == EvalAssign(fuel, t, st);
  }

  // ---------------------------------------------------------------- FOR

  predicate IsFor(t: AST)
  {
    (t.kind == ForLoop && |t.subs| >= 5) || (t.kind == ForLoopStep && |t.subs| >= 6)
  }

  /** A NEXT name that differs from the loop variable is fatal before anything else is evaluated. */
  lemma ForMismatchedNext(fuel: nat, t: AST, st: State)
    requires IsFor(t) && !SameName(t.subs[4].strval, t.subs[0].strval)
    ensures Eval(fuel, t, st) == Fail(MismatchedNext, st.out)
  {
  }

  /** A STEP of zero is fatal before the start value is evaluated or the body runs. */
  lemma ForZeroStep(fuel: nat, t: AST, st: State, st1: State)
    requires IsFor(t) && t.kind == ForLoopStep && SameName(t.subs[4].strval, t.subs[0].strval)
    requires Eval(fuel, t.subs[5], st) == Ok(Int(0), st1)
    ensures Eval(fuel, t, st) == Fail(ZeroStep, st1.out)
  {
  }

  /** Without STEP the counter starts at the start value and advances by 1. */
  lemma ForDefaultStep(fuel: nat, t: AST, st: State, start: int, st1: State)
    requires IsFor(t) && t.kind == ForLoop && SameName(t.subs[4].strval, t.subs[0].strval)
    requires Eval(fuel, t.subs[1], st) == Ok(Int(start), st1)
    ensures Eval(fuel, t, st) == ForFrom(fuel, t, start, 1, st1)
  {
  }

  /**
   * With STEP, once the NEXT name matches, the step is non-zero and the start
   * value has been read, the loop counts from the start by the step.
   */
  lemma ForStepEntry(fuel: nat, t: AST, st: State, step: int, st1: State, start: int, st2: State)
    requires IsFor(t) && t.kind == ForLoopStep && SameName(t.subs[4].strval, t.subs[0].strval)
    requires Eval(fuel, t.subs[5], st) == Ok(Int(step), st1) && step != 0
    requires Eval(fuel, t.subs[1], st1) == Ok(Int(start), st2)
    ensures Eval(fuel, t, st) == ForFrom(fuel, t, start, step, st2)
  {
    assert Eval(fuel, t, st) == EvalFor(fuel, t, st);
  }

  function Span(i: int, end: int, step: int): nat
  {
    if step > 0 then (if i <= end then end - i + 1 else 0)
    else (if i >= end then i - end + 1 else 0)
  }

  /** The counter values a FOR loop with a constant end bound runs its body for: start, start+step, … while not past the end. */
  function Visits(i: int, end: int, step: int): seq<int>
    requires step != 0
    decreases Span(i, end, step)
  {
    if Continues(i, end, step) then [i] + Visits(i + step, end, step) else []
  }

  /** The k-th visit is start + k*step, every visit is within the bound, and the next value is past it. */
  lemma {:induction false} VisitsValues(i: int, end: int, step: int)
    requires step != 0
    ensures forall k :: 0 <= k < |Visits(i, end, step)| ==>
      Visits(i, end, step)[k] == i + k * step && Continues(Visits(i, end, step)[k], end, step)
    ensures !Continues(i + |Visits(i, end, step)| * step, end, step)
    decreases Span(i, end, step)
  {
    var v := Visits(i, end, step);
    if Continues(i, end, step) {
      VisitsValues(i + step, end, step);
      var w := Visits(i + step, end, step);
      assert v == [i] + w;
      forall k | 0 <= k < |v|
        ensures v[k] == i + k * step && Continues(v[k], end, step)
      {
        if k > 0 {
          assert v[k] == w[k - 1];
          ShiftMul(k, step);
        }
      }
      ShiftMul(|v|, step);
    }
  }

  lemma ShiftMul(k: int, step: int)
    ensures (k - 1) * step + step == k * step
  {
  }

  /** With step > 0 and start <= end the body runs (end - start) / step + 1 times. */
  lemma VisitsCount(i: int, end: int, step: int)
    requires step > 0 && i <= end
    ensures |Visits(i, end, step)| == (end - i) / step + 1
  {
    VisitsValues(i, end, step);
    var n := |Visits(i, end, step)|;
    assert n >= 1;
    assert Visits(i, end, step)[n - 1] == i + (n - 1) * step;
    assert i + (n - 1) * step <= end < i + n * step;
    assert (n - 1) * step <= end - i < (n - 1) * step + step;
    DivBetween(end - i, step, n - 1);
  }

  lemma DivBetween(x: int, d: int, q: int)
    requires d > 0 && q * d <= x < q * d + d
    ensures x / d == q
  {
    var q', r' := x / d, x % d;
    assert x == d * q' + r' && 0 <= r' < d;
    if q' > q {
      MulMonotone(d, q + 1, q');
      assert false;
    } else if q' < q {
      MulMonotone(d, q' + 1, q);
      assert false;
    }
  }

  lemma MulMonotone(d: int, a: int, b: int)
    requires d > 0 && a <= b
    ensures d * a <= d * b && d * (a - 1) == d * a - d
  {
  }

  lemma VisitsExamples()
    ensures Visits(1, 5, 1) == [1, 2, 3, 4, 5]
    ensures Visits(5, 1, -1) == [5, 4, 3, 2, 1]
    ensures Visits(1, 10, 3) == [1, 4, 7, 10]
    ensures Visits(3, 1, 1) == []
  {
    assert Visits(6, 5, 1) == [];
    assert Visits(0, 1, -1) == [];
    assert Visits(13, 10, 3) == [];
  }

  /** A constant expression: an integer literal, possibly inside INTEXP wrappers. */
  function ConstInt(e: AST): Option<int>
  {
    if e.kind == IntLit then Some(e.intval)
    else if e.kind == IntExp && |e.subs| >= 1 then ConstInt(e.subs[0])
    else None
  }

  lemma {:induction false} ConstIntEval(fuel: nat, e: AST, st: State)
    requires ConstInt(e).Some?
    ensures Eval(fuel, e, st) == Ok(Int(ConstInt(e).value), st)
  {
    if e.kind == IntExp {
      ConstIntEval(fuel, e.subs[0], st);
    }
  }

  /**
   * Reference semantics of the FOR body: for each value in order, assign it
   * to the loop variable and run the body; one unit of fuel per run.
   */
  function RunBodyFor(fuel: nat, t: AST, vals: seq<int>, st: State): Outcome
    requires |t.subs| >= 5
    decreases |vals|
  {
    if vals == [] then Ok(Void, st)
    else if fuel == 0 then Fail(OutOfFuel, st.out)
    else match Eval(fuel - 1, t.subs[3], Bind(st, t.subs[0].strval, IntData(vals[0])))
      case Fail(e, o) => Fail(e, o)
      case Ok(_, st1) => RunBodyFor(fuel - 1, t, vals[1..], st1)
  }

  /**
   * With a constant end bound, the FOR loop runs its body once for each of
   * start, start+step, … not past the end, in order, assigning the loop
   * variable that value before each run.
   */
  lemma {:induction false} ForConstantBound(fuel: nat, t: AST, i: int, step: int, st: State)
    requires |t.subs| >= 5 && step != 0 && ConstInt(t.subs[2]).Some?
    ensures ForFrom(fuel, t, i, step, st) == RunBodyFor(fuel, t, Visits(i, ConstInt(t.subs[2]).value, step), st)
    decreases fuel
  {
    var end := ConstInt(t.subs[2]).value;
    ConstIntEval(fuel, t.subs[2], st);
    if Continues(i, end, step) && fuel > 0 {
      var vals := Visits(i, end, step);
      assert vals[0] == i && vals[1..] == Visits(i + step, end, step);
      match Eval(fuel - 1, t.subs[3], Bind(st, t.subs[0].strval, IntData(i)))
      case Fail(_, _) =>
      case Ok(_, st1) =>
        ForConstantBound(fuel - 1, t, i + step, step, st1);
    }
  }

  /** `FOR I = 5 TO 1 STEP -1` runs its body for 5, 4, 3, 2 and 1, in that order. */
  lemma ForCountDown(fuel: nat, t: AST, st: State)
    requires IsFor(t) && t.kind == ForLoopStep && SameName(t.subs[4].strval, t.subs[0].strval)
    requires ConstInt(t.subs[5]) == Some(-1) && ConstInt(t.subs[1]) == Some(5) && ConstInt(t.subs[2]) == Some(1)
    ensures Eval(fuel, t, st) == RunBodyFor(fuel, t, [5, 4, 3, 2, 1], st)
  {
    ConstIntEval(fuel, t.subs[5], st);
    ConstIntEval(fuel, t.subs[1], st);
    ForStepEntry(fuel, t, st, -1, st, 5, st);
    ForConstantBound(fuel, t, 5, -1, st);
    VisitsExamples();
  }

  /** An empty statement list: a body with no effect. */
  predicate EmptyBody(t: AST)
  {
    |t.subs| >= 5 && t.subs[3].kind == Statements && t.subs[3].subs == []
  }

  /**
   * With an empty body and enough fuel, the loop variable ends holding the
   * last value visited; the increment that ends the loop is never stored.
   */
  lemma {:induction false} RunEmptyBodyLeavesLast(fuel: nat, t: AST, vals: seq<int>, st: State)
    requires EmptyBody(t) && vals != [] && fuel >= |vals|
    ensures RunBodyFor(fuel, t, vals, st).Ok?
    ensures Lookup(RunBodyFor(fuel, t, vals, st).st.vars, t.subs[0].strval) ==
      Some(Binding(t.subs[0].strval, IntData(vals[|vals| - 1])))
    decreases |vals|
  {
    var name := t.subs[0].strval;
    var st1 := Bind(st, name, IntData(vals[0]));
    assert Eval(fuel - 1, t.subs[3], st1) == Ok(Void, st1);
    if |vals| == 1 {
      assert RunBodyFor(fuel - 1, t, vals[1..], st1) == Ok(Void, st1);
      LookupAfterAssign(st.vars, Binding(name, IntData(vals[0])), name);
      SameNameReflexive(name);
    } else {
      RunEmptyBodyLeavesLast(fuel - 1, t, vals[1..], st1);
    }
  }

  /** `FOR I = 1 TO 5 … NEXT I` with an empty body leaves I at 5, not 6. */
  lemma ForLeavesLastValue(fuel: nat, t: AST, st: State)
    requires EmptyBody(t) && fuel >= 5
    requires ConstInt(t.subs[2]) == Some(5)
    ensures ForFrom(fuel, t, 1, 1, st).Ok?
    ensures Lookup(ForFrom(fuel, t, 1, 1, st).st.vars, t.subs[0].strval) == Some(Binding(t.subs[0].strval, IntData(5)))
  {
    ForConstantBound(fuel, t, 1, 1, st);
    VisitsExamples();
    RunEmptyBodyLeavesLast(fuel, t, Visits(1, 5, 1), st);
  }

  // ---------------------------------------------------------------- IF

  /** IFCORE reports true exactly when its condition holds, and runs its body only then. */
  lemma IfCoreLaw(fuel: nat, t: AST, st: State, c: bool, st1: State)
    requires t.kind == IfCore && |t.subs| >= 1
    requires Eval(fuel, t.subs[0], st) == Ok(Bool(c), st1)
    ensures !c ==> Eval(fuel, t, st) == Ok(Bool(false), st1)
    ensures c ==> Eval(fuel, t, st) == match Child(fuel, t, 1, st1)
      case Fail(e, o) => Fail(e, o)
      case Ok(_, st2) => Ok(Bool(true), st2)
  {
    assert Child(fuel, t, 0, st) == Ok(Bool(c), st1);
    assert Eval(fuel, t, st) == EvalIfCore(fuel, t, st);
  }

  /** IF / IFCORE_TREE run their second child only when the first reports that it did not handle the branch. */
  lemma IfChainLaw(fuel: nat, t: AST, st: State, handled: bool, st1: State)
    requires (t.kind == If || t.kind == IfCoreTree) && |t.subs| >= 1
    requires Eval(fuel, t.subs[0], st) == Ok(Bool(handled), st1)
    ensures handled ==> Eval(fuel, t, st) == Ok(Bool(true), st1)
    ensures !handled && |t.subs| >= 2 ==> Eval(fuel, t, st) == Eval(fuel, t.subs[1], st1)
    ensures !handled && |t.subs| == 1 ==> Eval(fuel, t, st) == Ok(Bool(false), st1)
  {
    assert Child(fuel, t, 0, st) == Ok(Bool(handled), st1);
    assert Eval(fuel, t, st) == EvalIf(fuel, t, st);
  }

  // ---------------------------------------------------------------- WHILE and DO-WHILE

  /** WHILE with a false condition runs its body zero times. */
  lemma WhileFalse(fuel: nat, t: AST, st: State, st1: State)
    requires t.kind == While && |t.subs| >= 1
    requires Eval(fuel, t.subs[0], st) == Ok(Bool(false), st1)
    ensures Eval(fuel, t, st) == Ok(Void, st1)
  {
    assert Child(fuel, t, 0, st) == Ok(Bool(false), st1);
  }

  /** The WHILE loop looks only at the node's children, not at its kind. */
  lemma {:induction false} WhileFromIgnoresKind(fuel: nat, t: AST, k: Kind, st: State)
    ensures WhileFrom(fuel, t.(kind := k), st) == WhileFrom(fuel, t, st)
    decreases fuel
  {
    var u := t.(kind := k);
    assert u.subs == t.subs;
    assert Child(fuel, u, 0, st) == Child(fuel, t, 0, st);
    match Child(fuel, t, 0, st)
    case Fail(_, _) =>
    case Ok(c, st1) =>
      if c.Bool? && c.b && fuel > 0 {
        assert Child(fuel - 1, u, 1, st1) == Child(fuel - 1, t, 1, st1);
        match Child(fuel - 1, t, 1, st1)
        case Fail(_, _) =>
        case Ok(_, st2) =>
          WhileFromIgnoresKind(fuel - 1, t, k, st2);
      }
  }

  /** DO-WHILE runs its body once and then behaves exactly as WHILE over the same children. */
  lemma DoWhileIsBodyThenWhile(fuel: nat, t: AST, st: State)
    requires t.kind == DoWhile && |t.subs| >= 1
    ensures Eval(fuel, t, st) == match Child(fuel, t, 1, st)
      case Fail(e, o) => Fail(e, o)
      case Ok(_, st1) => Eval(fuel, t.(kind := While), st1)
  {
    match Child(fuel, t, 1, st)
    case Fail(_, _) =>
    case Ok(_, st1) =>
      WhileFromIgnoresKind(fuel, t, While, st1);
  }

  /** DO-WHILE with a false condition runs its body exactly once. */
  lemma DoWhileFalseRunsOnce(fuel: nat, t: AST, st: State, st1: State, st2: State)
    requires t.kind == DoWhile && |t.subs| >= 2
    requires Eval(fuel, t.subs[1], st) == Ok(Void, st1)
    requires Eval(fuel, t.subs[0], st1) == Ok(Bool(false), st2)
    ensures Eval(fuel, t, st) == Ok(Void, st2)
  {
    assert Child(fuel, t, 1, st) == Ok(Void, st1);
    assert Child(fuel, t, 0, st1) == Ok(Bool(false), st2);
    assert WhileFrom(fuel, t, st1) == Ok(Void, st2);
    assert Eval(fuel, t, st) == EvalDoWhile(fuel, t, st);
  }
}
