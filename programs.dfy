/**
 * Small BASIC programs, as the parser would build them, evaluated by the
 * model: the PRINT separators, INPUT reading back a printed number, and a
 * FOR loop whose end bound the body changes.
 */
module Programs {
  import opened Wrappers
  import opened Names
  import opened Variables
  import opened Ast
  import opened Decimal
  import opened Semantics

  function Lit(n: int): AST { Node(IntLit, [], n, "") }
  function Text(s: string): AST { Node(StrLit, [], 0, s) }
  function Var(name: string): AST { Node(Identifier, [], 0, name) }
  function IntE(e: AST): AST { Node(IntExp, [e], 0, "") }
  function StrE(e: AST): AST { Node(StrExp, [e], 0, "") }
  function Op(k: Kind, a: AST, b: AST): AST { Node(k, [a, b], 0, "") }

  /** INTEXP and STREXP pass on their child's value. */
  lemma Unwrap(fuel: nat, e: AST, s: State)
    ensures Eval(fuel, IntE(e), s) == Eval(fuel, e, s)
    ensures Eval(fuel, StrE(e), s) == Eval(fuel, e, s)
  {
    assert Child(fuel, IntE(e), 0, s) == Eval(fuel, e, s);
    assert Child(fuel, StrE(e), 0, s) == Eval(fuel, e, s);
  }

  /** A binary node over two wrapped operands sees the operands' values. */
  lemma Operand2(fuel: nat, a: AST, b: AST, k: Kind, x: Value, y: Value, s: State)
    requires Eval(fuel, a, s) == Ok(x, s) && Eval(fuel, b, s) == Ok(y, s)
    ensures EvalBoth(fuel, Op(k, a, b), s) == Operands(x, y, s)
  {
  }

  /** One PRINT item that evaluates to a value without changing the variables: its text and a space are written. */
  lemma PrintItem(fuel: nat, t: AST, i: nat, st: State, v: Value)
    requires t.kind == Print && i < |t.subs|
    requires t.subs[i].kind == IntExp || t.subs[i].kind == StrExp
    requires Eval(fuel, t.subs[i], st) == Ok(v, st)
    requires t.subs[i].kind == IntExp ==> v.Int?
    requires t.subs[i].kind == StrExp ==> v.Str?
    ensures PrintFrom(fuel, t, i, st) ==
      PrintFrom(fuel, t, i + 1, st.(out := st.out + (if v.Int? then IntToString(v.i) else v.s) + " "))
  {
  }

  lemma OnePlusTwo(fuel: nat, st: State)
    ensures Eval(fuel, IntE(Op(Add, Lit(1), Lit(2))), st) == Ok(Int(3), st)
  {
    var sum := Op(Add, Lit(1), Lit(2));
    assert EvalBoth(fuel, sum, st) == Operands(Int(1), Int(2), st);
    assert Eval(fuel, sum, st) == Ok(Int(3), st);
    Unwrap(fuel, sum, st);
  }

  /** A last PRINT item naming Y = 7 writes "7 ", then the line ends. */
  lemma PrintLastY(fuel: nat, t: AST, st: State)
    requires t.kind == Print && |t.subs| == 3 && t.subs[2] == Var("Y")
    requires st.vars == [Binding("Y", IntData(7))]
    ensures PrintFrom(fuel, t, 2, st) == Ok(Void, st.(out := st.out + "7 \n"))
  {
    SameNameReflexive("Y");
    assert Lookup(st.vars, "Y") == Some(st.vars[0]);
    assert IntToString(7) == "7";
    assert OutputVariables(st.vars, "Y") == "7 ";
    assert st.out + "7 " + "\n" == st.out + "7 \n";
  }

  /** `PRINT 1 + 2, "x", Y` with Y = 7 writes "3 x 7 " and a newline: every item, the last included, is followed by a space. */
  lemma PrintSeparators(fuel: nat, input: seq<string>)
    ensures Eval(fuel, Node(Print, [IntE(Op(Add, Lit(1), Lit(2))), StrE(Text("x")), Var("Y")], 0, ""),
                 State([Binding("Y", IntData(7))], "", input))
         == Ok(Void, State([Binding("Y", IntData(7))], "3 x 7 \n", input))
  {
    var t := Node(Print, [IntE(Op(Add, Lit(1), Lit(2))), StrE(Text("x")), Var("Y")], 0, "");
    var st := State([Binding("Y", IntData(7))], "", input);
    OnePlusTwo(fuel, st);
    assert IntToString(3) == "3";
    PrintItem(fuel, t, 0, st, Int(3));
    var st1 := st.(out := "3 ");
    assert st.out + "3" + " " == st1.out;
    Unwrap(fuel, Text("x"), st1);
    PrintItem(fuel, t, 1, st1, Str("x"));
    var st2 := st.(out := "3 x ");
    assert st1.out + "x" + " " == st2.out;
    PrintLastY(fuel, t, st2);
    assert st2.out + "7 \n" == "3 x 7 \n";
  }

  /**
   * `PRINT "a"` followed by `PRINT 1 / 0`: the division is fatal, and the
   * line printed before it is part of what the program delivers.
   */
  lemma OutputBeforeFatal(fuel: nat, st: State)
    ensures Eval(fuel, Node(Statements, [Node(Print, [StrE(Text("a"))], 0, ""),
                                         Node(Print, [IntE(Op(Divide, Lit(1), Lit(0)))], 0, "")], 0, ""), st)
         == Fail(DivisionByZero, st.out + "a \n")
  {
    var greet := Node(Print, [StrE(Text("a"))], 0, "");
    var quot := Op(Divide, Lit(1), Lit(0));
    var fatal := Node(Print, [IntE(quot)], 0, "");
    var t := Node(Statements, [greet, fatal], 0, "");
    Unwrap(fuel, Text("a"), st);
    PrintItem(fuel, greet, 0, st, Str("a"));
    var st1 := st.(out := st.out + "a \n");
    assert st.out + "a" + " " + "\n" == st1.out;
    assert Eval(fuel, greet, st) == Ok(Void, st1);
    Operand2(fuel, Lit(1), Lit(0), Divide, Int(1), Int(0), st1);
    assert Eval(fuel, quot, st1) == Fail(DivisionByZero, st1.out);
    Unwrap(fuel, quot, st1);
    assert Eval(fuel, fatal, st1) == Fail(DivisionByZero, st1.out);
    assert SeqFrom(fuel, t, 1, st1) == Fail(DivisionByZero, st1.out);
  }

  /**
   * `INPUT "N? ", N` whose next token is what `%d` prints for n writes the
   * prompt, consumes that token and binds N to n.
   */
  lemma InputReadsPrintedNumber(fuel: nat, prompt: string, name: string, n: int, rest: seq<string>, st: State)
    ensures Eval(fuel, Node(Input, [StrE(Text(prompt)), Var(name)], 0, ""), st.(input := [IntToString(n)] + rest))
         == Ok(Void, State(Assign(st.vars, Binding(name, IntData(n))), st.out + prompt, rest))
    ensures Lookup(Assign(st.vars, Binding(name, IntData(n))), name) == Some(Binding(name, IntData(n)))
  {
    var t := Node(Input, [StrE(Text(prompt)), Var(name)], 0, "");
    var st0 := st.(input := [IntToString(n)] + rest);
    Unwrap(fuel, Text(prompt), st0);
    assert Eval(fuel, t.subs[0], st0) == Ok(Str(prompt), st0);
    ParseIntToString(n);
    var st1 := st0.(out := st.out + prompt);
    assert st1.input[1..] == rest;
    assert InputFrom(t, 1, st1) == InputFrom(t, 2, Bind(st1.(input := rest), name, IntData(n)));
    LookupAfterAssign(st.vars, Binding(name, IntData(n)), name);
    SameNameReflexive(name);
  }

  /** INPUT with no token left, or a non-number for an integer target, is an error. */
  lemma InputErrors(fuel: nat, name: string, st: State)
    ensures Eval(fuel, Node(Input, [StrE(Text("")), Var(name)], 0, ""), st.(input := [])) == Fail(EndOfInput, st.out)
    ensures Eval(fuel, Node(Input, [StrE(Text("")), Var(name)], 0, ""), st.(input := ["x"])) == Fail(BadInput, st.out)
  {
    var t := Node(Input, [StrE(Text("")), Var(name)], 0, "");
    Unwrap(fuel, Text(""), st.(input := []));
    Unwrap(fuel, Text(""), st.(input := ["x"]));
    assert Eval(fuel, t.subs[0], st.(input := [])) == Ok(Str(""), st.(input := []));
    assert Eval(fuel, t.subs[0], st.(input := ["x"])) == Ok(Str(""), st.(input := ["x"]));
    assert ParseInt("x") == None by {
      assert !IsDigit('x');
    }
  }

  /** `N = N - 1` */
  function Decrement(): AST
  {
    Node(Assignment, [Var("N"), IntE(Op(Minus, IntE(Var("N")), IntE(Lit(1))))], 0, "")
  }

  /** `FOR I = 1 TO N : N = N - 1 : NEXT I` */
  function ShrinkingLoop(): AST
  {
    Node(ForLoop, [Var("I"), IntE(Lit(1)), IntE(Var("N")), Decrement(), Var("I")], 0, "")
  }

  lemma DecrementEffect(fuel: nat, i: int, n: int, st: State)
    ensures Eval(fuel, Decrement(), st.(vars := [Binding("I", IntData(i)), Binding("N", IntData(n))]))
         == Ok(Void, st.(vars := [Binding("I", IntData(i)), Binding("N", IntData(n - 1))]))
  {
    var vars := [Binding("I", IntData(i)), Binding("N", IntData(n))];
    var s := st.(vars := vars);
    DistinctNames();
    assert Locate(vars, "N") == Some(1);
    assert Eval(fuel, Var("N"), s) == Ok(Int(n), s);
    var rhs := Op(Minus, IntE(Var("N")), IntE(Lit(1)));
    Unwrap(fuel, Var("N"), s);
    Unwrap(fuel, Lit(1), s);
    Operand2(fuel, IntE(Var("N")), IntE(Lit(1)), Minus, Int(n), Int(1), s);
    assert Eval(fuel, rhs, s) == Ok(Int(n - 1), s);
    Unwrap(fuel, rhs, s);
    assert Eval(fuel, IntE(rhs), s) == Ok(Int(n - 1), s);
    assert Assign(vars, Binding("N", IntData(n - 1))) == [Binding("I", IntData(i)), Binding("N", IntData(n - 1))];
  }

  function Counters(i: int, n: int): seq<Binding>
  {
    [Binding("I", IntData(i)), Binding("N", IntData(n))]
  }

  lemma DistinctNames()
    ensures !SameName("I", "N") && !SameName("N", "I")
    ensures SameName("I", "I") && SameName("N", "N")
  {
    assert "I"[0] == 'I' && "N"[0] == 'N';
    assert ToLower('I') != ToLower('N');
    SameNameReflexive("I");
    SameNameReflexive("N");
  }

  /** The first check, with only N bound: 1 <= 4, so I = 1 is bound and N drops to 3. */
  lemma ShrinkingFirstPass(fuel: nat, st: State)
    requires fuel >= 1 && st.vars == [Binding("N", IntData(4))]
    ensures ForFrom(fuel, ShrinkingLoop(), 1, 1, st) == ForFrom(fuel - 1, ShrinkingLoop(), 2, 1, st.(vars := Counters(1, 3)))
  {
    var t := ShrinkingLoop();
    DistinctNames();
    assert Locate(st.vars, "N") == Some(0);
    assert Locate(st.vars, "I") == None;
    Unwrap(fuel, Var("N"), st);
    assert Eval(fuel, t.subs[2], st) == Ok(Int(4), st);
    assert Bind(st, "I", IntData(1)) == st.(vars := Counters(1, 4));
    DecrementEffect(fuel - 1, 1, 4, st);
  }

  /** A later check that passes: the counter is bound, then the body lowers N by one. */
  lemma ShrinkingPass(fuel: nat, j: int, i: int, n: int, st: State)
    requires fuel >= 1 && i <= n
    ensures ForFrom(fuel, ShrinkingLoop(), i, 1, st.(vars := Counters(j, n)))
         == ForFrom(fuel - 1, ShrinkingLoop(), i + 1, 1, st.(vars := Counters(i, n - 1)))
  {
    var t := ShrinkingLoop();
    var s := st.(vars := Counters(j, n));
    DistinctNames();
    assert Locate(s.vars, "N") == Some(1);
    assert Locate(s.vars, "I") == Some(0);
    Unwrap(fuel, Var("N"), s);
    assert Eval(fuel, t.subs[2], s) == Ok(Int(n), s);
    assert Bind(s, "I", IntData(i)) == st.(vars := Counters(i, n));
    DecrementEffect(fuel - 1, i, n, st);
  }

  /** A check that fails ends the loop with the state unchanged. */
  lemma ShrinkingStop(fuel: nat, j: int, i: int, n: int, st: State)
    requires i > n
    ensures ForFrom(fuel, ShrinkingLoop(), i, 1, st.(vars := Counters(j, n))) == Ok(Void, st.(vars := Counters(j, n)))
  {
    var s := st.(vars := Counters(j, n));
    DistinctNames();
    assert Locate(s.vars, "N") == Some(1);
    Unwrap(fuel, Var("N"), s);
    assert Eval(fuel, ShrinkingLoop().subs[2], s) == Ok(Int(n), s);
  }

  /**
   * The end bound is evaluated again at every check: with N = 4, the loop
   * above runs its body twice (I = 1 and I = 2, after which I = 3 exceeds
   * N = 2), not four times as a bound fixed at entry would give.
   */
  lemma ForRechecksEnd(fuel: nat, out: string, input: seq<string>)
    requires fuel >= 2
    ensures Eval(fuel, ShrinkingLoop(), State([Binding("N", IntData(4))], out, input))
         == Ok(Void, State(Counters(2, 2), out, input))
  {
    var t := ShrinkingLoop();
    var st := State([Binding("N", IntData(4))], out, input);
    DistinctNames();
    Unwrap(fuel, Lit(1), st);
    assert Eval(fuel, t.subs[1], st) == Ok(Int(1), st);
    assert EvalFor(fuel, t, st) == ForFrom(fuel, t, 1, 1, st);
    ShrinkingFirstPass(fuel, st);
    ShrinkingPass(fuel - 1, 1, 2, 3, st);
    ShrinkingStop(fuel - 2, 2, 3, 2, st);
  }
}
