# simplebasic0 interpreter core in Dafny

simplebasic0 is a small BASIC interpreter. A bison parser builds a tree of
`struct AST` nodes, and `run_ast` (ast.c) walks that tree. Program variables
live in a global singly linked list `vars` of `struct VAR` bindings. Each
binding has a name, a type tag (integer or string) and a value. Names are
compared case-insensitively by `stricmp`.

This project models that core:

- `Names` (names.dfy): `stricmp` as a loop over both strings, proved to
  return 0 exactly for names that agree letter by letter up to case.
- `Variables` (variables.dfy): the variable list as a sequence of bindings,
  head first. Lookup finds the first case-insensitive match. Assignment either
  overwrites the matching binding in place or puts a new one at the head.
  Proved: assignment keeps at most one binding per name, and what a lookup
  sees after an assignment.
- `Ast` (ast.dfy): node kinds with their `#define` codes, the node value, and
  `getAST`, `set_intval`, `set_strval` and `add_param`.
- `Decimal` (decimal.dfy): the text `%d` prints, and reading an integer token
  back.
- `Semantics` (semantics.dfy): `run_ast` as a function from a tree and a
  state to a result value and a new state, or to a fatal error together with
  the output printed before it (`exit(1)` still delivers that output). The
  state is the variable list, the output so far and the unread input.
- `Properties` (properties.dfy): laws of that function, one group per kind of
  node.
- `Programs` (programs.dfy): small BASIC programs evaluated by the model.
- `Interpreter` (interpreter.dfy): `class Interpreter`, whose fields are the
  variable list, the output and the input. Its methods walk the tree with the
  source's loops and update those fields. Each method is proved to give the
  result and the final state that `Semantics` specifies, and after a fatal
  error the same output.

The interpreter's fatal errors are outcomes of the model:

- `DivisionByZero`: "DIVISION BY ZERO".
- `Undefined`: "IDENTIFIER … NOT DEFINED" and "Identifier … undefiend".
- `MismatchedNext`: a NEXT name that differs from the loop variable.
- `ZeroStep`: "STEP cannot be ZERO".

The model adds four outcomes of its own. Each stands for something that is
undefined or not checked in the source.

- `TypeMismatch`: a child's result is read as a type it does not have.
- `Malformed`: a child the source dereferences is missing.
- `BadInput`: an INPUT token is not an integer.
- `EndOfInput`: INPUT finds no token left.

Loops get fuel: a bound on the number of loop-body runs. Running out gives
`OutOfFuel`.

Three behaviours a reader might not expect, all taken from the code:

- Assigning to an existing name also replaces the stored spelling of the name
  (the `memcpy` at ast.c:108).
- PRINT writes a space after every item, including the last, before the
  newline.
- FOR evaluates its start value once and its end bound again at every check.

## Model

| member | source | states |
|---|---|---|
| Names.ToLower | ast.c:70-81 | `tolower`: upper-case letters map 32 code points up; every other character is unchanged; the result is never an upper-case letter |
| Names.Stricmp | ast.c:70-81 | returns 0 or 1, and 0 exactly when both names have the same length and agree at every position after `tolower` |
| Names.SameNameReflexive | ast.c:70-81 | every name matches itself |
| Names.SameNameSymmetric | ast.c:70-81 | matching does not depend on argument order |
| Names.SameNameTransitive | ast.c:70-81 | matching is transitive, so it partitions names into case-insensitive classes |
| Names.SameNameExamples | ast.c:70-81 | "Count" matches "COUNT"; "N1" does not match "n2"; a name does not match a longer one it is a prefix of |
| Variables.Locate | ast.c:87-95 | the position found holds a matching name and no earlier position does; nothing is found exactly when no binding matches |
| Variables.Assign | ast.c:101-114 | an existing name is overwritten at its own position, with the length and every other binding unchanged; a new name is put at the head of the list |
| Variables.UniqueLookup | ast.c:87-95 | when each name is bound at most once, any matching binding is the one lookup returns |
| Variables.LookupAfterAssign | ast.c:101-114 | after assigning binding b, a lookup of a name matching b.name gives b; every other name gives what it gave before |
| Variables.AssignPreservesUnique | ast.c:101-114 | assignment keeps at most one binding per case-insensitive name |
| Variables.AssignLength | ast.c:101-114 | the list grows by one exactly when the name was not already bound |
| Variables.AssignFromIdentifier | ast.c:120-131 | `A = B`, as intended: fails exactly when B is unbound |
| Variables.AssignFromIdentifierEffect | ast.c:120-131 | after the intended `A = B`, A holds B's value and every other name, B included, reads as before |
| Variables.AssignFromIdentifierAsWritten | ast.c:120-131 | the code as written: fails exactly when B is unbound, and never changes the list length |
| Variables.AsWrittenLosesSource | ast.c:120-131 | as written, `A = B` with A and B different names leaves B unbound |
| Variables.AsWrittenDuplicates | ast.c:120-131 | with B bound ahead of A, the code as written leaves two bindings named A; the corrected version gives B=1, A=1 |
| Names.SameName | ast.c:70-81 | the names `stricmp` reports equal: the same length, and equal at every position after `tolower` |
| Variables.Lookup | ast.c:87-95 | the binding `get_identifier_vals` returns: the one at the first matching position, or none |
| Semantics.OutputVariables | ast.c:178-187 | an integer binding prints as its `%d` text, a string binding as its text, each followed by a space; an unbound name prints nothing |
| Semantics.Bind | ast.c:137-172 | `assign_variables` and `assign_variables_by_val` on a state: the variable list becomes the assignment of a binding with that name and typed value; output and input are unchanged |
| Semantics.Eval | ast.c:193-491 | `run_ast`: chooses the case for the node's kind and gives a value and a new state, or the fatal error together with everything printed before it |
| Semantics.Child | ast.c:203 | a child that exists is run; a missing one gives no value, as `run_ast(NULL)` does |
| Semantics.EvalBoth | ast.c:264-266 | the left operand, then the right operand from the state the left one left; the first failure is fatal |
| Semantics.SeqFrom | ast.c:209-212 | the statements run in order, each from the state the previous one left; the first failure is fatal |
| Semantics.PrintFrom | ast.c:218-244 | an INTEXP item prints `%d `, an IDENTIFIER item goes through `output_variables`, a STREXP item prints `%s `, other items print nothing; a newline ends the line |
| Semantics.TruncDiv | ast.c:277-280 | C's `/`: the quotient of the magnitudes, negated when the signs differ |
| Semantics.Arith | ast.c:266-281 | +, -, * and truncating / of the two operands |
| Semantics.EvalArith | ast.c:258-285 | both operands must be integers; a zero divisor is `DivisionByZero`; otherwise the value is the operator applied to them |
| Semantics.EvalAssign | ast.c:290-300 | the kind of the right-hand side selects the form: store an INTEXP value, copy an IDENTIFIER, store a STREXP value, or do nothing |
| Semantics.ReadInt | ast.c:313-323 | an unbound name is `Undefined`; a bound integer gives its value |
| Semantics.ReadStr | ast.c:328-338 | an unbound name is `Undefined`; a bound string gives its text |
| Semantics.EvalInput | ast.c:352-371 | the prompt (first child) is printed, then the remaining children are read |
| Semantics.InputFrom | ast.c:354-369 | each further child consumes one token: an IDENTIFIER target binds its integer reading, any other target binds the token as a string |
| Semantics.EvalFor | ast.c:376-400 | in order: the NEXT name check, then the step (1 without STEP) and the zero-step check, then the start value, read once |
| Semantics.Continues | ast.c:389-396 | the loop goes on while the counter is <= the end for a positive step, and >= it for a negative one |
| Semantics.ForFrom | ast.c:389-398 | each check reads the end bound afresh; while it passes, the variable is assigned the counter, the body runs and the counter advances by the step |
| Semantics.EvalIf | ast.c:405-409 | the second child runs only when the first reports false |
| Semantics.EvalIfCore | ast.c:410-416 | when the condition holds, the body runs and the node reports true; otherwise it reports false |
| Semantics.Compare | ast.c:421-447 | the five comparisons, read off `test_equal`, `test_greater` and `test_less` |
| Semantics.EvalCompare | ast.c:421-447 | the comparison of two integer operands |
| Semantics.EvalEqualStr | ast.c:453-454 | `strcmp(...) == 0` of two string operands |
| Semantics.EvalLogic | ast.c:460-470 | both operands are evaluated, then combined with `&&` or `||` |
| Semantics.EvalNot | ast.c:472-473 | the negation of the operand's truth value |
| Semantics.WhileFrom | ast.c:484-488 | test the first child; while it holds, run the second child and test again |
| Semantics.EvalDoWhile | ast.c:479-488 | run the body (second child) once, then continue as WHILE |
| Properties.IdentifierStrLaw | ast.c:328-338 | reading an unbound name as a string is fatal `Undefined`; a bound string gives its text; an integer binding is a type error |
| Properties.NotLaw | ast.c:472-473 | NOT reports the negation of its operand's truth value |
| Properties.AssignExpressionLaw | ast.c:293-297 | an INTEXP right-hand side binds the left name to its integer value, and a STREXP right-hand side to its string value |
| Properties.AssignmentLaw | ast.c:290-300 | an IDENTIFIER right-hand side copies that variable's value and is fatal when it is unbound; a failing right-hand expression is fatal; any other kind does nothing |
| Properties.ForStepEntry | ast.c:378-390 | with STEP, after the NEXT check, a non-zero step and the start value, the loop counts from the start by that step |
| Properties.Visits | ast.c:389-398 | the reference list of counter values for a constant end bound: start, start+step, … while not past the end |
| Properties.RunBodyFor | ast.c:391-392 | the reference loop body: for each value in order, assign it to the loop variable, then run the body |
| Properties.ForCountDown | ast.c:389-398 | `FOR I = 5 TO 1 STEP -1` runs its body for 5, 4, 3, 2 and 1, in that order |
| Decimal.NatToString | ast.c:226 | the `%d` text of a natural number is non-empty, all digits, and has no leading zero |
| Decimal.IntToString | ast.c:226 | the `%d` text starts with '-' exactly for negative numbers |
| Decimal.ParseInt | ast.c:360-362 | an accepted token is an optional minus sign followed by digits |
| Decimal.ParseNatToString | ast.c:360-362 | reading the digits of n gives back n |
| Decimal.ParseIntToString | ast.c:360-362 | reading an integer back from its `%d` text gives the same integer |
| Ast.Code | ast.h:1-30 | every kind's code lies in 1..30 |
| Ast.CodeRoundTrip | ast.h:1-30 | the thirty codes are distinct: the kind can be recovered from its code |
| Ast.GetAst | ast.c:10-15 | a new node has the given kind, no children and zero payloads |
| Ast.SetIntval | ast.c:37-40 | only the integer payload changes |
| Ast.SetStrval | ast.c:46-50 | only the text payload changes |
| Ast.AddParam | ast.c:22-31 | the new child comes after all existing children, which are kept in order; nothing else changes |
| Ast.BuildKeepsOrder | ast.c:22-31 | a node built by `getAST` and then `add_param` calls has exactly the added children, in the order they were added |
| Properties.TruncDivRemainder | ast.c:277-280 | division truncates toward zero: the remainder is smaller in magnitude than the divisor and has the dividend's sign |
| Properties.TruncDivExamples | ast.c:277-280 | -7/2 is -3, not Dafny's -4; the other sign combinations are shown too |
| Properties.ArithmeticLaw | ast.c:258-285 | ADD, MINUS, MULTIPLY and DIVIDE give a+b, a-b, a*b and the truncated quotient of their operands, left operand evaluated first; dividing by zero is fatal |
| Properties.ComparisonAlgebra | ast.c:421-447 | EQUAL, GREATER and LESS are =, > and <; NOLESS is EQUAL or GREATER (>=); NOGREATER is EQUAL or LESS (<=) |
| Properties.ComparisonLaw | ast.c:421-447 | a comparison node reports that comparison of its two integer operands |
| Properties.StringEqualityLaw | ast.c:453-454 | EQUALSTR is true exactly when the strings have equal length and equal characters, case included |
| Properties.NoShortCircuit | ast.c:460-470 | AND and OR always evaluate their right operand: its failure is fatal, and its effects are kept |
| Properties.IdentifierLaw | ast.c:313-323 | reading an unbound name is fatal `Undefined`; a bound integer gives its value |
| Properties.ReadAfterBind | ast.c:313-338 | a value assigned under one spelling reads back under any case-insensitive spelling, as int or as string |
| Properties.ForMismatchedNext | ast.c:378-381 | a NEXT name different from the loop variable is fatal before anything is evaluated |
| Properties.ForZeroStep | ast.c:382-388 | a STEP of 0 is fatal before the start value is evaluated or the body runs |
| Properties.ForDefaultStep | ast.c:382-389 | without STEP, the loop starts at the start value with step 1 |
| Properties.VisitsValues | ast.c:389-398 | the k-th counter value visited is start + k·step and is within the bound; the value after the last one is past the bound |
| Properties.VisitsCount | ast.c:389-393 | with step > 0 and start <= end, the body runs (end - start) / step + 1 times |
| Properties.VisitsExamples | ast.c:389-398 | examples: 1 TO 5, 5 TO 1 STEP -1, 1 TO 10 STEP 3, and an empty range |
| Properties.ConstIntEval | ast.c:249-253 | a literal, possibly wrapped in INTEXP, evaluates to its value without changing the state |
| Properties.ForConstantBound | ast.c:389-398 | with a constant end bound, the loop runs its body once per visited value, in order, assigning that value to the loop variable before each run |
| Properties.RunEmptyBodyLeavesLast | ast.c:389-393 | with an empty body, the loop variable ends holding the last value visited |
| Properties.ForLeavesLastValue | ast.c:389-393 | after `FOR I = 1 TO 5` with an empty body, I is 5; the final increment is never stored |
| Properties.IfCoreLaw | ast.c:410-416 | IFCORE runs its body and reports true exactly when its condition holds; otherwise it reports false and runs nothing |
| Properties.IfChainLaw | ast.c:405-409 | IF and IFCORE_TREE run their second child only when the first reports false |
| Properties.WhileFalse | ast.c:484-488 | WHILE with a false condition runs its body zero times |
| Properties.WhileFromIgnoresKind | ast.c:479-488 | the WHILE loop depends only on the node's children, so DO-WHILE can fall through into it |
| Properties.DoWhileIsBodyThenWhile | ast.c:479-488 | DO-WHILE runs its body once, then behaves as WHILE over the same children |
| Properties.DoWhileFalseRunsOnce | ast.c:479-488 | DO-WHILE with a false condition runs its body exactly once |
| Programs.Unwrap | ast.c:305-308 | INTEXP and STREXP give their child's result |
| Programs.PrintItem | ast.c:222-239 | an INTEXP or STREXP item of PRINT writes its value's text followed by a space |
| Programs.OnePlusTwo | ast.c:258-285 | `1 + 2` evaluates to 3 and changes nothing |
| Programs.PrintLastY | ast.c:178-187 | a last PRINT item naming an integer variable writes its `%d` text and a space, then the newline |
| Programs.PrintSeparators | ast.c:218-244 | `PRINT 1 + 2, "x", Y` with Y = 7 writes "3 x 7 " and a newline |
| Programs.InputReadsPrintedNumber | ast.c:352-371 | `INPUT "N? ", N` writes the prompt, consumes one token and binds N to the number that token prints as |
| Programs.OutputBeforeFatal | ast.c:209-285 | `PRINT "a"` then `PRINT 1 / 0`: the division is fatal, and the line "a " printed before it is part of the failure's output |
| Programs.InputErrors | ast.c:352-371 | INPUT fails when no token is left, and when an integer target gets a token that is not a number |
| Programs.DecrementEffect | ast.c:290-300 | `N = N - 1` lowers N by one and leaves the other binding alone |
| Programs.ShrinkingFirstPass | ast.c:389-393 | first check of `FOR I = 1 TO N` with N = 4: the body runs with I = 1 |
| Programs.ShrinkingPass | ast.c:389-393 | a later check that passes binds the counter and runs the body |
| Programs.ShrinkingStop | ast.c:389-393 | a check whose counter is past the current end bound ends the loop with the state unchanged |
| Programs.ForRechecksEnd | ast.c:389-393 | the end bound is evaluated again at every check: a body that lowers N from 4 stops the loop after two runs, not four |
| Interpreter.Interpreter.constructor | ast.c:56-64 | the interpreter starts with an empty variable list, no output and the given input |
| Interpreter.Interpreter.GetIdentifierVals | ast.c:87-95 | the scan returns the position of the first binding whose name `stricmp` matches, or nothing when none does |
| Interpreter.Interpreter.AssignCore | ast.c:101-114 | the new list is the specified assignment; at most one binding per name is kept |
| Interpreter.Interpreter.AssignByVal | ast.c:157-172 | binds the name to the typed value; output and input are unchanged |
| Interpreter.Interpreter.AssignVariables | ast.c:137-151 | the same, with the name taken from the left-hand node |
| Interpreter.Interpreter.AssignViaIdentifier | ast.c:120-131 | the intended `A = B`: fails exactly when B is unbound, and otherwise gives the list specified by `AssignFromIdentifier` |
| Interpreter.Interpreter.OutputVariables | ast.c:178-187 | appends the variable's `%d` or `%s` text and a space, or nothing when the name is unbound; the variables are unchanged |
| Interpreter.Interpreter.Run | ast.c:193-491 | the result and the final fields are those `Semantics.Eval` gives, and after a fatal error the output is the one it gives; at most one binding per name is kept |
| Interpreter.Interpreter.RunChild | ast.c:203 | running a missing child gives no value |
| Interpreter.Interpreter.RunBoth | ast.c:264-266 | evaluates the left operand, then the right, and stops at the first failure |
| Interpreter.Interpreter.RunStatements | ast.c:209-212 | the statement loop agrees with `Semantics` for the whole list |
| Interpreter.Interpreter.RunPrint | ast.c:218-244 | the PRINT loop's output and result agree with `Semantics` |
| Interpreter.Interpreter.RunArith | ast.c:258-285 | the arithmetic case agrees with `Semantics`, including the zero-divisor failure |
| Interpreter.Interpreter.RunCompare | ast.c:421-447 | the comparison case agrees with `Semantics` |
| Interpreter.Interpreter.RunEqualStr | ast.c:453-454 | the string-equality case agrees with `Semantics` |
| Interpreter.Interpreter.RunLogic | ast.c:460-470 | the AND/OR case agrees with `Semantics` |
| Interpreter.Interpreter.RunAssign | ast.c:290-300 | assignment from an INTEXP, an IDENTIFIER or a STREXP agrees with `Semantics` |
| Interpreter.Interpreter.RunInput | ast.c:352-371 | the INPUT loop's prompt, token consumption and bindings agree with `Semantics` |
| Interpreter.Interpreter.RunFor | ast.c:376-400 | the FOR loop agrees with `Semantics`: checks in order, end bound re-read at every check, variable set before each body run |
| Interpreter.Interpreter.RunIf | ast.c:405-409 | the IF / IFCORE_TREE case agrees with `Semantics` |
| Interpreter.Interpreter.RunIfCore | ast.c:410-416 | the IFCORE case agrees with `Semantics` |
| Interpreter.Interpreter.RunWhile | ast.c:484-488 | the WHILE loop agrees with `Semantics` |

## Left out

- main.c: it opens the program file and calls the bison parser `yyparse`. That is I/O and generated code, so it is not part of this model. The parser is not part of it either, so trees are taken as given.
- Real I/O: `printf`, `putchar` and `scanf` are modelled as appending to an output string and taking tokens from an input sequence. Each token is assumed to be what `scanf` would deliver: non-empty and without white space. The model does not enforce this, and it passes any string through as given.
- Names with an inner NUL: names are assumed to contain no NUL character, as C strings from the parser cannot. The model does not check this, and `Names.Stricmp` compares the whole sequence where C would stop at the first NUL.
- Decimal.ParseInt: accepts only a whole token of an optional '-' followed by digits. `scanf("%d")` also skips a leading '+', stops at the first non-digit, and leaves its target unchanged on failure. Those cases are `BadInput` here.
- INPUT into a string target: the source does not set the binding's type tag (ast.c:363-367), so the tag stays 0. The model stores the value as a string. The visible difference: `output_variables` prints nothing for a binding whose tag is neither TYPE_INT nor TYPE_STRING (ast.c:182-185), so a PRINT item naming such a variable prints nothing in C, while `Semantics.OutputVariables` prints its text. The 256-byte `tmpstr` buffer and its overflow are not modelled.
- C `int` overflow in arithmetic and in the FOR counter is undefined behaviour. The model uses unbounded integers.
- `malloc`, `memset`, `strcpy` and `memcpy` as memory operations are not modelled, nor are leaks or the undersized `malloc(sizeof(struct VAR *))` at ast.c:139 and ast.c:159. Only their effect on names and values is.
- Ast.AddParam: modelled on values. The in-place walk and relinking of the `next` chain, and any aliasing of a node shared between two parents, are not captured.
- Interpreter.Interpreter.Run: loops carry fuel. A program whose loops exceed it ends in `OutOfFuel`, where the source would go on running, possibly forever.
- Interpreter.Interpreter.RunIf: IF and IFCORE_TREE return no value in the source, because the function falls off its end. The model returns the value of the last child evaluated.
- Reinterpreting the untyped `void *` result is not modelled. Examples: comparisons returning 0/1 cast to a pointer, or an IDENTIFIER read of a string binding's `val.intval`. These cases give `TypeMismatch`. A missing child gives `Malformed` where the source dereferences it or the pointer it yields: either operand of arithmetic, a comparison or EQUALSTR, an AND/OR with no children (ast.c:465 follows `ast->subs->next`), the right-hand side of ASSIGNMENT, an INPUT with no children, the children of FOR, and a DO-WHILE with no children (ast.c:480). Any other missing child is `run_ast(NULL)` and gives `Void`.
- Semantics.Child: C reads the NULL that `run_ast(NULL)` returns for a missing child as false, so a WHILE without a condition stops (ast.c:485), an IFCORE without one returns 0 (ast.c:411-415) and a NOT without an operand returns 1 (ast.c:473); the model reads that missing result as `Void`, and these nodes fail with `TypeMismatch`. AND/OR read a missing right operand as 0 (ast.c:465-469), so AND gives 0 and OR the left operand; the model's `EvalBoth` gives `Malformed` for a node with fewer than two children.
- Properties.StringEqualityLaw: the model evaluates the left operand of EQUALSTR first. C leaves the order of the two `run_ast` calls inside `strcmp(...)` unspecified.

## Findings

| source | as written | input that shows it | evidently intended | confidence | as-written member | corrected member |
|---|---|---|---|---|---|---|
| ast.c:120-131 | `A = B` stores A's name into B's own binding and then hands that binding to `assign_variables_core` | `B = 1 : A = B`, then reading B: B is no longer defined. With B bound ahead of an existing A, two bindings named A remain | A receives a copy of B's type and value; B is unchanged | not executed | Variables.AsWrittenLosesSource | Variables.AssignFromIdentifierEffect |
