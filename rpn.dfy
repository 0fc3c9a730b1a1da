/** RPN::eval, the stack machine. The stack is a fixed array of 32 slots,
    all starting at the default value Num(0.0), with a `top` index. Push,
    LoadGlobal and LoadPara write the slot at `top` and move it up; the
    binary instructions take the right operand from the top, the left one
    below it, and leave their result in its place; the unary instructions
    replace the top value. CallDef evaluates up to eight argument programs
    and, when the global it names is a function, runs that function's body
    on them and pushes the result. The program's value is the BOTTOM slot.

    Every out-of-range access and every failed operation is an error;
    running out of `fuel`, the bound on nested function calls, is one too. */
module Machine {
  import G = Geometry
  import opened Outcome
  import opened MathValue

  const MaxStackSize: nat := 32
  const MaxCallArgs: nat := 8

  /** The 32 slots of the stack and the index of the first free one. */
  datatype Stack = Stack(slots: seq<MathData>, top: nat)

  predicate WellSized(st: Stack) {
    |st.slots| == MaxStackSize && st.top <= MaxStackSize
  }

  /** `[MathData; 32]::default()` with `top = 0`. */
  function EmptyStack(): (st: Stack)
    ensures WellSized(st)
  {
    Stack(seq(MaxStackSize, _ => Default), 0)
  }

  /** `[MathData; 8]::default()`, the call_args array before the loop. */
  function NoArgs(): (a: seq<MathData>)
    ensures |a| == MaxCallArgs
  {
    seq(MaxCallArgs, _ => Default)
  }

  /** `stack[top] = v; top += 1`, which fails on a full stack. */
  function Place(st: Stack, v: MathData): (r: Result<Stack, Fault>)
    requires WellSized(st)
    ensures r.Ok? <==> st.top < MaxStackSize
    ensures r.Ok? ==> WellSized(r.value) && r.value == Stack(st.slots[st.top := v], st.top + 1)
  {
    if st.top >= MaxStackSize then Err(StackOverflow) else Ok(Stack(st.slots[st.top := v], st.top + 1))
  }

  /** The value RPN::eval returns for a program. */
  function Eval(p: Rpn, env: seq<MathData>, args: seq<MathData>, m: G.Libm, fuel: nat): Result<MathData, Fault>
    decreases fuel, p, 3
  {
    match Run(p.ops, EmptyStack(), env, args, m, fuel)
    case Ok(st) => Ok(st.slots[0])
    case Err(e) => Err(e)
  }

  /** The stack after running the instructions ops one after the other. */
  function Run(ops: seq<Op>, st: Stack, env: seq<MathData>, args: seq<MathData>, m: G.Libm, fuel: nat)
    : (r: Result<Stack, Fault>)
    requires WellSized(st)
    ensures r.Ok? ==> WellSized(r.value)
    decreases fuel, ops, 2
  {
    if ops == [] then Ok(st)
    else
      match Exec(ops[0], st, env, args, m, fuel)
      case Ok(next) => Run(ops[1..], next, env, args, m, fuel)
      case Err(e) => Err(e)
  }

  /** One instruction. */
  function Exec(op: Op, st: Stack, env: seq<MathData>, args: seq<MathData>, m: G.Libm, fuel: nat)
    : (r: Result<Stack, Fault>)
    requires WellSized(st)
    ensures r.Ok? ==> WellSized(r.value)
    decreases fuel, op, 1
  {
    match op
    case Push(v) => Place(st, v)
    case LoadGlobal(gi) => if gi >= |env| then Err(GlobalOutOfRange) else Place(st, env[gi])
    case LoadPara(pi) => if pi >= |args| then Err(ParameterOutOfRange) else Place(st, args[pi])
    case Add => Binary(op, st)
    case Sub => Binary(op, st)
    case Mul => Binary(op, st)
    case Div => Binary(op, st)
    case Sin => UnaryStep(op, st, m)
    case Cos => UnaryStep(op, st, m)
    case Tan => UnaryStep(op, st, m)
    case CallDef(index, _) =>
      match CallArgs(op, 0, NoArgs(), env, args, m, fuel)
      case Err(e) => Err(e)
      case Ok(callArgs) =>
        if index >= |env| then Err(GlobalOutOfRange)
        else
          match env[index]
          case Fun(paraCount, body) =>
            if paraCount > MaxCallArgs then Err(TooManyParameters)
            else if fuel == 0 then Err(OutOfFuel)
            else
              (match Eval(body, env, callArgs[..paraCount], m, fuel - 1)
               case Err(e) => Err(e)
               case Ok(v) => Place(st, v))
          case _ => Ok(st)
  }

  /** A binary instruction: rhs from slot top - 1, lhs from top - 2, the
      result into top - 2; the vacated slot keeps the default value that
      mem::take left there. */
  function Binary(op: Op, st: Stack): (r: Result<Stack, Fault>)
    requires IsArith(op) && WellSized(st)
    ensures r.Ok? ==> WellSized(r.value)
  {
    if st.top < 2 then Err(StackUnderflow)
    else
      var rhs := st.slots[st.top - 1];
      var lhs := st.slots[st.top - 2];
      match Arith(op, lhs, rhs)
      case Err(e) => Err(e)
      case Ok(v) => Ok(Stack(st.slots[st.top - 1 := Default][st.top - 2 := v], st.top - 1))
  }

  /** A unary instruction: the top value replaced by its image. */
  function UnaryStep(op: Op, st: Stack, m: G.Libm): (r: Result<Stack, Fault>)
    requires IsUnary(op) && WellSized(st)
    ensures r.Ok? ==> WellSized(r.value)
  {
    if st.top < 1 then Err(StackUnderflow)
    else
      match Unary(op, st.slots[st.top - 1], m)
      case Err(e) => Err(e)
      case Ok(v) => Ok(Stack(st.slots[st.top - 1 := v], st.top))
  }

  /** The call_args array of CallDef after the argument loop has reached
      parameter k: argument programs 0..7 are evaluated in order against
      the caller's globals and arguments; any further ones are skipped. */
  function CallArgs(op: Op, k: nat, acc: seq<MathData>, env: seq<MathData>, args: seq<MathData>,
                    m: G.Libm, fuel: nat): (r: Result<seq<MathData>, Fault>)
    requires op.CallDef? && |acc| == MaxCallArgs
    ensures r.Ok? ==> |r.value| == MaxCallArgs
    decreases fuel, op, 0, |op.paras| - k
  {
    if k >= |op.paras| then Ok(acc)
    else if k < MaxCallArgs then
      match Eval(op.paras[k], env, args, m, fuel)
      case Err(e) => Err(e)
      case Ok(v) => CallArgs(op, k + 1, acc[k := v], env, args, m, fuel)
    else CallArgs(op, k + 1, acc, env, args, m, fuel)
  }

  /** One instruction on the stack array: returns the new top. */
  method Step(op: Op, stack: array<MathData>, top: nat, env: seq<MathData>, args: seq<MathData>,
              m: G.Libm, fuel: nat) returns (r: Result<nat, Fault>)
    requires WellSized(Stack(stack[..], top))
    modifies stack
    ensures var want := Exec(op, Stack(old(stack[..]), top), env, args, m, fuel);
      match want
      case Ok(st) => r == Ok(st.top) && stack[..] == st.slots
      case Err(e) => r == Err(e)
    decreases fuel, op, 1
  {
    match op {
      case Push(v) =>
        if top >= MaxStackSize { return Err(StackOverflow); }
        stack[top] := v;
        return Ok(top + 1);
      case LoadGlobal(gi) =>
        if gi >= |env| { return Err(GlobalOutOfRange); }
        if top >= MaxStackSize { return Err(StackOverflow); }
        stack[top] := env[gi];
        return Ok(top + 1);
      case LoadPara(pi) =>
        if pi >= |args| { return Err(ParameterOutOfRange); }
        if top >= MaxStackSize { return Err(StackOverflow); }
        stack[top] := args[pi];
        return Ok(top + 1);
      case Add => r := BinaryStep(op, stack, top);
      case Sub => r := BinaryStep(op, stack, top);
      case Mul => r := BinaryStep(op, stack, top);
      case Div => r := BinaryStep(op, stack, top);
      case Sin => r := UnaryOp(op, stack, top, m);
      case Cos => r := UnaryOp(op, stack, top, m);
      case Tan => r := UnaryOp(op, stack, top, m);
      case CallDef(index, _) =>
        var callArgs := FillCallArgs(op, env, args, m, fuel);
        if callArgs.Err? { return Err(callArgs.error); }
        if index >= |env| { return Err(GlobalOutOfRange); }
        match env[index] {
          case Fun(paraCount, body) =>
            if paraCount > MaxCallArgs { return Err(TooManyParameters); }
            if fuel == 0 { return Err(OutOfFuel); }
            var v := Evaluate(body, env, callArgs.value[..paraCount], m, fuel - 1);
            if v.Err? { return Err(v.error); }
            if top >= MaxStackSize { return Err(StackOverflow); }
            stack[top] := v.value;
            return Ok(top + 1);
          case _ =>
            return Ok(top);
        }
    }
  }

  /** The four binary instructions on the stack array. */
  method BinaryStep(op: Op, stack: array<MathData>, top: nat) returns (r: Result<nat, Fault>)
    requires IsArith(op) && WellSized(Stack(stack[..], top))
    modifies stack
    ensures match Binary(op, Stack(old(stack[..]), top))
      case Ok(st) => r == Ok(st.top) && stack[..] == st.slots
      case Err(e) => r == Err(e)
  {
    if top < 2 { return Err(StackUnderflow); }
    var t := top - 1;
    var rhs := stack[t];
    stack[t] := Default;
    t := t - 1;
    var lhs := stack[t];
    stack[t] := Default;
    var v := Arith(op, lhs, rhs);
    if v.Err? { return Err(v.error); }
    stack[t] := v.value;
    return Ok(t + 1);
  }

  /** sin, cos and tan on the stack array. */
  method UnaryOp(op: Op, stack: array<MathData>, top: nat, m: G.Libm) returns (r: Result<nat, Fault>)
    requires IsUnary(op) && WellSized(Stack(stack[..], top))
    modifies stack
    ensures match UnaryStep(op, Stack(old(stack[..]), top), m)
      case Ok(st) => r == Ok(st.top) && stack[..] == st.slots
      case Err(e) => r == Err(e)
  {
    if top < 1 { return Err(StackUnderflow); }
    var t := top - 1;
    var val := stack[t];
    stack[t] := Default;
    var v := Unary(op, val, m);
    if v.Err? { return Err(v.error); }
    stack[t] := v.value;
    return Ok(top);
  }

  /** The argument loop of CallDef, on an eight-slot array. */
  method FillCallArgs(op: Op, env: seq<MathData>, args: seq<MathData>, m: G.Libm, fuel: nat)
    returns (r: Result<seq<MathData>, Fault>)
    requires op.CallDef?
    ensures r == CallArgs(op, 0, NoArgs(), env, args, m, fuel)
    decreases fuel, op, 0
  {
    var callArgs := new MathData[MaxCallArgs](_ => Default);
    ghost var start := callArgs[..];
    assert start == NoArgs();
    for i := 0 to |op.paras|
      invariant CallArgs(op, 0, start, env, args, m, fuel) == CallArgs(op, i, callArgs[..], env, args, m, fuel)
    {
      if i < MaxCallArgs {
        var v := Evaluate(op.paras[i], env, args, m, fuel);
        if v.Err? { return Err(v.error); }
        callArgs[i] := v.value;
      }
    }
    return Ok(callArgs[..]);
  }

  /** RPN::eval. */
  method Evaluate(p: Rpn, env: seq<MathData>, args: seq<MathData>, m: G.Libm, fuel: nat)
    returns (r: Result<MathData, Fault>)
    ensures r == Eval(p, env, args, m, fuel)
    decreases fuel, p, 3
  {
    var stack := new MathData[MaxStackSize](_ => Default);
    var top: nat := 0;
    assert stack[..] == EmptyStack().slots;
    for i := 0 to |p.ops|
      invariant WellSized(Stack(stack[..], top))
      invariant Run(p.ops, EmptyStack(), env, args, m, fuel) == Run(p.ops[i..], Stack(stack[..], top), env, args, m, fuel)
    {
      assert p.ops[i..][1..] == p.ops[i + 1..];
      var res := Step(p.ops[i], stack, top, env, args, m, fuel);
      if res.Err? { return Err(res.error); }
      top := res.value;
    }
    return Ok(stack[0]);
  }

  /** An empty program returns the untouched bottom slot: Num(0.0). */
  lemma EmptyProgram(env: seq<MathData>, args: seq<MathData>, m: G.Libm, fuel: nat)
    ensures Eval(Rpn([]), env, args, m, fuel) == Ok(Num(0.0))
  {
  }

  /** The program's value is the bottom slot, not the top one: pushing a
      then b returns a. */
  lemma ResultIsBottom(a: MathData, b: MathData, env: seq<MathData>, args: seq<MathData>, m: G.Libm, fuel: nat)
    ensures Eval(Rpn([Push(a), Push(b)]), env, args, m, fuel) == Ok(a)
  {
    var s0 := EmptyStack();
    var s1 := Stack(s0.slots[0 := a], 1);
    var s2 := Stack(s1.slots[1 := b], 2);
    assert Exec(Push(a), s0, env, args, m, fuel) == Ok(s1);
    assert Exec(Push(b), s1, env, args, m, fuel) == Ok(s2);
    assert [Push(a), Push(b)][1..] == [Push(b)];
    assert Run([Push(b)], s1, env, args, m, fuel) == Ok(s2);
  }

  /** A lone operand followed by a binary instruction underflows: this is
      the program the compiler produces for a negated operand such as -5. */
  lemma NegationUnderflows(x: real, env: seq<MathData>, args: seq<MathData>, m: G.Libm, fuel: nat)
    ensures Eval(Rpn([Push(Num(x)), Sub]), env, args, m, fuel) == Err(StackUnderflow)
  {
    var s0 := EmptyStack();
    var s1 := Stack(s0.slots[0 := Num(x)], 1);
    assert Exec(Push(Num(x)), s0, env, args, m, fuel) == Ok(s1);
    assert [Push(Num(x)), Sub][1..] == [Sub];
    assert Run([Sub], s1, env, args, m, fuel) == Err(StackUnderflow);
  }

  /** Running a ++ b is running a, then b on a's final stack. */
  lemma {:induction false} RunAppend(a: seq<Op>, b: seq<Op>, st: Stack, env: seq<MathData>, args: seq<MathData>,
                                     m: G.Libm, fuel: nat)
    requires WellSized(st)
    ensures Run(a + b, st, env, args, m, fuel) ==
      match Run(a, st, env, args, m, fuel)
      case Ok(mid) => Run(b, mid, env, args, m, fuel)
      case Err(e) => Err(e)
    decreases |a|
  {
    if a == [] {
      assert a + b == b;
    } else {
      assert (a + b)[0] == a[0];
      assert (a + b)[1..] == a[1..] + b;
      match Exec(a[0], st, env, args, m, fuel) {
        case Ok(next) =>
          assert Run(a + b, st, env, args, m, fuel) == Run(a[1..] + b, next, env, args, m, fuel);
          assert Run(a, st, env, args, m, fuel) == Run(a[1..], next, env, args, m, fuel);
          RunAppend(a[1..], b, next, env, args, m, fuel);
        case Err(x) =>
          assert Run(a + b, st, env, args, m, fuel) == Err(x);
          assert Run(a, st, env, args, m, fuel) == Err(x);
      }
    }
  }

  /** A CallDef naming a global that is not a function pushes nothing. */
  lemma CallDefOnValue(index: nat, paras: seq<Rpn>, st: Stack, env: seq<MathData>, args: seq<MathData>,
                       m: G.Libm, fuel: nat)
    requires WellSized(st) && index < |env| && !env[index].Fun?
    requires CallArgs(CallDef(index, paras), 0, NoArgs(), env, args, m, fuel).Ok?
    ensures Exec(CallDef(index, paras), st, env, args, m, fuel) == Ok(st)
  {
  }

  /** Only the first eight argument programs of a CallDef are evaluated:
      any beyond them neither change the arguments nor can fail. */
  lemma {:induction false} CallArgsFirstEight(index: nat, paras: seq<Rpn>, k: nat, acc: seq<MathData>,
                                              env: seq<MathData>, args: seq<MathData>, m: G.Libm, fuel: nat)
    requires |acc| == MaxCallArgs && |paras| > MaxCallArgs && k <= MaxCallArgs
    ensures CallArgs(CallDef(index, paras), k, acc, env, args, m, fuel) ==
            CallArgs(CallDef(index, paras[..MaxCallArgs]), k, acc, env, args, m, fuel)
    decreases MaxCallArgs - k
  {
    var long, short := CallDef(index, paras), CallDef(index, paras[..MaxCallArgs]);
    if k == MaxCallArgs {
      SkipRest(long, k, acc, env, args, m, fuel);
    } else {
      assert short.paras[k] == paras[k];
      match Eval(paras[k], env, args, m, fuel) {
        case Ok(v) => CallArgsFirstEight(index, paras, k + 1, acc[k := v], env, args, m, fuel);
        case Err(_) =>
      }
    }
  }

  /** Past the eighth parameter the argument loop changes nothing. */
  lemma {:induction false} SkipRest(op: Op, k: nat, acc: seq<MathData>, env: seq<MathData>, args: seq<MathData>,
                                    m: G.Libm, fuel: nat)
    requires op.CallDef? && |acc| == MaxCallArgs && k >= MaxCallArgs
    ensures CallArgs(op, k, acc, env, args, m, fuel) == Ok(acc)
    decreases |op.paras| - k
  {
    if k < |op.paras| {
      SkipRest(op, k + 1, acc, env, args, m, fuel);
    }
  }

  /** Arithmetic expressions over constants, globals and parameters: the
      meaning of the programs the machine runs. */
  datatype Expr =
    | Lit(value: MathData)
    | Global(gi: nat)
    | Param(pi: nat)
    | BinaryExpr(op: Op, lhs: Expr, rhs: Expr)
    | UnaryExpr(op: Op, arg: Expr)

  predicate WellFormedExpr(e: Expr) {
    match e
    case BinaryExpr(op, l, r) => IsArith(op) && WellFormedExpr(l) && WellFormedExpr(r)
    case UnaryExpr(op, a) => IsUnary(op) && WellFormedExpr(a)
    case _ => true
  }

  /** The expression's value, left operand first. */
  function Value(e: Expr, env: seq<MathData>, args: seq<MathData>, m: G.Libm): Result<MathData, Fault>
    requires WellFormedExpr(e)
  {
    match e
    case Lit(v) => Ok(v)
    case Global(gi) => if gi < |env| then Ok(env[gi]) else Err(GlobalOutOfRange)
    case Param(pi) => if pi < |args| then Ok(args[pi]) else Err(ParameterOutOfRange)
    case BinaryExpr(op, l, r) =>
      (match Value(l, env, args, m)
       case Err(x) => Err(x)
       case Ok(lv) =>
         match Value(r, env, args, m)
         case Err(x) => Err(x)
         case Ok(rv) => Arith(op, lv, rv))
    case UnaryExpr(op, a) =>
      match Value(a, env, args, m)
      case Err(x) => Err(x)
      case Ok(v) => Unary(op, v, m)
  }

  /** The expression in reverse Polish notation. */
  function Postfix(e: Expr): seq<Op> {
    match e
    case Lit(v) => [Push(v)]
    case Global(gi) => [LoadGlobal(gi)]
    case Param(pi) => [LoadPara(pi)]
    case BinaryExpr(op, l, r) => Postfix(l) + Postfix(r) + [op]
    case UnaryExpr(op, a) => Postfix(a) + [op]
  }

  /** The stack slots the postfix program of e needs. */
  function Need(e: Expr): nat {
    match e
    case BinaryExpr(_, l, r) => var a, b := Need(l), 1 + Need(r); if a >= b then a else b
    case UnaryExpr(_, a) => Need(a)
    case _ => 1
  }

  /** Running the postfix program of e from st pushes e's value and leaves
      every slot below untouched; if e has no value, the program fails
      with the same error. */
  ghost predicate Pushes(e: Expr, st: Stack, env: seq<MathData>, args: seq<MathData>, m: G.Libm, fuel: nat)
    requires WellFormedExpr(e) && WellSized(st)
  {
    var r := Run(Postfix(e), st, env, args, m, fuel);
    match Value(e, env, args, m)
    case Err(x) => r == Err(x)
    case Ok(v) => r.Ok? && r.value.top == st.top + 1 &&
                  r.value.slots[..st.top] == st.slots[..st.top] && r.value.slots[st.top] == v
  }

  /** A binary expression pushes its value once both operands do. */
  lemma PushesBinary(op: Op, l: Expr, r: Expr, st: Stack, env: seq<MathData>, args: seq<MathData>, m: G.Libm,
                     fuel: nat)
    requires IsArith(op) && WellFormedExpr(l) && WellFormedExpr(r) && WellSized(st)
    requires Pushes(l, st, env, args, m, fuel)
    requires Value(l, env, args, m).Ok? ==>
               Run(Postfix(l), st, env, args, m, fuel).Ok? && WellSized(Run(Postfix(l), st, env, args, m, fuel).value) &&
               Pushes(r, Run(Postfix(l), st, env, args, m, fuel).value, env, args, m, fuel)
    ensures Pushes(BinaryExpr(op, l, r), st, env, args, m, fuel)
  {
    var e := BinaryExpr(op, l, r);
    RunAppend(Postfix(l) + Postfix(r), [op], st, env, args, m, fuel);
    RunAppend(Postfix(l), Postfix(r), st, env, args, m, fuel);
    assert Postfix(e) == Postfix(l) + Postfix(r) + [op];
    match Value(l, env, args, m) {
      case Err(_) =>
      case Ok(lv) =>
        var s1 := Run(Postfix(l), st, env, args, m, fuel).value;
        match Value(r, env, args, m) {
          case Err(_) =>
          case Ok(rv) =>
            var s2 := Run(Postfix(r), s1, env, args, m, fuel).value;
            BinaryOnPushed(op, st, s1, s2, lv, rv);
            assert Run([op], s2, env, args, m, fuel) == Binary(op, s2);
        }
    }
  }

  /** A binary instruction on two values pushed one after the other above
      st leaves their combination in the first one's slot. */
  lemma {:induction false} BinaryOnPushed(op: Op, st: Stack, s1: Stack, s2: Stack, lv: MathData, rv: MathData)
    requires IsArith(op) && WellSized(st) && WellSized(s1) && WellSized(s2)
    requires s1.top == st.top + 1 && s1.slots[..st.top] == st.slots[..st.top] && s1.slots[st.top] == lv
    requires s2.top == s1.top + 1 && s2.slots[..s1.top] == s1.slots[..s1.top] && s2.slots[s1.top] == rv
    ensures match Arith(op, lv, rv)
      case Err(x) => Binary(op, s2) == Err(x)
      case Ok(v) =>
        Binary(op, s2).Ok? && Binary(op, s2).value.top == st.top + 1 &&
        Binary(op, s2).value.slots[..st.top] == st.slots[..st.top] && Binary(op, s2).value.slots[st.top] == v
  {
    assert s2.slots[st.top] == lv by {
      assert s2.slots[..s1.top][st.top] == s1.slots[..s1.top][st.top];
    }
    assert s2.slots[..st.top] == st.slots[..st.top] by {
      assert s2.slots[..st.top] == s2.slots[..s1.top][..st.top];
      assert s1.slots[..st.top] == s1.slots[..s1.top][..st.top];
    }
  }

  /** A unary expression pushes its value once its operand does. */
  lemma PushesUnary(op: Op, a: Expr, st: Stack, env: seq<MathData>, args: seq<MathData>, m: G.Libm, fuel: nat)
    requires IsUnary(op) && WellFormedExpr(a) && WellSized(st)
    requires Pushes(a, st, env, args, m, fuel)
    ensures Pushes(UnaryExpr(op, a), st, env, args, m, fuel)
  {
    RunAppend(Postfix(a), [op], st, env, args, m, fuel);
    match Value(a, env, args, m) {
      case Err(_) =>
      case Ok(v) =>
        var s1 := Run(Postfix(a), st, env, args, m, fuel).value;
        assert Run([op], s1, env, args, m, fuel) == UnaryStep(op, s1, m);
    }
  }

  /** Every expression that fits on the stack pushes its value. */
  lemma {:induction false} PostfixRun(e: Expr, st: Stack, env: seq<MathData>, args: seq<MathData>, m: G.Libm,
                                      fuel: nat)
    requires WellFormedExpr(e) && WellSized(st) && st.top + Need(e) <= MaxStackSize
    ensures Pushes(e, st, env, args, m, fuel)
  {
    match e {
      case Lit(v) =>
        assert Run([Push(v)], st, env, args, m, fuel) == Ok(Stack(st.slots[st.top := v], st.top + 1));
      case Global(gi) =>
        if gi < |env| {
          assert Run([LoadGlobal(gi)], st, env, args, m, fuel) == Ok(Stack(st.slots[st.top := env[gi]], st.top + 1));
        }
      case Param(pi) =>
        if pi < |args| {
          assert Run([LoadPara(pi)], st, env, args, m, fuel) == Ok(Stack(st.slots[st.top := args[pi]], st.top + 1));
        }
      case BinaryExpr(op, l, r) =>
        PostfixRun(l, st, env, args, m, fuel);
        if Value(l, env, args, m).Ok? {
          PostfixRun(r, Run(Postfix(l), st, env, args, m, fuel).value, env, args, m, fuel);
        }
        PushesBinary(op, l, r, st, env, args, m, fuel);
      case UnaryExpr(op, a) =>
        PostfixRun(a, st, env, args, m, fuel);
        PushesUnary(op, a, st, env, args, m, fuel);
    }
  }

  /** The machine computes what the expression means: evaluating the
      postfix program of an expression that fits in 32 slots gives its
      value, or its error. */
  lemma PostfixEval(e: Expr, env: seq<MathData>, args: seq<MathData>, m: G.Libm, fuel: nat)
    requires WellFormedExpr(e) && Need(e) <= MaxStackSize
    ensures Eval(Rpn(Postfix(e)), env, args, m, fuel) == Value(e, env, args, m)
  {
    PostfixRun(e, EmptyStack(), env, args, m, fuel);
  }
}
