/** The environment of a worksheet: its slices in order, and the values
    computed from them. Updating evaluates every slice in order and
    appends each result, so a slice can refer (by LoadGlobal) to the
    results before it, at their absolute positions. */
module Environment {
  import G = Geometry
  import opened Outcome
  import opened MathValue
  import opened Machine
  import opened Slices

  /** Why update stops: a slice failed, or there is no value to return
      (the expect on data.last()). */
  datatype UpdateError = NoData | SliceFailed(fault: Fault)

  /** The outcome of update from slice k on, given the values so far: the
      returned value (the last one) and the values when it returns. */
  function UpdateFrom(slices: seq<Slice>, k: nat, data: seq<MathData>, m: G.Libm, fuel: nat)
    : (res: (Result<MathData, UpdateError>, seq<MathData>))
    ensures |res.1| >= |data| && res.1[..|data|] == data
    decreases |slices| - k
  {
    if k >= |slices| then
      (if data == [] then Err(NoData) else Ok(data[|data| - 1]), data)
    else
      match SliceEval(slices[k], data, m, fuel)
      case Err(e) => (Err(SliceFailed(e)), data)
      case Ok(v) =>
        var res := UpdateFrom(slices, k + 1, data + [v], m, fuel);
        assert res.1[..|data|] == (data + [v])[..|data|];
        res
  }

  /** A successful update from slice k appends exactly one value per
      remaining slice, each being that slice evaluated against the values
      before it, and returns the last value. */
  lemma {:induction false} UpdateFromAppends(slices: seq<Slice>, k: nat, data: seq<MathData>, m: G.Libm, fuel: nat)
    requires k <= |slices|
    ensures var (r, after) := UpdateFrom(slices, k, data, m, fuel);
      r.Ok? ==>
        |after| == |data| + (|slices| - k) && after != [] && r.value == after[|after| - 1] &&
        forall i :: k <= i < |slices| ==>
          SliceEval(slices[i], after[..|data| + (i - k)], m, fuel) == Ok(after[|data| + (i - k)])
    decreases |slices| - k
  {
    if k < |slices| {
      match SliceEval(slices[k], data, m, fuel) {
        case Err(_) =>
        case Ok(v) =>
          var data' := data + [v];
          UpdateFromAppends(slices, k + 1, data', m, fuel);
          var (r, after) := UpdateFrom(slices, k + 1, data', m, fuel);
          if r.Ok? {
            assert after[..|data|] == data by {
              assert after[..|data'|][..|data|] == data;
            }
            assert after[|data|] == v by {
              assert after[..|data'|][|data|] == v;
            }
          }
      }
    }
  }

  /** update fails for lack of a value to return exactly when there are no
      slices and no values yet. */
  lemma {:induction false} UpdateFromEmpty(slices: seq<Slice>, k: nat, data: seq<MathData>, m: G.Libm, fuel: nat)
    requires k <= |slices|
    ensures UpdateFrom(slices, k, data, m, fuel).0 == Err(NoData) <==> k == |slices| && data == []
    decreases |slices| - k
  {
    if k < |slices| {
      match SliceEval(slices[k], data, m, fuel) {
        case Err(_) =>
        case Ok(v) =>
          UpdateFromEmpty(slices, k + 1, data + [v], m, fuel);
      }
    }
  }

  /** Updating again appends a second round of results after the first,
      without resetting: earlier values keep their absolute positions. */
  lemma UpdateAgain(slices: seq<Slice>, data: seq<MathData>, m: G.Libm, fuel: nat)
    ensures var (r1, d1) := UpdateFrom(slices, 0, data, m, fuel);
      var (r2, d2) := UpdateFrom(slices, 0, d1, m, fuel);
      r1.Ok? && r2.Ok? ==>
        |d2| == |data| + 2 * |slices| && d2[..|d1|] == d1 && d2[..|data|] == data
  {
    var (r1, d1) := UpdateFrom(slices, 0, data, m, fuel);
    UpdateFromAppends(slices, 0, data, m, fuel);
    UpdateFromAppends(slices, 0, d1, m, fuel);
    var d2 := UpdateFrom(slices, 0, d1, m, fuel).1;
    assert d2[..|data|] == d2[..|d1|][..|data|];
  }

  /** f(x) = x + 2.0, the function of the worksheet examples. */
  const AddTwo: Rpn := Rpn([LoadPara(0), Push(Num(2.0)), Add])

  /** f applied to x is x + 2. */
  lemma AddTwoValue(x: real, env: seq<MathData>, m: G.Libm, fuel: nat)
    ensures Eval(AddTwo, env, [Num(x)], m, fuel) == Ok(Num(x + 2.0))
  {
    var s0 := EmptyStack();
    var s1 := Stack(s0.slots[0 := Num(x)], 1);
    var s2 := Stack(s1.slots[1 := Num(2.0)], 2);
    var s3 := Stack(s2.slots[1 := Default][0 := Num(x + 2.0)], 1);
    assert Exec(LoadPara(0), s0, env, [Num(x)], m, fuel) == Ok(s1);
    assert Exec(Push(Num(2.0)), s1, env, [Num(x)], m, fuel) == Ok(s2);
    assert Exec(Add, s2, env, [Num(x)], m, fuel) == Ok(s3);
    var ops := AddTwo.ops;
    assert ops[1..] == [Push(Num(2.0)), Add] && ops[1..][1..] == [Add] && ops[1..][1..][1..] == [];
    assert Run([Add], s2, env, [Num(x)], m, fuel) == Ok(s3);
    assert Run(ops[1..], s1, env, [Num(x)], m, fuel) == Run([Add], s2, env, [Num(x)], m, fuel);
    assert Run(ops, s0, env, [Num(x)], m, fuel) == Run(ops[1..], s1, env, [Num(x)], m, fuel);
  }

  /** Calling global 0, holding f, on one argument program of value x
      pushes x + 2. */
  lemma CallAddTwo(inner: Rpn, x: real, st: Stack, env: seq<MathData>, m: G.Libm, fuel: nat)
    requires |env| > 0 && env[0] == Fun(1, AddTwo) && fuel >= 1
    requires WellSized(st) && st.top < MaxStackSize
    requires Eval(inner, env, [], m, fuel) == Ok(Num(x))
    ensures Exec(CallDef(0, [inner]), st, env, [], m, fuel) == Ok(Stack(st.slots[st.top := Num(x + 2.0)], st.top + 1))
  {
    var op := CallDef(0, [inner]);
    var acc := NoArgs();
    assert CallArgs(op, 0, acc, env, [], m, fuel) == CallArgs(op, 1, acc[0 := Num(x)], env, [], m, fuel);
    var acc' := acc[0 := Num(x)];
    assert CallArgs(op, 1, acc', env, [], m, fuel) == Ok(acc');
    assert acc'[..1] == [Num(x)];
    AddTwoValue(x, env, m, fuel - 1);
    assert Eval(AddTwo, env, acc'[..1], m, fuel - 1) == Ok(Num(x + 2.0));
    assert CallArgs(op, 0, NoArgs(), env, [], m, fuel) == Ok(acc');
    assert Place(st, Num(x + 2.0)) == Ok(Stack(st.slots[st.top := Num(x + 2.0)], st.top + 1));
    assert op.index == 0 && 0 < |env|;
    assert env[op.index] == Fun(1, AddTwo);
  }

  /** The worksheet f(x) = x + 2.0 followed by f(f(1.0)) + 2.0 updates to
      7.0, whenever one level of nested call is allowed. */
  lemma NestedCallExample(m: G.Libm, fuel: nat)
    requires fuel >= 1
    ensures var slices := [Def(1, AddTwo),
                           Call(Rpn([CallDef(0, [Rpn([CallDef(0, [Rpn([Push(Num(1.0))])])])]),
                                     Push(Num(2.0)), Add]))];
      UpdateFrom(slices, 0, [], m, fuel) == (Ok(Num(7.0)), [Fun(1, AddTwo), Num(7.0)])
  {
    var env := [Fun(1, AddTwo)];
    var one := Rpn([Push(Num(1.0))]);
    var s0 := EmptyStack();
    assert Eval(one, env, [], m, fuel) == Ok(Num(1.0)) by {
      assert Run([Push(Num(1.0))], s0, env, [], m, fuel) == Ok(Stack(s0.slots[0 := Num(1.0)], 1));
    }
    var inner := Rpn([CallDef(0, [one])]);
    CallAddTwo(one, 1.0, s0, env, m, fuel);
    assert Eval(inner, env, [], m, fuel) == Ok(Num(3.0)) by {
      assert Run(inner.ops, s0, env, [], m, fuel) == Ok(Stack(s0.slots[0 := Num(3.0)], 1));
    }
    var outer := Rpn([CallDef(0, [inner]), Push(Num(2.0)), Add]);
    CallAddTwo(inner, 3.0, s0, env, m, fuel);
    var s1 := Stack(s0.slots[0 := Num(5.0)], 1);
    var s2 := Stack(s1.slots[1 := Num(2.0)], 2);
    var s3 := Stack(s2.slots[1 := Default][0 := Num(7.0)], 1);
    assert Exec(Push(Num(2.0)), s1, env, [], m, fuel) == Ok(s2);
    assert Exec(Add, s2, env, [], m, fuel) == Ok(s3);
    var ops := outer.ops;
    assert ops[1..] == [Push(Num(2.0)), Add] && ops[1..][1..] == [Add] && ops[1..][1..][1..] == [];
    assert Run([Add], s2, env, [], m, fuel) == Ok(s3);
    assert Run(ops[1..], s1, env, [], m, fuel) == Run([Add], s2, env, [], m, fuel);
    assert Run(ops, s0, env, [], m, fuel) == Run(ops[1..], s1, env, [], m, fuel);
    assert Eval(outer, env, [], m, fuel) == Ok(Num(7.0));
    var slices := [Def(1, AddTwo), Call(outer)];
    assert env + [Num(7.0)] == [Fun(1, AddTwo), Num(7.0)];
    assert UpdateFrom(slices, 2, env + [Num(7.0)], m, fuel) == (Ok(Num(7.0)), [Fun(1, AddTwo), Num(7.0)]);
    assert UpdateFrom(slices, 1, env, m, fuel) == UpdateFrom(slices, 2, env + [Num(7.0)], m, fuel);
    assert [] + [Fun(1, AddTwo)] == env;
  }

  class Env {
    var slices: seq<Slice>
    var data: seq<MathData>

    /** Env::new: no slices and no values. */
    constructor ()
      ensures slices == [] && data == []
    {
      slices := [];
      data := [];
    }

    /** add_slice: appends one slice at the end; the values stay. */
    method AddSlice(s: Slice)
      modifies this
      ensures slices == old(slices) + [s] && data == old(data)
    {
      slices := slices + [s];
    }

    /** update: evaluates the slices in order, appending each result to
        the values, and returns the last value. */
    method Update(m: G.Libm, fuel: nat) returns (r: Result<MathData, UpdateError>)
      modifies this
      ensures slices == old(slices)
      ensures (r, data) == UpdateFrom(slices, 0, old(data), m, fuel)
    {
      for i := 0 to |slices|
        invariant slices == old(slices)
        invariant UpdateFrom(slices, 0, old(data), m, fuel) == UpdateFrom(slices, i, data, m, fuel)
      {
        var result := EvalSlice(slices[i], data, m, fuel);
        if result.Err? {
          return Err(SliceFailed(result.error));
        }
        data := data + [result.value];
      }
      if data == [] {
        return Err(NoData);
      }
      return Ok(data[|data| - 1]);
    }
  }
}
