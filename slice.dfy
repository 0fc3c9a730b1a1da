/** A slice is one line of a worksheet: a stored value, an expression to
    evaluate, or a function definition with its parameter count. */
module Slices {
  import G = Geometry
  import opened Outcome
  import opened MathValue
  import opened Machine

  datatype Slice =
    | Var(data: MathData)
    | Call(body: Rpn)
    | Def(paraCount: nat, body: Rpn)

  /** Slice::clone: the same variant with the same fields. */
  function Clone(s: Slice): (c: Slice)
    ensures c == s
  {
    match s
    case Var(d) => Var(d)
    case Call(b) => Call(b)
    case Def(pc, b) => Def(pc, b)
  }

  /** Slice::eval against the values computed so far: a Var yields its
      value, a Call runs its body with no arguments, a Def yields the
      function value with the same parameter count and body. */
  function SliceEval(s: Slice, data: seq<MathData>, m: G.Libm, fuel: nat): (r: Result<MathData, Fault>)
    ensures s.Var? ==> r == Ok(s.data)
    ensures s.Call? ==> r == Eval(s.body, data, [], m, fuel)
    ensures s.Def? ==> r == Ok(Fun(s.paraCount, s.body))
  {
    match s
    case Var(d) => Ok(d)
    case Call(body) => Eval(body, data, [], m, fuel)
    case Def(pc, body) => Ok(Fun(pc, body))
  }

  /** Only Call slices can fail; Var and Def slices ignore the data. */
  lemma SliceEvalIndependent(s: Slice, d1: seq<MathData>, d2: seq<MathData>, m: G.Libm, f1: nat, f2: nat)
    ensures !s.Call? ==> SliceEval(s, d1, m, f1) == SliceEval(s, d2, m, f2) && SliceEval(s, d1, m, f1).Ok?
  {
  }

  /** Slice::eval, running a Call's body on the stack machine. */
  method EvalSlice(s: Slice, data: seq<MathData>, m: G.Libm, fuel: nat) returns (r: Result<MathData, Fault>)
    ensures r == SliceEval(s, data, m, fuel)
  {
    match s {
      case Var(d) => r := Ok(d);
      case Call(body) => r := Evaluate(body, data, [], m, fuel);
      case Def(pc, body) => r := Ok(Fun(pc, body));
    }
  }
}
