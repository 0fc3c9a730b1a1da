/** The values of the expression language (MathData), the instructions of
    its stack machine (Op) and programs (RPN), which refer to each other:
    a function value carries its body as a program, and a program can push
    any value.

    Arithmetic is defined between two numbers, between two vectors for
    + and -, between a vector and a number for * and /, and sine, cosine and
    tangent on numbers; every other combination, and a division by zero,
    is an error (a panic in the code). */
module MathValue {
  import G = Geometry
  import opened Outcome

  datatype MathData =
    | None
    | Num(n: real)
    | Vec(v: G.Vec3)
    | Fun(paraCount: nat, body: Rpn)

  datatype Op =
    | Add | Sub | Mul | Div
    | Sin | Cos | Tan
    | LoadPara(pi: nat)
    | LoadGlobal(gi: nat)
    | Push(data: MathData)
    | CallDef(index: nat, paras: seq<Rpn>)

  /** A program: its instructions in order. */
  datatype Rpn = Rpn(ops: seq<Op>)

  /** Why an evaluation stops: one constructor per panic of the code. */
  datatype Fault =
    | NumberPlusVector
    | TypeMismatch
    | VectorTimesVector
    | DivisionByZero
    | VectorDivisionByZero
    | IllegalDivision
    | NotANumber
    | StackUnderflow
    | StackOverflow
    | GlobalOutOfRange
    | ParameterOutOfRange
    | TooManyParameters
    | OutOfFuel

  /** MathData::default(), the value every stack slot starts with. */
  const Default: MathData := Num(0.0)

  /** `+`: numbers and vectors add componentwise; a number and a vector
      cannot be added; anything else is a type error. */
  function AddData(a: MathData, b: MathData): (r: Result<MathData, Fault>)
    ensures r.Ok? <==> (a.Num? && b.Num?) || (a.Vec? && b.Vec?)
    ensures (a.Num? && b.Vec?) || (a.Vec? && b.Num?) ==> r == Err(NumberPlusVector)
  {
    match (a, b)
    case (Num(x), Num(y)) => Ok(Num(x + y))
    case (Vec(u), Vec(w)) => Ok(Vec(G.Add(u, w)))
    case (Num(_), Vec(_)) => Err(NumberPlusVector)
    case (Vec(_), Num(_)) => Err(NumberPlusVector)
    case _ => Err(TypeMismatch)
  }

  /** `-`: defined only between two numbers and between two vectors. */
  function SubData(a: MathData, b: MathData): (r: Result<MathData, Fault>)
    ensures r.Ok? <==> (a.Num? && b.Num?) || (a.Vec? && b.Vec?)
    ensures r.Err? ==> r.error == TypeMismatch
  {
    match (a, b)
    case (Num(x), Num(y)) => Ok(Num(x - y))
    case (Vec(u), Vec(w)) => Ok(Vec(G.Sub(u, w)))
    case _ => Err(TypeMismatch)
  }

  /** `*`: numbers multiply, a vector scales by a number on either side,
      two vectors need an explicit dot or cross product. */
  function MulData(a: MathData, b: MathData): (r: Result<MathData, Fault>)
    ensures r.Ok? <==> (a.Num? && b.Num?) || (a.Vec? && b.Num?) || (a.Num? && b.Vec?)
    ensures a.Vec? && b.Vec? ==> r == Err(VectorTimesVector)
  {
    match (a, b)
    case (Num(x), Num(y)) => Ok(Num(x * y))
    case (Vec(v), Num(s)) => Ok(Vec(G.Scale(v, s)))
    case (Num(s), Vec(v)) => Ok(Vec(G.Scale(v, s)))
    case (Vec(_), Vec(_)) => Err(VectorTimesVector)
    case _ => Err(TypeMismatch)
  }

  /** `/`: a number or a vector divided by a non-zero number; the vector
      case multiplies by the reciprocal. */
  function DivData(a: MathData, b: MathData): (r: Result<MathData, Fault>)
    ensures r.Ok? <==> (a.Num? || a.Vec?) && b.Num? && b.n != 0.0
    ensures a.Num? && b == Num(0.0) ==> r == Err(DivisionByZero)
    ensures a.Vec? && b == Num(0.0) ==> r == Err(VectorDivisionByZero)
  {
    match (a, b)
    case (Num(x), Num(y)) => if y == 0.0 then Err(DivisionByZero) else Ok(Num(x / y))
    case (Vec(v), Num(s)) => if s == 0.0 then Err(VectorDivisionByZero) else Ok(Vec(G.Scale(v, 1.0 / s)))
    case _ => Err(IllegalDivision)
  }

  /** sin, cos and tan: defined on numbers only. */
  function SinData(a: MathData, m: G.Libm): (r: Result<MathData, Fault>)
    ensures r.Ok? <==> a.Num?
    ensures r.Err? ==> r.error == NotANumber
  {
    if a.Num? then Ok(Num(m.sin(a.n))) else Err(NotANumber)
  }

  function CosData(a: MathData, m: G.Libm): (r: Result<MathData, Fault>)
    ensures r.Ok? <==> a.Num?
    ensures r.Err? ==> r.error == NotANumber
  {
    if a.Num? then Ok(Num(m.cos(a.n))) else Err(NotANumber)
  }

  function TanData(a: MathData, m: G.Libm): (r: Result<MathData, Fault>)
    ensures r.Ok? <==> a.Num?
    ensures r.Err? ==> r.error == NotANumber
  {
    if a.Num? then Ok(Num(m.tan(a.n))) else Err(NotANumber)
  }

  /** The binary instructions. */
  predicate IsArith(op: Op) {
    op.Add? || op.Sub? || op.Mul? || op.Div?
  }

  /** The unary instructions. */
  predicate IsUnary(op: Op) {
    op.Sin? || op.Cos? || op.Tan?
  }

  /** The value of a binary instruction applied to lhs and rhs. */
  function Arith(op: Op, lhs: MathData, rhs: MathData): Result<MathData, Fault>
    requires IsArith(op)
  {
    match op
    case Add => AddData(lhs, rhs)
    case Sub => SubData(lhs, rhs)
    case Mul => MulData(lhs, rhs)
    case Div => DivData(lhs, rhs)
  }

  /** The value of a unary instruction applied to its operand. */
  function Unary(op: Op, a: MathData, m: G.Libm): Result<MathData, Fault>
    requires IsUnary(op)
  {
    match op
    case Sin => SinData(a, m)
    case Cos => CosData(a, m)
    case Tan => TanData(a, m)
  }

  /** Addition, and its failures, do not depend on the order of the
      operands. */
  lemma AddCommutes(a: MathData, b: MathData)
    ensures AddData(a, b) == AddData(b, a)
  {
  }

  /** Multiplication, and its failures, do not depend on the order of the
      operands. */
  lemma MulCommutes(a: MathData, b: MathData)
    ensures MulData(a, b) == MulData(b, a)
  {
    if a.Num? && b.Num? {
      var p, q := MulData(a, b), MulData(b, a);
      assert p.value.Num? && q.value.Num?;
      assert p.value.n == a.n * b.n == b.n * a.n == q.value.n;
    }
  }

  /** Subtracting what was added gives back the original value. */
  lemma SubUndoesAdd(a: MathData, b: MathData)
    requires AddData(a, b).Ok?
    ensures SubData(AddData(a, b).value, b) == Ok(a)
  {
    if a.Vec? {
      var u, w := a.v, b.v;
      assert G.Sub(G.Add(u, w), w) == G.Vec3(u.x, u.y, u.z);
    }
  }

  /** Dividing by the non-zero number multiplied by gives back the original
      number or vector. */
  lemma DivUndoesMul(a: MathData, s: real)
    requires s != 0.0 && MulData(a, Num(s)).Ok?
    ensures DivData(MulData(a, Num(s)).value, Num(s)) == Ok(a)
  {
    if a.Num? {
      var p := MulData(a, Num(s));
      assert p.value.Num? && p.value.n == a.n * s;
      var q := DivData(p.value, Num(s));
      assert q.value.Num? && q.value.n == (a.n * s) / s == a.n;
    } else {
      var v := a.v;
      assert (v.x * s) * (1.0 / s) == v.x;
      assert (v.y * s) * (1.0 / s) == v.y;
      assert (v.z * s) * (1.0 / s) == v.z;
      assert G.Scale(G.Scale(v, s), 1.0 / s) == G.Vec3(v.x, v.y, v.z);
    }
  }
}
