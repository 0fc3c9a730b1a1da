/** The tube mesher (graph::d3::parametric_curve): a curve swept by a
    circle of fixed radius. Frames are taken along the curve, a ring of
    vertices is placed around each frame, and neighbouring rings are
    joined by the same quad layout as a parametric surface. */
module ParametricCurve {
  import opened Geometry
  import opened Grids
  import opened Mesh

  /** The local frame of the path at one sample: the point and the two
      axes of the tube's cross-section. */
  datatype Frame = Frame(pos: Vec3, normal: Vec3, binormal: Vec3)

  /** std::f64::consts::TAU. */
  const Tau: real := 6.283185307179586

  /** The auxiliary axis crossed with the tangent: J (the y axis) unless
      the tangent is within 0.99 of it, then K (the z axis). */
  function HelperAxis(tangent: Vec3): (h: Vec3)
    ensures h == J || h == K
    ensures h == K <==> Abs(Dot(tangent, J)) > 0.99
  {
    var helper := J;
    if Abs(Dot(tangent, helper)) > 0.99 then K else helper
  }

  /** The forward-difference tangent of the path at t. */
  function Tangent(f: real -> Vec3, m: Libm, t: real): Vec3 {
    m.unit(Sub(f(t + Eps), f(t)))
  }

  /** The frame at parameter t. */
  function MakeFrame(f: real -> Vec3, m: Libm, t: real): Frame {
    var tangent := Tangent(f, m, t);
    var normal := m.unit(Cross(tangent, HelperAxis(tangent)));
    var binormal := m.unit(Cross(tangent, normal));
    Frame(f(t), normal, binormal)
  }

  /** Frame i is taken at tMin + i * tStep. */
  function FrameAt(f: real -> Vec3, m: Libm, tMin: real, tStep: real): nat -> Frame {
    (i: nat) => MakeFrame(f, m, Tick(tMin, tStep, i))
  }

  /** The cross-section axes of every frame are orthogonal to the tangent
      and to each other. */
  lemma FrameOrthogonal(f: real -> Vec3, m: Libm, t: real)
    requires UnitKeepsOrthogonal(m)
    ensures var fr := MakeFrame(f, m, t);
      Dot(fr.normal, Tangent(f, m, t)) == 0.0 &&
      Dot(fr.binormal, Tangent(f, m, t)) == 0.0 &&
      Dot(fr.binormal, fr.normal) == 0.0
  {
    var tangent := Tangent(f, m, t);
    var c := Cross(tangent, HelperAxis(tangent));
    DotComm(c, tangent);
    var normal := m.unit(c);
    var c2 := Cross(tangent, normal);
    DotComm(c2, tangent);
    DotComm(c2, normal);
  }

  /** The angle of ring vertex j: j / tubeSegments of a full turn. With
      tubeSegments == 0 the source computes 0 / 0; the model uses 0. */
  function Angle(j: nat, tubeSegments: nat): (theta: real)
    ensures tubeSegments > 0 && j <= tubeSegments ==> 0.0 <= theta <= Tau
    ensures tubeSegments > 0 ==> (j == 0 <==> theta == 0.0)
    ensures tubeSegments > 0 ==> (j == tubeSegments <==> theta == Tau)
  {
    if tubeSegments == 0 then 0.0 else ((j as real) / (tubeSegments as real)) * Tau
  }

  /** The vertex at angle theta around a frame: pushed out by radius along
      cos(theta) * normal + sin(theta) * binormal, whose direction is its
      normal. */
  function RingVertex(m: Libm, fr: Frame, theta: real, radius: real): Vertex3D {
    var offset := Add(Scale(fr.normal, m.cos(theta)), Scale(fr.binormal, m.sin(theta)));
    Vertex3D(Add(fr.pos, Scale(offset, radius)), m.unit(offset))
  }

  /** Ring i, vertex j of the tube. */
  function RingCells(m: Libm, fr: nat -> Frame, radius: real, tubeSegments: nat): (nat, nat) -> seq<Vertex3D> {
    (i: nat, j: nat) => [RingVertex(m, fr(i), Angle(j, tubeSegments), radius)]
  }

  /** The mesh ParametricCurveSolver::solve builds. */
  function TubeMesh(f: real -> Vec3, m: Libm, tMin: real, tMax: real, radius: real,
                    tubeSegments: nat, pathSegments: nat): MeshData
  {
    MeshData(Rows(RingCells(m, FrameAt(f, m, tMin, Step(tMin, tMax, pathSegments)), radius, tubeSegments),
                  pathSegments + 1, tubeSegments + 1),
             QuadIndices(pathSegments, tubeSegments))
  }

  /** The body of the frame loop: the point, its forward-difference
      tangent, the helper axis (J, replaced by K when the tangent is too
      close to it) and the two cross-section axes. */
  method ComputeFrame(f: real -> Vec3, m: Libm, t: real) returns (fr: Frame)
    ensures fr == MakeFrame(f, m, t)
  {
    var pos := f(t);
    var posNext := f(t + Eps);
    var tangent := m.unit(Sub(posNext, pos));
    var helper := J;
    if Abs(Dot(tangent, helper)) > 0.99 {
      helper := K;
    }
    var normal := m.unit(Cross(tangent, helper));
    var binormal := m.unit(Cross(tangent, normal));
    fr := Frame(pos, normal, binormal);
  }

  /** The frame loop: pathSegments + 1 frames, frame i at tMin + i * tStep. */
  method BuildFrames(f: real -> Vec3, m: Libm, tMin: real, tStep: real, pathSegments: nat)
    returns (frames: seq<Frame>)
    ensures |frames| == pathSegments + 1
    ensures forall i :: 0 <= i < |frames| ==> frames[i] == FrameAt(f, m, tMin, tStep)(i)
  {
    frames := [];
    var i: nat := 0;
    while i <= pathSegments
      invariant i <= pathSegments + 1
      invariant |frames| == i
      invariant forall k :: 0 <= k < i ==> frames[k] == FrameAt(f, m, tMin, tStep)(k)
    {
      var fr := ComputeFrame(f, m, Tick(tMin, tStep, i));
      frames := frames + [fr];
      i := i + 1;
    }
  }

  /** One ring: for j in 0..=tubeSegments, push the vertex at angle j. */
  method BuildRing(m: Libm, fr: nat -> Frame, frame: Frame, i: nat, radius: real, tubeSegments: nat)
    returns (ring: seq<Vertex3D>)
    requires frame == fr(i)
    ensures ring == Row(RingCells(m, fr, radius, tubeSegments), i, tubeSegments + 1)
  {
    ghost var cell := RingCells(m, fr, radius, tubeSegments);
    ring := [];
    var j: nat := 0;
    while j <= tubeSegments
      invariant j <= tubeSegments + 1
      invariant ring == Row(cell, i, j)
    {
      var theta := Angle(j, tubeSegments);
      assert cell(i, j) == [RingVertex(m, frame, theta, radius)];
      ring := ring + [RingVertex(m, frame, theta, radius)];
      j := j + 1;
    }
  }

  /** The ring loop: for i in 0..=pathSegments, the ring around frames[i]. */
  method BuildRings(m: Libm, fr: nat -> Frame, frames: seq<Frame>, radius: real, tubeSegments: nat)
    returns (vertices: seq<Vertex3D>)
    requires forall i :: 0 <= i < |frames| ==> frames[i] == fr(i)
    ensures vertices == Rows(RingCells(m, fr, radius, tubeSegments), |frames|, tubeSegments + 1)
  {
    vertices := [];
    var i: nat := 0;
    while i < |frames|
      invariant i <= |frames|
      invariant vertices == Rows(RingCells(m, fr, radius, tubeSegments), i, tubeSegments + 1)
    {
      var ring := BuildRing(m, fr, frames[i], i, radius, tubeSegments);
      vertices := vertices + ring;
      i := i + 1;
    }
  }

  /** ParametricCurveSolver::solve. */
  method Solve(f: real -> Vec3, m: Libm, tMin: real, tMax: real, radius: real,
               tubeSegments: nat, pathSegments: nat)
    returns (mesh: MeshData)
    ensures mesh == TubeMesh(f, m, tMin, tMax, radius, tubeSegments, pathSegments)
  {
    var tStep := Step(tMin, tMax, pathSegments);
    var frames := BuildFrames(f, m, tMin, tStep, pathSegments);
    var vertices := BuildRings(m, FrameAt(f, m, tMin, tStep), frames, radius, tubeSegments);
    var indices := EmitQuadIndices(pathSegments, tubeSegments);
    mesh := MeshData(vertices, indices);
  }

  /** (pathSegments + 1) * (tubeSegments + 1) vertices and
      6 * pathSegments * tubeSegments indices, all naming vertices. */
  lemma TubeCounts(f: real -> Vec3, m: Libm, tMin: real, tMax: real, radius: real,
                   tubeSegments: nat, pathSegments: nat)
    ensures var mesh := TubeMesh(f, m, tMin, tMax, radius, tubeSegments, pathSegments);
      |mesh.vertices| == (pathSegments + 1) * (tubeSegments + 1) &&
      |mesh.indices| == 6 * (pathSegments * tubeSegments) &&
      IsTriangleList(mesh)
  {
    var cell := RingCells(m, FrameAt(f, m, tMin, Step(tMin, tMax, pathSegments)), radius, tubeSegments);
    assert Uniform(cell, pathSegments + 1, tubeSegments + 1, 1);
    RowsLen(cell, pathSegments + 1, tubeSegments + 1, 1);
    QuadGridLen(pathSegments, tubeSegments);
    QuadGridBound(pathSegments, tubeSegments);
  }

  /** Ring i, vertex j of a tube whose frames are fr(0), fr(1), ... sits
      at i * (tubeSegments + 1) + j. */
  lemma RingLayout(m: Libm, fr: nat -> Frame, radius: real, tubeSegments: nat, rings: nat)
    ensures forall i: nat, j: nat :: i < rings && j <= tubeSegments ==>
      GridPos(i, j, tubeSegments) < |Rows(RingCells(m, fr, radius, tubeSegments), rings, tubeSegments + 1)| &&
      Rows(RingCells(m, fr, radius, tubeSegments), rings, tubeSegments + 1)[GridPos(i, j, tubeSegments)] ==
        RingVertex(m, fr(i), Angle(j, tubeSegments), radius)
  {
    var cell := RingCells(m, fr, radius, tubeSegments);
    assert Uniform(cell, rings, tubeSegments + 1, 1);
    forall i: nat, j: nat | i < rings && j <= tubeSegments
      ensures GridPos(i, j, tubeSegments) < |Rows(cell, rings, tubeSegments + 1)| &&
              Rows(cell, rings, tubeSegments + 1)[GridPos(i, j, tubeSegments)] == cell(i, j)[0]
    {
      RowsAt(cell, rings, tubeSegments + 1, 1, i, j, 0);
      OffsetGridPos(i, j, tubeSegments);
    }
  }

  /** Ring i, vertex j sits at i * (tubeSegments + 1) + j and is placed
      around frame i, and cell (i, j) contributes [a, d, b] then [b, d, c]
      at 6 * (i * tubeSegments + j). */
  lemma TubeLayout(f: real -> Vec3, m: Libm, tMin: real, tMax: real, radius: real,
                   tubeSegments: nat, pathSegments: nat)
    ensures forall i: nat, j: nat :: i <= pathSegments && j <= tubeSegments ==>
      GridPos(i, j, tubeSegments) < |TubeMesh(f, m, tMin, tMax, radius, tubeSegments, pathSegments).vertices| &&
      TubeMesh(f, m, tMin, tMax, radius, tubeSegments, pathSegments).vertices[GridPos(i, j, tubeSegments)] ==
        RingVertex(m, FrameAt(f, m, tMin, Step(tMin, tMax, pathSegments))(i), Angle(j, tubeSegments), radius)
    ensures var mesh := TubeMesh(f, m, tMin, tMax, radius, tubeSegments, pathSegments);
      forall i: nat, j: nat, k: nat :: i < pathSegments && j < tubeSegments && k < 6 ==>
        Offset(6, i, j, tubeSegments, k) < |mesh.indices| &&
        mesh.indices[Offset(6, i, j, tubeSegments, k)] == CellQuad(i, j, tubeSegments)[k]
  {
    RingLayout(m, FrameAt(f, m, tMin, Step(tMin, tMax, pathSegments)), radius, tubeSegments, pathSegments + 1);
    QuadGridLayout(pathSegments, tubeSegments);
  }
}
