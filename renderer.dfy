/** `Renderer.cpp`: the circle mesh every particle is drawn with, and the instanced draw of one frame.
    Floats are reals, NaN or infinity; `cosf` and `sinf` are the fields of a `Trig` parameter; the names the GL
    hands out are parameters; a frame's draw is returned as a record instead of being issued. */
module Rendering {
  import opened Numerics
  import opened Shaders

  /** `cosf` and `sinf`, left uninterpreted. */
  datatype Trig = Trig(cos: real -> real, sin: real -> real)

  /** The value of pi the source writes out (`3.1415926f`). */
  const Pi: real := 3.1415926

  /** `Init` builds the circle with 32 segments of radius `0.01`. */
  const CircleSegments: int := 32
  const CircleRadius: real := 0.01

  /** Where `Init` loads the particle shader from. */
  const RenderShaderPath: string := "assets/shaders/Basic.shader"

  /** The centre vertex `(0, 0, 0)`. */
  const Centre: seq<Float> := [Num(0.0), Num(0.0), Num(0.0)]

  /** `2 * pi * float(k) / float(numSegments)`; with no segments the angle is `0.0f / 0.0f`, NaN, for `k = 0`
      (the only angle the loop then computes) and positive infinity beyond. */
  function SegmentAngle(k: nat, numSegments: int): (angle: Float)
    ensures angle.NaN? <==> numSegments == 0 && k == 0
    ensures angle.Inf? <==> numSegments == 0 && k > 0
  {
    if numSegments == 0 then (if k == 0 then NaN else Inf)
    else Num(2.0 * Pi * (k as real) / (numSegments as real))
  }

  /** `radius * f(angle)`; `cosf` and `sinf` of NaN or of infinity are NaN, and NaN stays NaN. */
  function Scaled(radius: real, angle: Float, f: real -> real): (v: Float)
    ensures v.NaN? <==> !angle.Num?
    ensures !v.Inf?
  {
    match angle
    case NaN => NaN
    case Inf => NaN
    case Num(a) => Num(radius * f(a))
  }

  /** Rim vertex `k`: `(radius * cos(angle), radius * sin(angle), 0)`; its `x` and `y` are NaN exactly
      when there are no segments, and its `z` is 0. */
  function RimVertex(k: nat, numSegments: int, radius: real, trig: Trig): (v: seq<Float>)
    ensures |v| == 3 && v[2] == Num(0.0)
    ensures v[0].NaN? <==> numSegments == 0
    ensures v[1].NaN? <==> numSegments == 0
  {
    var angle := SegmentAngle(k, numSegments);
    [Scaled(radius, angle, trig.cos), Scaled(radius, angle, trig.sin), Num(0.0)]
  }

  /** The buffer after `m` rounds of the loop: the centre, then rim vertices `0 .. m - 1` in order,
      three floats each. */
  function CirclePrefix(m: nat, numSegments: int, radius: real, trig: Trig): (r: seq<Float>)
    ensures |r| == 3 * (m + 1)
  {
    if m == 0 then Centre
    else CirclePrefix(m - 1, numSegments, radius, trig) + RimVertex(m - 1, numSegments, radius, trig)
  }

  /** Appending rim vertices never disturbs the centre. */
  lemma {:induction false} PrefixStartsAtCentre(m: nat, numSegments: int, radius: real, trig: Trig)
    ensures CirclePrefix(m, numSegments, radius, trig)[..3] == Centre
  {
    if m > 0 {
      var before := CirclePrefix(m - 1, numSegments, radius, trig);
      PrefixStartsAtCentre(m - 1, numSegments, radius, trig);
      assert (before + RimVertex(m - 1, numSegments, radius, trig))[..3] == before[..3];
    }
  }

  /** Every third float, the `z` of a vertex, is 0: the mesh lies in the plane `z = 0`. */
  predicate Flat(r: seq<Float>) {
    forall j :: 0 <= j < |r| && j % 3 == 2 ==> r[j] == Num(0.0)
  }

  /** The buffer stays flat round after round. */
  lemma {:induction false} PrefixFlat(m: nat, numSegments: int, radius: real, trig: Trig)
    ensures Flat(CirclePrefix(m, numSegments, radius, trig))
  {
    if m > 0 {
      var before := CirclePrefix(m - 1, numSegments, radius, trig);
      var rim := RimVertex(m - 1, numSegments, radius, trig);
      var r := CirclePrefix(m, numSegments, radius, trig);
      assert r == before + rim;
      PrefixFlat(m - 1, numSegments, radius, trig);
      forall j | 0 <= j < |r| && j % 3 == 2
        ensures r[j] == Num(0.0)
      {
        if j < |before| {
          assert r[j] == before[j];
          assert before[j] == Num(0.0);
        } else {
          assert j == |before| + 2;
          assert r[j] == rim[2];
        }
      }
    }
  }

  /** Rim vertex `k` sits at floats `3k + 3 .. 3k + 5`: the rounds append in increasing `k`. */
  lemma {:induction false} PrefixRim(m: nat, numSegments: int, radius: real, trig: Trig)
    ensures var r := CirclePrefix(m, numSegments, radius, trig);
      forall k :: 0 <= k < m ==> r[3 * k + 3..3 * k + 6] == RimVertex(k, numSegments, radius, trig)
  {
    if m > 0 {
      var before := CirclePrefix(m - 1, numSegments, radius, trig);
      var r := CirclePrefix(m, numSegments, radius, trig);
      PrefixRim(m - 1, numSegments, radius, trig);
      forall k | 0 <= k < m
        ensures r[3 * k + 3..3 * k + 6] == RimVertex(k, numSegments, radius, trig)
      {
        if k < m - 1 {
          assert r[3 * k + 3..3 * k + 6] == before[3 * k + 3..3 * k + 6];
        }
      }
    }
  }

  /** Vertices in the circle mesh: the centre plus `numSegments + 1` rim vertices (the first rim vertex
      is repeated at the end to close the fan); a negative count runs no loop round. */
  function VertexCount(numSegments: int): (n: nat)
    ensures n >= 1
    ensures numSegments >= 0 ==> n == numSegments + 2
  {
    if numSegments >= 0 then numSegments + 2 else 1
  }

  /** Rounds of the `i <= numSegments` loop. */
  function LoopRounds(numSegments: int): nat {
    if numSegments >= 0 then numSegments + 1 else 0
  }

  /** What `ComputeCircleVertices` leaves in its buffer: nothing of the buffer's old contents. */
  function CircleVertices(numSegments: int, radius: real, trig: Trig): seq<Float> {
    CirclePrefix(LoopRounds(numSegments), numSegments, radius, trig)
  }

  /** The mesh holds `3 * VertexCount(numSegments)` floats, and dividing by three gives back the
      vertex count the draw uses. */
  lemma CircleSize(numSegments: int, radius: real, trig: Trig)
    ensures |CircleVertices(numSegments, radius, trig)| == 3 * VertexCount(numSegments)
    ensures |CircleVertices(numSegments, radius, trig)| / 3 == VertexCount(numSegments)
  {
    var n := VertexCount(numSegments);
    assert |CircleVertices(numSegments, radius, trig)| == 3 * n;
    assert (3 * n) / 3 == n;
  }

  /** The mesh starts with the centre `(0, 0, 0)`, every `z` is 0, and rim vertex `k` for
      `k = 0 .. numSegments` follows at floats `3k + 3 .. 3k + 5`, in increasing `k`. */
  lemma CircleShape(numSegments: int, radius: real, trig: Trig)
    ensures var r := CircleVertices(numSegments, radius, trig);
      r[..3] == Centre && Flat(r) &&
      (forall k :: 0 <= k <= numSegments ==> r[3 * k + 3..3 * k + 6] == RimVertex(k, numSegments, radius, trig))
  {
    var m := LoopRounds(numSegments);
    PrefixStartsAtCentre(m, numSegments, radius, trig);
    PrefixFlat(m, numSegments, radius, trig);
    PrefixRim(m, numSegments, radius, trig);
  }

  /** With no segments the single rim vertex is NaN in `x` and `y`: `0.0f / 0.0f` feeds `cosf` and `sinf`. */
  lemma NoSegmentsGivesNaN(radius: real, trig: Trig)
    ensures var r := CircleVertices(0, radius, trig);
      |r| == 6 && r[3].NaN? && r[4].NaN? && r[5] == Num(0.0)
  {
    var r := CircleVertices(0, radius, trig);
    PrefixRim(1, 0, radius, trig);
    assert r[3..6] == RimVertex(0, 0, radius, trig);
  }

  /** The mesh `Init` builds has 34 vertices, 102 floats. */
  lemma InitCircleVertexCount(trig: Trig)
    ensures |CircleVertices(CircleSegments, CircleRadius, trig)| == 102
    ensures |CircleVertices(CircleSegments, CircleRadius, trig)| / 3 == 34
  {
    CircleSize(CircleSegments, CircleRadius, trig);
  }

  /** A per-instance vertex attribute: `location` reads `components` floats per instance from `buffer`. */
  datatype InstanceAttribute = InstanceAttribute(location: nat, buffer: nat, components: nat, divisor: nat)

  /** `glDrawArraysInstanced(GL_TRIANGLE_FAN, first, count, instances)` with the state it is issued in. */
  datatype DrawCall = DrawCall(vao: nat, program: nat, attributes: seq<InstanceAttribute>,
                               simBoundaryLimit: real, displayAspect: real,
                               first: nat, count: nat, instances: nat)

  class Renderer {
    var circleVAO: nat
    var circleVBO: nat
    var circleVertices: seq<Float>
    /** What `glBufferData` copied into the vertex buffer. */
    var circleVBOData: seq<Float>
    var renderShader: Shader?
    /** The segment count the mesh was built with. */
    ghost var segments: int

    /** After `Init`: the mesh has one entry per float of its vertices and a program exists. */
    ghost predicate Valid()
      reads this
    {
      renderShader != null && segments >= 0 && |circleVertices| == 3 * VertexCount(segments)
    }

    /** `Renderer()`: names 0, empty mesh, no program. */
    constructor ()
      ensures circleVAO == 0 && circleVBO == 0 && circleVertices == [] && circleVBOData == []
      ensures renderShader == null
    {
      circleVAO, circleVBO := 0, 0;
      circleVertices, circleVBOData := [], [];
      renderShader := null;
      segments := 0;
    }

    /** `ComputeCircleVertices(vertices, numSegments, radius)`: `vertices` is cleared, then the centre and
        rim vertices `0 .. numSegments` are appended; the new contents are returned. */
    static method ComputeCircleVertices(vertices: seq<Float>, numSegments: int, radius: real, trig: Trig)
      returns (result: seq<Float>)
      ensures result == CircleVertices(numSegments, radius, trig)
      ensures |result| == 3 * VertexCount(numSegments)
    {
      result := [];
      result := result + [Num(0.0)];
      result := result + [Num(0.0)];
      result := result + [Num(0.0)];
      var i := 0;
      while i <= numSegments
        invariant 0 <= i <= LoopRounds(numSegments)
        invariant result == CirclePrefix(i, numSegments, radius, trig)
        decreases numSegments - i
      {
        var angle := SegmentAngle(i, numSegments);
        var x := Scaled(radius, angle, trig.cos);
        var y := Scaled(radius, angle, trig.sin);
        result := result + [x];
        result := result + [y];
        result := result + [Num(0.0)];
        i := i + 1;
      }
      CircleSize(numSegments, radius, trig);
    }

    /** `Init`: build the 32-segment mesh, upload it to the vertex buffer `vbo` of the vertex array `vao`,
        and load the particle program. */
    method Init(vao: nat, vbo: nat, trig: Trig, files: FileSystem, gl: Gl)
      modifies this
      ensures Valid() && segments == CircleSegments
      ensures circleVertices == CircleVertices(CircleSegments, CircleRadius, trig)
      ensures circleVBOData == circleVertices
      ensures circleVAO == vao && circleVBO == vbo
      ensures fresh(renderShader) && renderShader.shaderObj == LoadedProgram(RenderShaderPath, files, gl)
    {
      circleVertices := ComputeCircleVertices(circleVertices, CircleSegments, CircleRadius, trig);
      segments := CircleSegments;
      circleVAO := vao;
      circleVBO := vbo;
      circleVBOData := circleVertices;
      renderShader := new Shader(RenderShaderPath, files, gl);
    }

    /** `Render`: bind the four particle buffers as per-instance attributes 1 to 4 and draw the circle
        fan once per particle. The fan has `segments + 2` vertices (34 after `Init`). */
    method Render(particleCount: nat, posSSBO: nat, velSSBO: nat, densitySSBO: nat, pressureSSBO: nat,
                  simBoundaryLimit: real, displayAspect: real) returns (draw: DrawCall)
      requires Valid()
      ensures draw.count == |circleVertices| / 3 == segments + 2
      ensures draw.instances == particleCount && draw.first == 0
      ensures draw.vao == circleVAO && draw.program == renderShader.shaderObj
      ensures draw.simBoundaryLimit == simBoundaryLimit && draw.displayAspect == displayAspect
      ensures |draw.attributes| == 4
      ensures forall a :: a in draw.attributes ==> a.divisor == 1
      ensures draw.attributes[0] == InstanceAttribute(1, posSSBO, 2, 1)
      ensures draw.attributes[1] == InstanceAttribute(2, velSSBO, 2, 1)
      ensures draw.attributes[2] == InstanceAttribute(3, densitySSBO, 1, 1)
      ensures draw.attributes[3] == InstanceAttribute(4, pressureSSBO, 1, 1)
    {
      var attributes := [
        InstanceAttribute(1, posSSBO, 2, 1),
        InstanceAttribute(2, velSSBO, 2, 1),
        InstanceAttribute(3, densitySSBO, 1, 1),
        InstanceAttribute(4, pressureSSBO, 1, 1)];
      var n := VertexCount(segments);
      assert |circleVertices| / 3 == n;
      draw := DrawCall(circleVAO, renderShader.shaderObj, attributes, simBoundaryLimit, displayAspect,
                       0, |circleVertices| / 3, particleCount);
    }
  }
}
