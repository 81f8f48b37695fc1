/** Turning the probe grid into per-vertex colours. */
module Sampler {
  import opened Numeric
  import opened Grid

  /** A vertex position in world coordinates. */
  datatype Point = Point(x: real, y: real, z: real)

  /** The six probes a vertex reads: floor and ceiling along y, then x, then
      z, the other two coordinates rounded. */
  function SampleCells(p: Point): (cs: seq<Cell>)
    ensures |cs| == 6
    ensures FloorOf(p.y, cs[0].y) && RoundOf(p.x, cs[0].x) && RoundOf(p.z, cs[0].z)
    ensures CeilOf(p.y, cs[1].y) && RoundOf(p.x, cs[1].x) && RoundOf(p.z, cs[1].z)
    ensures FloorOf(p.x, cs[2].x) && RoundOf(p.y, cs[2].y) && RoundOf(p.z, cs[2].z)
    ensures CeilOf(p.x, cs[3].x) && RoundOf(p.y, cs[3].y) && RoundOf(p.z, cs[3].z)
    ensures FloorOf(p.z, cs[4].z) && RoundOf(p.x, cs[4].x) && RoundOf(p.y, cs[4].y)
    ensures CeilOf(p.z, cs[5].z) && RoundOf(p.x, cs[5].x) && RoundOf(p.y, cs[5].y)
  {
    var rx, ry, rz := Round(p.x), Round(p.y), Round(p.z);
    [Cell(rx, Floor(p.y), rz), Cell(rx, Ceil(p.y), rz),
     Cell(Floor(p.x), ry, rz), Cell(Ceil(p.x), ry, rz),
     Cell(rx, ry, Floor(p.z)), Cell(rx, ry, Ceil(p.z))]
  }

  /** Every probe a vertex reads lies within one cell, along each axis, of
      the vertex's rounded position, and the six differ from it along one
      axis at most. */
  lemma SampleCellsNear(p: Point)
    ensures forall i :: 0 <= i < 6 ==>
      var c := SampleCells(p)[i];
      Abs(c.x - Round(p.x)) + Abs(c.y - Round(p.y)) + Abs(c.z - Round(p.z)) <= 1
  {
  }

  /** All six probes of a vertex are in the grid. */
  predicate Sampleable(probes: Probes, p: Point) {
    forall i :: 0 <= i < 6 ==> SampleCells(p)[i] in probes
  }

  /** The largest of zero and the given values. */
  function Peak(vs: seq<real>): (m: real)
    ensures 0.0 <= m
    ensures forall i :: 0 <= i < |vs| ==> vs[i] <= m
  {
    if vs == [] then 0.0 else Max(vs[0], Peak(vs[1..]))
  }

  /** The peak is zero or one of the values: it is the least upper bound of
      zero and the values. */
  lemma {:induction false} PeakAttained(vs: seq<real>)
    ensures Peak(vs) == 0.0 || exists i :: 0 <= i < |vs| && vs[i] == Peak(vs)
  {
    if vs != [] && Peak(vs) != vs[0] && Peak(vs) != 0.0 {
      PeakAttained(vs[1..]);
      var i :| 0 <= i < |vs| - 1 && vs[1..][i] == Peak(vs[1..]);
      assert vs[i + 1] == Peak(vs);
    }
  }

  /** A peak over values each at most its counterpart in `ws` is at most the
      peak over `ws`. */
  lemma {:induction false} PeakMonotone(vs: seq<real>, ws: seq<real>)
    requires |vs| == |ws|
    requires forall i :: 0 <= i < |vs| ==> vs[i] <= ws[i]
    ensures Peak(vs) <= Peak(ws)
  {
    if vs != [] {
      PeakMonotone(vs[1..], ws[1..]);
    }
  }

  /** The tone curve: the peak scaled to [0, 1], lifted by 0.05 and
      amplified by 1.1, capped at 1. */
  function Tone(peak: real): (t: real)
    requires 0.0 <= peak
    ensures 0.05 <= t <= 1.0
  {
    Min(1.0, 0.05 + Min(peak / 255.0, 1.0) * 1.1)
  }

  /** A vertex whose probes all sit at zero or below gets the 0.05 ambient
      floor, not black. */
  lemma ToneAmbient()
    ensures Tone(0.0) == 0.05
  {
  }

  /** More light never gives a darker tone. */
  lemma ToneMonotone(a: real, b: real)
    requires 0.0 <= a <= b
    ensures Tone(a) <= Tone(b)
  {
  }

  /** The tone reaches 1 exactly from a peak of 4845/22 (about 220.2) up;
      below that it is the affine ramp 0.05 + 1.1 * peak / 255. */
  lemma ToneSaturation(peak: real)
    requires 0.0 <= peak
    ensures Tone(peak) == 1.0 <==> peak >= 4845.0 / 22.0
    ensures peak < 4845.0 / 22.0 ==> Tone(peak) == 0.05 + 1.1 * peak / 255.0
  {
  }

  /** The six probe values a vertex reads, in the order of `SampleCells`. */
  function Samples(probes: Probes, p: Point): (vs: seq<Rgb>)
    requires Sampleable(probes, p)
    ensures |vs| == 6 && forall i :: 0 <= i < 6 ==> vs[i] == probes[SampleCells(p)[i]]
  {
    var cs := SampleCells(p);
    seq(6, i requires 0 <= i < 6 => probes[cs[i]])
  }

  /** Channel `k` (0 red, 1 green, 2 blue) of a colour. */
  function Pick(e: Rgb, k: int): real {
    if k == 0 then e.r else if k == 1 then e.g else e.b
  }

  /** Channel `k` of each of the given colours. */
  function Channel(vs: seq<Rgb>, k: int): (ws: seq<real>)
    ensures |ws| == |vs| && forall i :: 0 <= i < |vs| ==> ws[i] == Pick(vs[i], k)
  {
    seq(|vs|, i requires 0 <= i < |vs| => Pick(vs[i], k))
  }

  /** The colour of a vertex: per channel, the tone of the brightest of its
      six probes. Each channel is at least 0.05 and at most 1. */
  function VertexColor(probes: Probes, p: Point): (c: Rgb)
    requires Sampleable(probes, p)
    ensures 0.05 <= c.r <= 1.0 && 0.05 <= c.g <= 1.0 && 0.05 <= c.b <= 1.0
  {
    var vs := Samples(probes, p);
    Rgb(Tone(Peak(Channel(vs, 0))), Tone(Peak(Channel(vs, 1))), Tone(Peak(Channel(vs, 2))))
  }

  /** A brighter probe grid never gives a darker vertex. */
  lemma VertexColorMonotone(before: Probes, after: Probes, p: Point)
    requires Sampleable(before, p) && Sampleable(after, p)
    requires forall c :: c in before && c in after ==> Brighter(before[c], after[c])
    ensures Brighter(VertexColor(before, p), VertexColor(after, p))
  {
    var vb, va := Samples(before, p), Samples(after, p);
    forall i | 0 <= i < 6 ensures Brighter(vb[i], va[i]) {
      assert SampleCells(p)[i] in before;
    }
    forall k | 0 <= k < 3 ensures Tone(Peak(Channel(vb, k))) <= Tone(Peak(Channel(va, k))) {
      PeakMonotone(Channel(vb, k), Channel(va, k));
      ToneMonotone(Peak(Channel(vb, k)), Peak(Channel(va, k)));
    }
  }

  /** The peak of values that are all at or below zero is zero. */
  lemma PeakOfNonPositive(vs: seq<real>)
    requires forall i :: 0 <= i < |vs| ==> vs[i] <= 0.0
    ensures Peak(vs) == 0.0
  {
    PeakAttained(vs);
  }

  /** A vertex whose six probes all hold nothing above zero gets the ambient
      0.05 on every channel. */
  lemma DarkProbesAmbient(probes: Probes, p: Point)
    requires Sampleable(probes, p)
    requires forall i :: 0 <= i < 6 ==> Dark(probes[SampleCells(p)[i]])
    ensures VertexColor(probes, p) == Rgb(0.05, 0.05, 0.05)
  {
    var vs := Samples(probes, p);
    forall k | 0 <= k < 3 ensures Peak(Channel(vs, k)) == 0.0 {
      PeakOfNonPositive(Channel(vs, k));
    }
    ToneAmbient();
  }

  /** The colour buffer a fresh mesh gets: four ones (opaque white) per
      vertex. */
  function InitColors(n: nat): (cs: seq<real>)
    ensures |cs| == 4 * n
    ensures forall i :: 0 <= i < |cs| ==> cs[i] == 1.0
  {
    seq(4 * n, _ => 1.0)
  }

  /** A freshly created mesh shaded from the probes: every colour slot of the
      buffer lies in [0.05, 1] and holds its vertex's colour, and every alpha
      slot keeps the 1 written at creation. */
  method ShadeFreshMesh(probes: Probes, positions: seq<Point>) returns (out: seq<real>)
    requires forall i :: 0 <= i < |positions| ==> Sampleable(probes, positions[i])
    ensures |out| == 4 * |positions|
    ensures forall i :: 0 <= i < |positions| ==>
      var c := VertexColor(probes, positions[i]);
      out[4 * i] == c.r && out[4 * i + 1] == c.g && out[4 * i + 2] == c.b && out[4 * i + 3] == 1.0
    ensures forall j :: 0 <= j < |out| ==> 0.05 <= out[j] <= 1.0
  {
    var colors := InitColors(|positions|);
    out := ShadeVertices(probes, positions, colors);
    assert forall i :: 0 <= i < |positions| ==> colors[4 * i + 3] == 1.0;
    forall i | 0 <= i < |positions|
      ensures 0.05 <= out[4 * i] <= 1.0 && 0.05 <= out[4 * i + 1] <= 1.0
      ensures 0.05 <= out[4 * i + 2] <= 1.0 && out[4 * i + 3] == 1.0
    {
      var c := VertexColor(probes, positions[i]);
    }
    SlotsInRange(out, |positions|);
  }

  /** Every slot of a four-per-vertex buffer lies in [0.05, 1] when each vertex's four slots do. */
  lemma SlotsInRange(out: seq<real>, n: nat)
    requires |out| == 4 * n
    requires forall i :: 0 <= i < n ==>
      0.05 <= out[4 * i] <= 1.0 && 0.05 <= out[4 * i + 1] <= 1.0 && 0.05 <= out[4 * i + 2] <= 1.0 && out[4 * i + 3] == 1.0
    ensures forall j :: 0 <= j < |out| ==> 0.05 <= out[j] <= 1.0
  {
    forall j | 0 <= j < |out| ensures 0.05 <= out[j] <= 1.0 {
      var i := j / 4;
      assert j == 4 * i + j % 4;
    }
  }

  /** The vertex loop of one mesh: slots 4i, 4i+1, 4i+2 of the colour buffer
      get vertex i's colour, the alpha slot 4i+3 keeps its value. */
  method ShadeVertices(probes: Probes, positions: seq<Point>, colors: seq<real>) returns (out: seq<real>)
    requires |colors| == 4 * |positions|
    requires forall i :: 0 <= i < |positions| ==> Sampleable(probes, positions[i])
    ensures |out| == |colors|
    ensures forall i :: 0 <= i < |positions| ==>
      var c := VertexColor(probes, positions[i]);
      out[4 * i] == c.r && out[4 * i + 1] == c.g && out[4 * i + 2] == c.b && out[4 * i + 3] == colors[4 * i + 3]
  {
    out := [];
    var idx := 0;
    while idx < |positions|
      invariant 0 <= idx <= |positions|
      invariant |out| == 4 * idx
      invariant forall i :: 0 <= i < idx ==>
        var c := VertexColor(probes, positions[i]);
        out[4 * i] == c.r && out[4 * i + 1] == c.g && out[4 * i + 2] == c.b && out[4 * i + 3] == colors[4 * i + 3]
    {
      var c := VertexColor(probes, positions[idx]);
      out := out + [c.r, c.g, c.b, colors[4 * idx + 3]];
      idx := idx + 1;
    }
    forall i | 0 <= i < |positions|
      ensures var c := VertexColor(probes, positions[i]);
        out[4 * i] == c.r && out[4 * i + 1] == c.g && out[4 * i + 2] == c.b && out[4 * i + 3] == colors[4 * i + 3]
    {
      assert i < idx;
    }
  }
}
