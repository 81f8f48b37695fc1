/** The bake end to end: building the grids, running every light, and what
    that means for the vertex colours. */
module Bake {
  import opened Grid
  import opened Propagation
  import opened Scenarios
  import opened Accumulation
  import opened Sampler

  /** After the walls are marked, every open cell has a probe: only the
      cells of the box start open, and marking only closes cells. */
  lemma SceneGridsAgree(walls: set<Cell>)
    ensures var g := MarkBlocked(InitCollisions(), walls);
      forall c :: Open(g, c) ==> c in InitProbes()
  {
    var g := MarkBlocked(InitCollisions(), walls);
    forall c | Open(g, c) ensures c in InitProbes() {
      assert c !in walls;
      assert Open(InitCollisions(), c);
    }
  }

  /** The probe grid a scene bakes: every light accumulated over the fresh
      grid, after the walls are marked. It covers the box, stays in the clamp
      range, and wall cells stay black. */
  function SceneProbes(walls: set<Cell>, lights: seq<Item>): (probes: Probes)
    ensures probes.Keys == InitProbes().Keys && InRange(probes)
    ensures forall c :: c in walls && c in probes ==> probes[c] == Black
  {
    SceneGridsAgree(walls);
    InitGridsAgree();
    AccumulateInRange(MarkBlocked(InitCollisions(), walls), InitProbes(), lights);
    Accumulate(MarkBlocked(InitCollisions(), walls), InitProbes(), lights)
  }

  /** The scene's light pass as a program: mark the walls, allocate the
      probes, run the per-light loop. */
  method BakeScene(walls: set<Cell>, lights: seq<Item>) returns (g: Collisions, probes: Probes)
    ensures g == MarkBlocked(InitCollisions(), walls)
    ensures probes == SceneProbes(walls, lights)
    ensures probes.Keys == InitProbes().Keys && InRange(probes)
  {
    g := MarkBlocked(InitCollisions(), walls);
    SceneGridsAgree(walls);
    InitGridsAgree();
    probes := BakeLights(g, InitProbes(), lights);
  }

  /** Adding lights never darkens a vertex: a vertex coloured from the grid
      after some lights is at least as bright, channel by channel, as the
      same vertex coloured from the grid before them. */
  lemma MoreLightNeverDarkens(g: Collisions, probes: Probes, lights: seq<Item>, p: Point)
    requires forall c :: Open(g, c) ==> c in probes
    requires InRange(probes) && Sampleable(probes, p)
    ensures Sampleable(Accumulate(g, probes, lights), p)
    ensures Brighter(VertexColor(probes, p), VertexColor(Accumulate(g, probes, lights), p))
  {
    var after := Accumulate(g, probes, lights);
    AccumulateInRange(g, probes, lights);
    assert forall i :: 0 <= i < 6 ==> SampleCells(p)[i] in after;
    VertexColorMonotone(probes, after, p);
  }

  /** A vertex whose six probes all sit in wall cells keeps the ambient 0.05,
      however many lights the scene has. */
  lemma WalledVertexAmbient(walls: set<Cell>, lights: seq<Item>, p: Point)
    requires forall i :: 0 <= i < 6 ==> SampleCells(p)[i] in walls && InBox(SampleCells(p)[i])
    ensures Sampleable(SceneProbes(walls, lights), p)
    ensures VertexColor(SceneProbes(walls, lights), p) == Rgb(0.05, 0.05, 0.05)
  {
    var probes := SceneProbes(walls, lights);
    forall i | 0 <= i < 6 ensures SampleCells(p)[i] in probes && Dark(probes[SampleCells(p)[i]]) {
      assert SampleCells(p)[i] in InitProbes();
    }
    DarkProbesAmbient(probes, p);
  }

  /** A light at x >= 0 and z >= 0 whose ten neighbours are all closed is
      lost entirely: its bounds end at its own cell, and the merge stops one
      short of the x and z maxima. */
  lemma SealedLightLost(g: Collisions, probes: Probes, seed: Item)
    requires forall c :: Open(g, c) ==> c in probes
    requires Open(g, seed.cell) && !Dark(seed.e)
    requires forall k :: 0 <= k < 10 ==> !Open(g, PushedCell(seed.cell, k))
    requires seed.cell.x >= 0 && seed.cell.z >= 0
    ensures MergePass(g, probes, seed) == probes
  {
    SealedSeed(g, seed);
    var b := Widen(ZeroBounds, seed.cell);
    assert b.xmax == seed.cell.x && b.zmax == seed.cell.z;
    assert !InScan(b, seed.cell);
  }
}
