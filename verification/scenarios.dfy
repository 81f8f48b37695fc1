/** Worked cases of a single propagation pass. */
module Scenarios {
  import opened Numeric
  import opened Grid
  import opened Propagation

  /** The state right after a lit seed on an open cell is expanded. */
  function Expanded(seed: Item): State {
    State(Successors(seed), {seed.cell}, map[seed.cell := seed.e], Widen(ZeroBounds, seed.cell))
  }

  /** The first iteration expands such a seed; the pass then goes on from
      its ten successors. */
  lemma FirstExpansion(g: Collisions, seed: Item)
    requires Open(g, seed.cell) && !Dark(seed.e)
    ensures LightPass(g, seed) == Pass(Run(g, Expanded(seed)).delta, Run(g, Expanded(seed)).bounds)
  {
    assert Step(g, Start(seed)) == Expanded(seed);
  }

  /** The k-th successor of the seed is recorded with its own energy when its
      cell is open and it carries energy: nothing ahead of it in the queue is
      for the same cell. */
  lemma SuccessorRecorded(g: Collisions, seed: Item, k: nat)
    requires k < 10
    requires Open(g, Successors(seed)[k].cell) && !Dark(Successors(seed)[k].e)
    ensures var n, delta := Successors(seed)[k], Run(g, Expanded(seed)).delta;
      n.cell in delta && delta[n.cell] == n.e
  {
    RecordsAt(g, Expanded(seed), k);
  }

  lemma RedDecays()
    ensures Decay(Rgb(150.0, 0.0, 0.0), AxialCost) == Rgb(135.0, -15.0, -15.0)
    ensures Decay(Rgb(150.0, 0.0, 0.0), DiagonalCost) == Rgb(129.0, -21.0, -21.0)
  {
    DecayWhole(150.0, AxialCost);
    DecayWhole(0.0, AxialCost);
    DecayWhole(150.0, DiagonalCost);
    DecayWhole(0.0, DiagonalCost);
  }

  /** A red seed of 150 at the origin: the axial neighbour (1, 0, 0) gets 150
      minus 15 and the diagonal neighbour (1, 0, -1) gets 150 minus 21. The
      green and blue channels are recorded as they arrive, below zero. */
  lemma RedSeedArrivals(g: Collisions)
    requires Open(g, Cell(0, 0, 0)) && Open(g, Cell(1, 0, 0)) && Open(g, Cell(1, 0, -1))
    ensures var p := LightPass(g, Item(Cell(0, 0, 0), Rgb(150.0, 0.0, 0.0)));
      && Cell(1, 0, 0) in p.delta && p.delta[Cell(1, 0, 0)] == Rgb(135.0, -15.0, -15.0)
      && Cell(1, 0, -1) in p.delta && p.delta[Cell(1, 0, -1)] == Rgb(129.0, -21.0, -21.0)
  {
    RedDecays();
    RedSeedArrival(g, 3, Item(Cell(1, 0, 0), Rgb(135.0, -15.0, -15.0)));
    RedSeedArrival(g, 8, Item(Cell(1, 0, -1), Rgb(129.0, -21.0, -21.0)));
  }

  /** The k-th push of the red seed, when open and lit, is recorded as pushed. */
  lemma RedSeedArrival(g: Collisions, k: nat, n: Item)
    requires k < 10 && Open(g, Cell(0, 0, 0))
    requires n == Successors(Item(Cell(0, 0, 0), Rgb(150.0, 0.0, 0.0)))[k]
    requires Open(g, n.cell) && !Dark(n.e)
    ensures var p := LightPass(g, Item(Cell(0, 0, 0), Rgb(150.0, 0.0, 0.0)));
      n.cell in p.delta && p.delta[n.cell] == n.e
  {
    var seed := Item(Cell(0, 0, 0), Rgb(150.0, 0.0, 0.0));
    SuccessorRecorded(g, seed, k);
    FirstExpansion(g, seed);
  }

  /** The six axis-aligned neighbours of a cell. */
  function FaceNeighbours(o: Cell): set<Cell> {
    set k | 0 <= k < 6 :: PushedCell(o, k)
  }

  /** Only the cell itself and its face neighbours lie closer than one
      diagonal hop. */
  lemma WithinOneAxialHop(o: Cell, c: Cell)
    requires HopDistance(o, c) < DiagonalCost
    ensures c == o || c in FaceNeighbours(o)
  {
    var dx, dy, dz := Abs(c.x - o.x), Abs(c.y - o.y), Abs(c.z - o.z);
    assert HopDistance(o, c) == 15 * dy + PlaneDistance(dx, dz);
    assert dx + dy + dz <= 1;
    if c != o {
      if c.y == o.y + 1 {
        assert c == PushedCell(o, 0);
      } else if c.y == o.y - 1 {
        assert c == PushedCell(o, 1);
      } else if c.x == o.x - 1 {
        assert c == PushedCell(o, 2);
      } else if c.x == o.x + 1 {
        assert c == PushedCell(o, 3);
      } else if c.z == o.z - 1 {
        assert c == PushedCell(o, 4);
      } else {
        assert c == PushedCell(o, 5);
      }
    }
  }

  const Origin := Cell(0, 0, 0)

  /** A seed of 20 on every channel at the origin lights exactly its own cell
      and its six face neighbours, each of these with 20 minus 15; the x-z
      diagonals would get 20 minus 21 and are dropped. */
  lemma WeakSeedReachesOneHop(g: Collisions)
    requires Open(g, Origin) && forall k :: 0 <= k < 6 ==> Open(g, PushedCell(Origin, k))
    ensures var delta := LightPass(g, Item(Origin, Rgb(20.0, 20.0, 20.0))).delta;
      && (forall c :: c in delta <==> c == Origin || c in FaceNeighbours(Origin))
      && Origin in delta && delta[Origin] == Rgb(20.0, 20.0, 20.0)
      && forall k :: 0 <= k < 6 ==>
           PushedCell(Origin, k) in delta && delta[PushedCell(Origin, k)] == Rgb(5.0, 5.0, 5.0)
  {
    var seed := Item(Origin, Rgb(20.0, 20.0, 20.0));
    var delta := LightPass(g, seed).delta;
    WeakSeedKeys(g);
    WeakSeedLightsFaces(g);
    FirstExpansion(g, seed);
    forall c | c in FaceNeighbours(Origin) ensures c in delta {
      var k :| 0 <= k < 6 && c == PushedCell(Origin, k);
    }
  }

  lemma WeakSeedKeys(g: Collisions)
    ensures forall c :: c in LightPass(g, Item(Origin, Rgb(20.0, 20.0, 20.0))).delta ==>
      c == Origin || c in FaceNeighbours(Origin)
  {
    var seed := Item(Origin, Rgb(20.0, 20.0, 20.0));
    var delta := LightPass(g, seed).delta;
    PassAttenuation(g, seed);
    PassEnergyGate(g, seed);
    forall c | c in delta ensures c == Origin || c in FaceNeighbours(Origin) {
      WeakSeedReach(seed, c, delta[c]);
    }
  }

  lemma WeakSeedLightsFaces(g: Collisions)
    requires forall k :: 0 <= k < 6 ==> Open(g, PushedCell(Origin, k))
    ensures var delta := Run(g, Expanded(Item(Origin, Rgb(20.0, 20.0, 20.0)))).delta;
      forall k :: 0 <= k < 6 ==> var c := PushedCell(Origin, k);
        c in delta && delta[c] == Rgb(5.0, 5.0, 5.0)
  {
    forall k | 0 <= k < 6
      ensures var c, delta := PushedCell(Origin, k), Run(g, Expanded(Item(Origin, Rgb(20.0, 20.0, 20.0)))).delta;
        c in delta && delta[c] == Rgb(5.0, 5.0, 5.0)
    {
      WeakSeedLightsFace(g, k);
    }
  }

  lemma WeakSeedLightsFace(g: Collisions, k: nat)
    requires k < 6 && Open(g, PushedCell(Origin, k))
    ensures var c, delta := PushedCell(Origin, k), Run(g, Expanded(Item(Origin, Rgb(20.0, 20.0, 20.0)))).delta;
      c in delta && delta[c] == Rgb(5.0, 5.0, 5.0)
  {
    var seed := Item(Origin, Rgb(20.0, 20.0, 20.0));
    assert Decay(seed.e, AxialCost) == Rgb(5.0, 5.0, 5.0) by {
      DecayWhole(20.0, AxialCost);
    }
    assert Successors(seed)[k] == Item(PushedCell(Origin, k), Rgb(5.0, 5.0, 5.0));
    SuccessorRecorded(g, seed, k);
  }

  /** A lit cell recorded within the budget of a 20/20/20 seed is the seed's
      cell or a face neighbour of it. */
  lemma WeakSeedReach(seed: Item, c: Cell, e: Rgb)
    requires seed.e == Rgb(20.0, 20.0, 20.0)
    requires Budget(seed, Item(c, e)) && !Dark(e)
    ensures c == seed.cell || c in FaceNeighbours(seed.cell)
  {
    if c != seed.cell {
      assert Attenuated(e, seed.e, MaxInt(AxialCost, HopDistance(seed.cell, c)));
      assert 1.0 <= e.r || 1.0 <= e.g || 1.0 <= e.b;
      WithinOneAxialHop(seed.cell, c);
    }
  }

  /** A lit seed whose ten neighbours are all blocked or outside lights only
      its own cell, and the bounds grow from zero just enough to hold it. */
  lemma SealedSeed(g: Collisions, seed: Item)
    requires Open(g, seed.cell) && !Dark(seed.e)
    requires forall k :: 0 <= k < 10 ==> !Open(g, PushedCell(seed.cell, k))
    ensures LightPass(g, seed) == Pass(map[seed.cell := seed.e], Widen(ZeroBounds, seed.cell))
  {
    FirstExpansion(g, seed);
    SealedSuccessorsSkipped(g, seed);
    RunSkipsAll(g, Expanded(seed));
  }

  lemma SealedSuccessorsSkipped(g: Collisions, seed: Item)
    requires forall k :: 0 <= k < 10 ==> !Open(g, PushedCell(seed.cell, k))
    ensures var s := Expanded(seed);
      forall i :: 0 <= i < |s.queue| ==> Skipped(g, s.visited, s.queue[i])
  {
    var succ := Successors(seed);
    forall i | 0 <= i < 10 ensures !Open(g, succ[i].cell) {
      assert succ[i].cell == PushedCell(seed.cell, i);
    }
  }

  /** Blocking the six faces of a cell does not seal it: a seed with at least
      22 of red still reaches an open x-z diagonal neighbour. */
  lemma FacesDoNotSeal(g: Collisions, seed: Item)
    requires Open(g, seed.cell) && seed.e.r >= 22.0
    requires forall k :: 0 <= k < 6 ==> Blocked(g, PushedCell(seed.cell, k))
    requires Open(g, Cell(seed.cell.x + 1, seed.cell.y, seed.cell.z + 1))
    ensures Cell(seed.cell.x + 1, seed.cell.y, seed.cell.z + 1) in LightPass(g, seed).delta
  {
    var succ := Successors(seed);
    assert succ[9] == Item(Cell(seed.cell.x + 1, seed.cell.y, seed.cell.z + 1), Decay(seed.e, DiagonalCost));
    SuccessorRecorded(g, seed, 9);
    FirstExpansion(g, seed);
  }
}
