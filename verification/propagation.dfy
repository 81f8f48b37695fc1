/** One propagation pass (`lightBfs`): a FIFO flood fill from a single light
    seed over the collision grid, recording the energy that first reaches each
    open cell and the box that the recorded cells span. */
module Propagation {
  import opened Numeric
  import opened Grid

  /** Energy lost on an axis-aligned hop. */
  const AxialCost: int := 15

  /** Energy lost on an x-z diagonal hop. */
  const DiagonalCost: int := 21

  /** A queue entry, the source's six numbers [x, y, z, r, g, b]. */
  datatype Item = Item(cell: Cell, e: Rgb)

  /** Inclusive per-axis ranges, the source's bounds[0] (x), bounds[1] (y)
      and bounds[2] (z). */
  datatype Bounds = Bounds(xmin: int, xmax: int, ymin: int, ymax: int, zmin: int, zmax: int)

  /** Every pass starts from [[0, 0], [0, 0], [0, 0]]. */
  const ZeroBounds := Bounds(0, 0, 0, 0, 0, 0)

  predicate InBounds(b: Bounds, c: Cell) {
    b.xmin <= c.x <= b.xmax && b.ymin <= c.y <= b.ymax && b.zmin <= c.z <= b.zmax
  }

  predicate HasOrigin(b: Bounds) {
    b.xmin <= 0 <= b.xmax && b.ymin <= 0 <= b.ymax && b.zmin <= 0 <= b.zmax
  }

  /** Stretch the bounds over one more cell. */
  function Widen(b: Bounds, c: Cell): (r: Bounds)
    ensures InBounds(r, c)
    ensures forall d :: InBounds(b, d) ==> InBounds(r, d)
    ensures r.xmin == b.xmin || r.xmin == c.x
    ensures r.xmax == b.xmax || r.xmax == c.x
    ensures r.ymin == b.ymin || r.ymin == c.y
    ensures r.ymax == b.ymax || r.ymax == c.y
    ensures r.zmin == b.zmin || r.zmin == c.z
    ensures r.zmax == b.zmax || r.zmax == c.z
  {
    Bounds(MinInt(b.xmin, c.x), MaxInt(b.xmax, c.x),
           MinInt(b.ymin, c.y), MaxInt(b.ymax, c.y),
           MinInt(b.zmin, c.z), MaxInt(b.zmax, c.z))
  }

  /** Energy after a hop of the given cost: each channel is lowered by the
      cost and rounded as Math.round does. Every channel comes out a whole
      number r with e - cost - 1/2 < r <= e - cost + 1/2, and from
      whole-number energies the hop loses exactly its cost. */
  function Decay(e: Rgb, cost: int): (r: Rgb)
    ensures Whole(r) && Attenuated(r, e, cost)
    ensures e.r - cost as real - 0.5 < r.r && e.g - cost as real - 0.5 < r.g && e.b - cost as real - 0.5 < r.b
    ensures Whole(e) ==> r == Rgb(e.r - cost as real, e.g - cost as real, e.b - cost as real)
  {
    var r := Rgb(Round(e.r - cost as real) as real,
                 Round(e.g - cost as real) as real,
                 Round(e.b - cost as real) as real);
    assert r.r.Floor == Round(e.r - cost as real);
    assert r.g.Floor == Round(e.g - cost as real);
    assert r.b.Floor == Round(e.b - cost as real);
    if Whole(e) then
      DecayWhole(e.r, cost);
      DecayWhole(e.g, cost);
      DecayWhole(e.b, cost);
      r
    else
      r
  }

  /** The ten lattice neighbours light may hop to: the six axis-aligned ones
      and the four diagonals of the x-z plane. There are no diagonals that
      change y. */
  predicate Neighbour(a: Cell, b: Cell) {
    var dx, dy, dz := Abs(b.x - a.x), Abs(b.y - a.y), Abs(b.z - a.z);
    dx + dy + dz == 1 || (dy == 0 && dx == 1 && dz == 1)
  }

  /** What a hop between neighbours costs. */
  function HopCost(a: Cell, b: Cell): int {
    if Abs(b.x - a.x) + Abs(b.y - a.y) + Abs(b.z - a.z) == 1 then AxialCost else DiagonalCost
  }

  /** The cell of the k-th entry an expanded cell pushes, in the source's
      order: y+1, y-1, x-1, x+1, z-1, z+1, then the x-z diagonals (-,-),
      (-,+), (+,-), (+,+). */
  function PushedCell(c: Cell, k: int): (n: Cell)
    requires 0 <= k < 10
    ensures Neighbour(c, n) && HopCost(c, n) == PushedCost(k)
  {
    match k
    case 0 => Cell(c.x, c.y + 1, c.z)
    case 1 => Cell(c.x, c.y - 1, c.z)
    case 2 => Cell(c.x - 1, c.y, c.z)
    case 3 => Cell(c.x + 1, c.y, c.z)
    case 4 => Cell(c.x, c.y, c.z - 1)
    case 5 => Cell(c.x, c.y, c.z + 1)
    case 6 => Cell(c.x - 1, c.y, c.z - 1)
    case 7 => Cell(c.x - 1, c.y, c.z + 1)
    case 8 => Cell(c.x + 1, c.y, c.z - 1)
    case _ => Cell(c.x + 1, c.y, c.z + 1)
  }

  /** The first six pushes are axial, the last four diagonal. */
  function PushedCost(k: int): int {
    if k < 6 then AxialCost else DiagonalCost
  }

  /** The ten entries an expanded cell pushes, each for one neighbour with the
      energy lowered by that hop's cost. They are ten different cells, none
      of them the expanded one. */
  function Successors(it: Item): (r: seq<Item>)
    ensures |r| == 10
    ensures forall j, k :: 0 <= j < k < 10 ==> r[j].cell != r[k].cell
    ensures forall k :: 0 <= k < 10 ==> r[k].cell != it.cell
  {
    seq(10, k requires 0 <= k < 10 => Item(PushedCell(it.cell, k), Decay(it.e, PushedCost(k))))
  }

  /** Every pushed entry is for a neighbour and carries the energy lowered by
      that hop's cost. */
  lemma SuccessorsAreNeighbours(it: Item)
    ensures forall k :: 0 <= k < 10 ==>
      var n := Successors(it)[k];
      Neighbour(it.cell, n.cell) && n.e == Decay(it.e, HopCost(it.cell, n.cell))
  {
    forall k | 0 <= k < 10
      ensures Neighbour(it.cell, PushedCell(it.cell, k)) && HopCost(it.cell, PushedCell(it.cell, k)) == PushedCost(k)
    {
    }
  }

  /** Every one of the ten neighbours is pushed: the entry at its place in
      the push order is for that neighbour. */
  lemma NeighboursArePushed(it: Item, b: Cell)
    requires Neighbour(it.cell, b)
    ensures Successors(it)[NeighbourIndex(it.cell, b)].cell == b
  {
    var c := it.cell;
    var dx, dy, dz := b.x - c.x, b.y - c.y, b.z - c.z;
    if dy != 0 {
      assert dx == 0 && dz == 0;
    } else if dz == 0 {
      assert dx == 1 || dx == -1;
    } else if dx == 0 {
      assert dz == 1 || dz == -1;
    } else {
      assert (dx == 1 || dx == -1) && (dz == 1 || dz == -1);
    }
    assert b == Cell(c.x + dx, c.y + dy, c.z + dz);
  }

  /** Where a given neighbour sits in the push order. */
  function NeighbourIndex(c: Cell, b: Cell): (k: int)
    requires Neighbour(c, b)
    ensures 0 <= k < 10
  {
    var dx, dy, dz := b.x - c.x, b.y - c.y, b.z - c.z;
    if dy == 1 then 0
    else if dy == -1 then 1
    else if dz == 0 then (if dx == -1 then 2 else 3)
    else if dx == 0 then (if dz == -1 then 4 else 5)
    else if dx == -1 then (if dz == -1 then 6 else 7)
    else (if dz == -1 then 8 else 9)
  }

  /** The hop distance from a to b: an axial hop's cost per step of the y
      offset, a diagonal hop's cost per step both x-z offsets share, an axial
      hop's cost per remaining x or z step. By `HopDistanceStep` every chain
      of hops from a to b costs at least this much. */
  function HopDistance(a: Cell, b: Cell): nat {
    AxialCost * Abs(b.y - a.y) + PlaneDistance(Abs(b.x - a.x), Abs(b.z - a.z))
  }

  /** Cost of an x-z offset of (p, q): DiagonalCost per shared step,
      AxialCost per remaining one. */
  function PlaneDistance(p: nat, q: nat): nat {
    if p <= q then DiagonalCost * p + AxialCost * (q - p) else DiagonalCost * q + AxialCost * (p - q)
  }

  lemma PlaneAxialStep(p: nat, q: nat, p': nat)
    requires Abs(p' - p) <= 1
    ensures PlaneDistance(p', q) <= PlaneDistance(p, q) + AxialCost
    ensures PlaneDistance(q, p') <= PlaneDistance(q, p) + AxialCost
  {
  }

  lemma PlaneDiagonalStep(p: nat, q: nat, p': nat, q': nat)
    requires Abs(p' - p) <= 1 && Abs(q' - q) <= 1
    ensures PlaneDistance(p', q') <= PlaneDistance(p, q) + DiagonalCost
  {
  }

  lemma AbsStep(u: int, v: int)
    requires Abs(u - v) <= 1
    ensures Abs(Abs(u) - Abs(v)) <= 1
  {
  }

  /** The axial and diagonal plane steps on signed offsets. */
  lemma PlaneAxialStepSigned(u: int, w: int, u': int)
    requires Abs(u' - u) <= 1
    ensures PlaneDistance(Abs(u'), Abs(w)) <= PlaneDistance(Abs(u), Abs(w)) + AxialCost
    ensures PlaneDistance(Abs(w), Abs(u')) <= PlaneDistance(Abs(w), Abs(u)) + AxialCost
  {
    AbsStep(u', u);
    PlaneAxialStep(Abs(u), Abs(w), Abs(u'));
  }

  lemma PlaneDiagonalStepSigned(u: int, w: int, u': int, w': int)
    requires Abs(u' - u) <= 1 && Abs(w' - w) <= 1
    ensures PlaneDistance(Abs(u'), Abs(w')) <= PlaneDistance(Abs(u), Abs(w)) + DiagonalCost
  {
    AbsStep(u', u);
    AbsStep(w', w);
    PlaneDiagonalStep(Abs(u), Abs(w), Abs(u'), Abs(w'));
  }

  /** One hop moves the hop distance from any fixed cell by at most its cost. */
  lemma HopDistanceStep(s: Cell, a: Cell, b: Cell)
    requires Neighbour(a, b)
    ensures HopDistance(s, b) <= HopDistance(s, a) + HopCost(a, b)
  {
    if b.y != a.y {
      YStep(s, a, b);
    } else if b.z == a.z {
      XStep(s, a, b);
    } else if b.x == a.x {
      ZStep(s, a, b);
    } else {
      DiagonalStep(s, a, b);
    }
  }

  lemma YStep(s: Cell, a: Cell, b: Cell)
    requires b.x == a.x && b.z == a.z && Abs(b.y - a.y) <= 1
    ensures HopDistance(s, b) <= HopDistance(s, a) + AxialCost
  {
    AbsStep(b.y - s.y, a.y - s.y);
  }

  lemma XStep(s: Cell, a: Cell, b: Cell)
    requires b.y == a.y && b.z == a.z && Abs(b.x - a.x) <= 1
    ensures HopDistance(s, b) <= HopDistance(s, a) + AxialCost
  {
    var u, w, u' := a.x - s.x, a.z - s.z, b.x - s.x;
    assert Abs(u' - u) <= 1 by { assert u' - u == b.x - a.x; }
    PlaneAxialStepSigned(u, w, u');
    var y := Abs(a.y - s.y);
    assert HopDistance(s, a) == AxialCost * y + PlaneDistance(Abs(u), Abs(w));
    assert HopDistance(s, b) == AxialCost * y + PlaneDistance(Abs(u'), Abs(w));
  }

  lemma ZStep(s: Cell, a: Cell, b: Cell)
    requires b.y == a.y && b.x == a.x && Abs(b.z - a.z) <= 1
    ensures HopDistance(s, b) <= HopDistance(s, a) + AxialCost
  {
    var u, w, w' := a.x - s.x, a.z - s.z, b.z - s.z;
    assert Abs(w' - w) <= 1 by { assert w' - w == b.z - a.z; }
    PlaneAxialStepSigned(w, u, w');
    var y := Abs(a.y - s.y);
    assert HopDistance(s, a) == AxialCost * y + PlaneDistance(Abs(u), Abs(w));
    assert HopDistance(s, b) == AxialCost * y + PlaneDistance(Abs(u), Abs(w'));
  }

  lemma DiagonalStep(s: Cell, a: Cell, b: Cell)
    requires b.y == a.y && Abs(b.x - a.x) <= 1 && Abs(b.z - a.z) <= 1
    ensures HopDistance(s, b) <= HopDistance(s, a) + DiagonalCost
  {
    var u, w, u', w' := a.x - s.x, a.z - s.z, b.x - s.x, b.z - s.z;
    assert Abs(u' - u) <= 1 by { assert u' - u == b.x - a.x; }
    assert Abs(w' - w) <= 1 by { assert w' - w == b.z - a.z; }
    PlaneDiagonalStepSigned(u, w, u', w');
    var y := Abs(a.y - s.y);
    assert HopDistance(s, a) == AxialCost * y + PlaneDistance(Abs(u), Abs(w));
    assert HopDistance(s, b) == AxialCost * y + PlaneDistance(Abs(u'), Abs(w'));
  }

  // ---------------------------------------------------------------------
  // The state of one pass and one iteration of the loop.

  /** The pass's queue, visited flags, delta grid and bounds. */
  datatype State = State(queue: seq<Item>, visited: set<Cell>, delta: map<Cell, Rgb>, bounds: Bounds)

  /** A pass starts from the queue [seed], nothing visited or recorded, and
      the bounds [[0, 0], [0, 0], [0, 0]]. */
  function Start(seed: Item): State {
    State([seed], {}, map[], ZeroBounds)
  }

  /** An entry that the loop drops without expanding: its cell is outside the
      domain, blocked or already visited, or it carries no positive energy. */
  predicate Skipped(g: Collisions, visited: set<Cell>, it: Item) {
    !Open(g, it.cell) || Dark(it.e) || it.cell in visited
  }

  /** Ten units per domain cell not yet visited plus one per queued entry. */
  function Measure(g: Collisions, s: State): nat {
    10 * |g.Keys - s.visited| + |s.queue|
  }

  /** Every entry of m is in m' with the same value. */
  predicate Extends(m: map<Cell, Rgb>, m': map<Cell, Rgb>) {
    forall c :: c in m ==> c in m' && m'[c] == m[c]
  }

  lemma CardRemove(a: set<Cell>, v: set<Cell>, c: Cell)
    requires c in a && c !in v
    ensures |a - (v + {c})| < |a - v|
  {
    assert a - (v + {c}) == (a - v) - {c};
  }

  /** One iteration of the loop: pop the head; drop it if it is skipped;
      otherwise push its ten successors, widen the bounds, record its energy
      and mark its cell visited. */
  function Step(g: Collisions, s: State): (r: State)
    requires s.queue != []
    ensures Measure(g, r) < Measure(g, s)
    ensures |s.queue| - 1 <= |r.queue| && r.queue[..|s.queue| - 1] == s.queue[1..]
    ensures Skipped(g, s.visited, s.queue[0]) ==> r == s.(queue := s.queue[1..])
    ensures s.delta.Keys <= s.visited ==> Extends(s.delta, r.delta) && r.delta.Keys <= r.visited
  {
    var it, rest := s.queue[0], s.queue[1..];
    if Skipped(g, s.visited, it) then
      s.(queue := rest)
    else
      Expand(g, s)
  }

  /** The expanding branch of `Step`. */
  function Expand(g: Collisions, s: State): (r: State)
    requires s.queue != [] && !Skipped(g, s.visited, s.queue[0])
    ensures Measure(g, r) < Measure(g, s)
    ensures |s.queue| - 1 <= |r.queue| && r.queue[..|s.queue| - 1] == s.queue[1..]
    ensures r.queue[|s.queue| - 1..] == Successors(s.queue[0])
    ensures r.visited == s.visited + {s.queue[0].cell}
    ensures r.delta == s.delta[s.queue[0].cell := s.queue[0].e]
    ensures InBounds(r.bounds, s.queue[0].cell) && forall c :: InBounds(s.bounds, c) ==> InBounds(r.bounds, c)
    ensures s.delta.Keys <= s.visited ==> Extends(s.delta, r.delta) && r.delta.Keys <= r.visited
  {
    var it, rest := s.queue[0], s.queue[1..];
    CardRemove(g.Keys, s.visited, it.cell);
    State(rest + Successors(it), s.visited + {it.cell}, s.delta[it.cell := it.e], Widen(s.bounds, it.cell))
  }

  /** Run the loop until the queue is empty. */
  function Run(g: Collisions, s: State): (r: State)
    ensures r.queue == []
    ensures s.delta.Keys <= s.visited ==> Extends(s.delta, r.delta) && r.delta.Keys <= r.visited
    decreases Measure(g, s)
  {
    if s.queue == [] then s else Run(g, Step(g, s))
  }

  // ---------------------------------------------------------------------
  // The invariant of a pass.

  /** Each channel of e is at most the seed's channel, plus the rounding
      slack of one half, minus d. */
  predicate Attenuated(e: Rgb, seed: Rgb, d: int) {
    e.r <= seed.r + 0.5 - d as real &&
    e.g <= seed.g + 0.5 - d as real &&
    e.b <= seed.b + 0.5 - d as real
  }

  predicate Whole(e: Rgb) {
    IsWhole(e.r) && IsWhole(e.g) && IsWhole(e.b)
  }

  /** The seed itself, or an entry with whole-number energies that has lost
      at least one axial hop's cost and at least its hop distance from the
      seed. */
  predicate Budget(seed: Item, it: Item) {
    it == seed ||
    (Whole(it.e) && Attenuated(it.e, seed.e, MaxInt(AxialCost, HopDistance(seed.cell, it.cell))))
  }

  /** A hop from whole-number energies loses exactly its cost. */
  lemma DecayWhole(v: real, cost: int)
    requires IsWhole(v)
    ensures Round(v - cost as real) as real == v - cost as real
  {
    WholeShift(v, cost);
    RoundWhole(v - cost as real);
  }

  /** One hop from an entry within budget stays within budget. */
  lemma HopBudget(seed: Item, it: Item, n: Item)
    requires Budget(seed, it)
    requires Neighbour(it.cell, n.cell) && n.e == Decay(it.e, HopCost(it.cell, n.cell))
    ensures Budget(seed, n)
  {
    var cost := HopCost(it.cell, n.cell);
    HopDistanceStep(seed.cell, it.cell, n.cell);
  }

  /** Successors of an entry within budget are within budget. */
  lemma SuccessorBudget(seed: Item, it: Item)
    requires Budget(seed, it)
    ensures forall k :: 0 <= k < 10 ==> Budget(seed, Successors(it)[k])
  {
    var succ := Successors(it);
    SuccessorsAreNeighbours(it);
    forall k | 0 <= k < 10 ensures Budget(seed, succ[k]) {
      HopBudget(seed, it, succ[k]);
    }
  }

  /** What holds of every state a pass from `seed` goes through. */
  predicate Inv(g: Collisions, seed: Item, s: State) {
    && s.visited == s.delta.Keys
    && RecordedInv(g, seed, s.delta, s.bounds)
    && QueueInv(seed, s.queue)
  }

  /** The recorded cells are open, lit, inside the bounds and within budget,
      and the bounds hold the origin. */
  predicate RecordedInv(g: Collisions, seed: Item, delta: map<Cell, Rgb>, bounds: Bounds) {
    && HasOrigin(bounds)
    && (forall c :: c in delta ==>
          Open(g, c) && !Dark(delta[c]) && InBounds(bounds, c) && Budget(seed, Item(c, delta[c])))
  }

  /** Every queued entry is within budget. */
  predicate QueueInv(seed: Item, q: seq<Item>) {
    forall i :: 0 <= i < |q| ==> Budget(seed, q[i])
  }

  lemma StartInv(g: Collisions, seed: Item)
    ensures Inv(g, seed, Start(seed))
  {
  }

  lemma StepInv(g: Collisions, seed: Item, s: State)
    requires Inv(g, seed, s) && s.queue != []
    ensures Inv(g, seed, Step(g, s))
  {
    if Skipped(g, s.visited, s.queue[0]) {
      assert Step(g, s) == s.(queue := s.queue[1..]);
      assert QueueInv(seed, s.queue[1..]) by {
        assert forall i :: 0 <= i < |s.queue| - 1 ==> s.queue[1..][i] == s.queue[i + 1];
      }
    } else {
      ExpandInv(g, seed, s);
    }
  }

  lemma ExpandInv(g: Collisions, seed: Item, s: State)
    requires Inv(g, seed, s) && s.queue != [] && !Skipped(g, s.visited, s.queue[0])
    ensures Inv(g, seed, Step(g, s))
  {
    var r := Expand(g, s);
    assert Step(g, s) == r;
    RecordKeepsInv(g, seed, s.delta, s.bounds, r.bounds, s.queue[0]);
    ExpandQueue(s);
    QueueBudget(seed, s.queue, r.queue);
  }

  /** The queue after an expansion is the rest of the old queue followed by
      the ten successors. */
  lemma ExpandQueue(s: State)
    requires s.queue != []
    ensures forall g: Collisions :: !Skipped(g, s.visited, s.queue[0]) ==>
      Expand(g, s).queue == s.queue[1..] + Successors(s.queue[0])
  {
    forall g: Collisions | !Skipped(g, s.visited, s.queue[0])
      ensures Expand(g, s).queue == s.queue[1..] + Successors(s.queue[0])
    {
      var q := Expand(g, s).queue;
      assert q == q[..|s.queue| - 1] + q[|s.queue| - 1..];
    }
  }

  /** Recording an open, lit entry within budget, with bounds that grow over
      it, keeps the recorded cells open, lit, inside the bounds and within
      budget. */
  lemma RecordKeepsInv(g: Collisions, seed: Item, delta: map<Cell, Rgb>, bounds: Bounds, bounds': Bounds, it: Item)
    requires RecordedInv(g, seed, delta, bounds)
    requires Open(g, it.cell) && !Dark(it.e) && Budget(seed, it)
    requires InBounds(bounds', it.cell) && forall c :: InBounds(bounds, c) ==> InBounds(bounds', c)
    ensures RecordedInv(g, seed, delta[it.cell := it.e], bounds')
  {
    assert InBounds(bounds, Cell(0, 0, 0));
  }

  /** Replacing the head of a queue within budget by its successors keeps the
      whole queue within budget. */
  lemma QueueBudget(seed: Item, q: seq<Item>, q': seq<Item>)
    requires q != [] && QueueInv(seed, q)
    requires q' == q[1..] + Successors(q[0])
    ensures QueueInv(seed, q')
  {
    var rest, succ := q[1..], Successors(q[0]);
    assert Budget(seed, q[0]);
    SuccessorBudget(seed, q[0]);
    forall i | 0 <= i < |q'| ensures Budget(seed, q'[i]) {
      if i < |rest| {
        assert q'[i] == q[i + 1];
      } else {
        assert q'[i] == succ[i - |rest|];
      }
    }
  }

  lemma {:induction false} RunInv(g: Collisions, seed: Item, s: State)
    requires Inv(g, seed, s)
    ensures Inv(g, seed, Run(g, s))
    decreases Measure(g, s)
  {
    if s.queue != [] {
      StepInv(g, seed, s);
      RunInv(g, seed, Step(g, s));
    }
  }

  /** Running from a state whose queue is made only of skipped entries
      changes nothing but the queue. */
  lemma {:induction false} RunSkipsAll(g: Collisions, s: State)
    requires forall i :: 0 <= i < |s.queue| ==> Skipped(g, s.visited, s.queue[i])
    ensures Run(g, s) == s.(queue := [])
    decreases |s.queue|
  {
    if s.queue != [] {
      var s' := Step(g, s);
      assert s' == s.(queue := s.queue[1..]);
      assert forall i :: 0 <= i < |s'.queue| ==> s'.queue[i] == s.queue[i + 1];
      RunSkipsAll(g, s');
    }
  }

  /** A skipped entry has no effect on the pass: running from the state
      with it at the head gives what running without it gives. */
  lemma SkippedHasNoEffect(g: Collisions, s: State)
    requires s.queue != [] && Skipped(g, s.visited, s.queue[0])
    ensures Run(g, s) == Run(g, s.(queue := s.queue[1..]))
  {
    assert Step(g, s) == s.(queue := s.queue[1..]);
  }

  /** First lit arrival wins: the k-th queued entry is recorded, with its
      own energy, when its cell is open, it carries energy, its cell is not
      yet visited and every entry ahead of it in the queue for the same cell
      is dark, so skipped by the energy gate. */
  lemma {:induction false} RecordsAt(g: Collisions, s: State, k: nat)
    requires k < |s.queue|
    requires s.delta.Keys <= s.visited
    requires Open(g, s.queue[k].cell) && !Dark(s.queue[k].e) && s.queue[k].cell !in s.visited
    requires forall j :: 0 <= j < k && s.queue[j].cell == s.queue[k].cell ==> Dark(s.queue[j].e)
    ensures s.queue[k].cell in Run(g, s).delta && Run(g, s).delta[s.queue[k].cell] == s.queue[k].e
    decreases k
  {
    var s' := Step(g, s);
    if k == 0 {
      assert s'.delta == s.delta[s.queue[0].cell := s.queue[0].e];
    } else {
      assert s'.queue[k - 1] == s.queue[k];
      assert forall j :: 0 <= j < k - 1 ==> s'.queue[j] == s.queue[j + 1];
      RecordsAt(g, s', k - 1);
    }
  }

  // ---------------------------------------------------------------------
  // A whole pass.

  /** The outcome of one pass: the delta grid and the bounds. */
  datatype Pass = Pass(delta: map<Cell, Rgb>, bounds: Bounds)

  /** `lightBfs([seed], collisions, val, visited, bounds)` with fresh `val`,
      `visited` and zero bounds. A skipped seed leaves nothing behind; any
      other seed is recorded at its own cell. The rest of its properties are
      the lemmas below. */
  function LightPass(g: Collisions, seed: Item): (p: Pass)
    ensures Skipped(g, {}, seed) ==> p == Pass(map[], ZeroBounds)
    ensures !Skipped(g, {}, seed) ==> seed.cell in p.delta && p.delta[seed.cell] == seed.e
  {
    var s := Run(g, Start(seed));
    if Skipped(g, {}, seed) then
      RunSkipsAll(g, Start(seed));
      Pass(s.delta, s.bounds)
    else
      RecordsAt(g, Start(seed), 0);
      Pass(s.delta, s.bounds)
  }

  /** Each limit of the bounds is 0, where it started, or the coordinate of
      a recorded cell. */
  predicate Attained(b: Bounds, delta: map<Cell, Rgb>) {
    && (b.xmin == 0 || exists c :: c in delta && c.x == b.xmin)
    && (b.xmax == 0 || exists c :: c in delta && c.x == b.xmax)
    && (b.ymin == 0 || exists c :: c in delta && c.y == b.ymin)
    && (b.ymax == 0 || exists c :: c in delta && c.y == b.ymax)
    && (b.zmin == 0 || exists c :: c in delta && c.z == b.zmin)
    && (b.zmax == 0 || exists c :: c in delta && c.z == b.zmax)
  }

  /** Recording a cell while widening the bounds over it keeps every limit
      attained. */
  lemma RecordKeepsAttained(b: Bounds, delta: map<Cell, Rgb>, c: Cell, e: Rgb)
    requires Attained(b, delta)
    ensures Attained(Widen(b, c), delta[c := e])
  {
    var d := delta[c := e];
    assert c in d;
    assert forall x :: x in delta ==> x in d;
  }

  lemma {:induction false} RunAttained(g: Collisions, s: State)
    requires Attained(s.bounds, s.delta)
    ensures Attained(Run(g, s).bounds, Run(g, s).delta)
    decreases Measure(g, s)
  {
    if s.queue != [] {
      var it := s.queue[0];
      if !Skipped(g, s.visited, it) {
        RecordKeepsAttained(s.bounds, s.delta, it.cell, it.e);
        assert Step(g, s) == Expand(g, s);
      }
      RunAttained(g, Step(g, s));
    }
  }

  /** The bounds of a pass are tight: each limit is 0 or the coordinate of a
      recorded cell. */
  lemma PassBoundsAttained(g: Collisions, seed: Item)
    ensures Attained(LightPass(g, seed).bounds, LightPass(g, seed).delta)
  {
    RunAttained(g, Start(seed));
  }

  /** A region light cannot leave: every push from a cell of S lands in S or
      on a closed cell. */
  predicate Enclosed(g: Collisions, S: set<Cell>) {
    forall c, k :: c in S && 0 <= k < 10 ==> PushedCell(c, k) in S || !Open(g, PushedCell(c, k))
  }

  /** Everything recorded lies in S, and every queued entry is for a cell of
      S or a closed cell. */
  predicate Inside(g: Collisions, S: set<Cell>, s: State) {
    && (forall c :: c in s.delta ==> c in S)
    && (forall i :: 0 <= i < |s.queue| ==> s.queue[i].cell in S || !Open(g, s.queue[i].cell))
  }

  lemma StepInside(g: Collisions, S: set<Cell>, s: State)
    requires Enclosed(g, S) && Inside(g, S, s) && s.queue != []
    ensures Inside(g, S, Step(g, s))
  {
    var it, rest := s.queue[0], s.queue[1..];
    assert forall i :: 0 <= i < |rest| ==> rest[i] == s.queue[i + 1];
    if Skipped(g, s.visited, it) {
      assert Step(g, s) == s.(queue := rest);
    } else {
      var r := Expand(g, s);
      assert Step(g, s) == r;
      ExpandQueue(s);
      QueueInside(g, S, rest, it);
    }
  }

  /** Pushing the successors of a cell of an enclosed region keeps every
      queued entry in the region or on a closed cell. */
  lemma QueueInside(g: Collisions, S: set<Cell>, rest: seq<Item>, it: Item)
    requires Enclosed(g, S) && it.cell in S
    requires forall i :: 0 <= i < |rest| ==> rest[i].cell in S || !Open(g, rest[i].cell)
    ensures forall i :: 0 <= i < |rest| + 10 ==>
      (rest + Successors(it))[i].cell in S || !Open(g, (rest + Successors(it))[i].cell)
  {
    var succ := Successors(it);
    var q := rest + succ;
    forall i | 0 <= i < |q| ensures q[i].cell in S || !Open(g, q[i].cell) {
      if i < |rest| {
        assert q[i] == rest[i];
      } else {
        assert q[i] == succ[i - |rest|];
        assert succ[i - |rest|].cell == PushedCell(it.cell, i - |rest|);
      }
    }
  }

  lemma {:induction false} RunInside(g: Collisions, S: set<Cell>, s: State)
    requires Enclosed(g, S) && Inside(g, S, s)
    ensures forall c :: c in Run(g, s).delta ==> c in S
    decreases Measure(g, s)
  {
    if s.queue != [] {
      StepInside(g, S, s);
      RunInside(g, S, Step(g, s));
    }
  }

  /** Occlusion across walls: light seeded in a region whose every exit is
      blocked or outside records nothing beyond the region. */
  lemma PassStaysInside(g: Collisions, seed: Item, S: set<Cell>)
    requires seed.cell in S && Enclosed(g, S)
    ensures forall c :: c in LightPass(g, seed).delta ==> c in S
  {
    RunInside(g, S, Start(seed));
  }

  /** The invariant holds of the finished pass. */
  lemma PassInv(g: Collisions, seed: Item)
    ensures Inv(g, seed, Run(g, Start(seed)))
  {
    StartInv(g, seed);
    RunInv(g, seed, Start(seed));
  }

  /** Occlusion: only open cells of the domain are recorded, so nothing is
      recorded at, or expanded from, a blocked or outside cell. */
  lemma PassOcclusion(g: Collisions, seed: Item)
    ensures forall c :: c in LightPass(g, seed).delta ==> Open(g, c)
  {
    PassInv(g, seed);
  }

  /** Energy gate: every recorded cell has a channel above zero. */
  lemma PassEnergyGate(g: Collisions, seed: Item)
    ensures forall c :: c in LightPass(g, seed).delta ==> !Dark(LightPass(g, seed).delta[c])
  {
    PassInv(g, seed);
  }

  /** The bounds hold every recorded cell and, having started at zero, the
      origin on every axis. */
  lemma PassBounds(g: Collisions, seed: Item)
    ensures forall c :: c in LightPass(g, seed).delta ==> InBounds(LightPass(g, seed).bounds, c)
    ensures HasOrigin(LightPass(g, seed).bounds)
  {
    PassInv(g, seed);
  }

  /** Attenuation: a recorded cell holds the seed's own energy or has lost at
      least its hop distance from the seed (and at least one axial hop). */
  lemma PassAttenuation(g: Collisions, seed: Item)
    ensures forall c :: c in LightPass(g, seed).delta ==> Budget(seed, Item(c, LightPass(g, seed).delta[c]))
  {
    PassInv(g, seed);
  }

  /** Every recorded channel is at most the seed's; away from the seed's own
      cell it is at least one axial hop's cost (less the rounding slack)
      below it. */
  lemma DecayBelowSeed(g: Collisions, seed: Item, c: Cell)
    requires c in LightPass(g, seed).delta
    ensures var e := LightPass(g, seed).delta[c];
      e.r <= seed.e.r && e.g <= seed.e.g && e.b <= seed.e.b
    ensures c != seed.cell ==> Attenuated(LightPass(g, seed).delta[c], seed.e, AxialCost)
  {
    PassAttenuation(g, seed);
  }

  /** Light reaches no cell whose hop distance from the seed is not below the
      seed's strongest channel plus one half. */
  lemma ReachRadius(g: Collisions, seed: Item, c: Cell)
    requires c in LightPass(g, seed).delta
    ensures HopDistance(seed.cell, c) as real < Max(seed.e.r, Max(seed.e.g, seed.e.b)) + 0.5
  {
    PassAttenuation(g, seed);
    PassEnergyGate(g, seed);
  }

  /** The imperative loop of the source, on a sequence used as a FIFO queue.
      It computes exactly the pass above. */
  method LightBfs(g: Collisions, seed: Item) returns (delta: map<Cell, Rgb>, bounds: Bounds)
    ensures Pass(delta, bounds) == LightPass(g, seed)
    ensures forall c :: c in delta ==> Open(g, c) && !Dark(delta[c]) && InBounds(bounds, c)
    ensures HasOrigin(bounds)
  {
    var queue := [seed];
    var visited: set<Cell> := {};
    delta := map[];
    bounds := ZeroBounds;
    StartInv(g, seed);
    while queue != []
      invariant Inv(g, seed, State(queue, visited, delta, bounds))
      invariant Run(g, State(queue, visited, delta, bounds)) == Run(g, Start(seed))
      decreases Measure(g, State(queue, visited, delta, bounds))
    {
      ghost var before := State(queue, visited, delta, bounds);
      StepInv(g, seed, before);
      var pos := queue[0];
      queue := queue[1..];
      if !Open(g, pos.cell) {
        continue;                                  // outside or blocked
      }
      if Dark(pos.e) {
        continue;                                  // no energy left
      }
      if pos.cell in visited {
        continue;                                  // first arrival wins
      }
      queue := queue + Successors(pos);
      bounds := Widen(bounds, pos.cell);
      delta := delta[pos.cell := pos.e];
      visited := visited + {pos.cell};
      assert State(queue, visited, delta, bounds) == Step(g, before);
    }
  }
}
