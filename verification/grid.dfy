/** The lattice the baker works on: cells, colour/energy triples, the
    collision grid and the probe grid. */
module Grid {

  /** One lattice cell. The source indexes its nested arrays as [y][x][z];
      here the three coordinates are named. */
  datatype Cell = Cell(x: int, y: int, z: int)

  /** A red/green/blue triple: remaining energy in a queue entry, delivered
      energy in a delta grid, accumulated light in the probe grid. */
  datatype Rgb = Rgb(r: real, g: real, b: real)

  const Black := Rgb(0.0, 0.0, 0.0)

  /** The collision grid. A cell with no entry is outside the domain; true is
      the source's flag 1 (blocked), false its flag 0 (open). */
  type Collisions = map<Cell, bool>

  /** The probe grid: accumulated light per cell. */
  type Probes = map<Cell, Rgb>

  predicate Outside(g: Collisions, c: Cell) { c !in g }

  predicate Blocked(g: Collisions, c: Cell) { c in g && g[c] }

  /** Inside the domain and not blocked: the only cells light may enter. */
  predicate Open(g: Collisions, c: Cell) { c in g && !g[c] }

  /** All three channels at or below zero: the propagation gate. */
  predicate Dark(e: Rgb) { e.r <= 0.0 && e.g <= 0.0 && e.b <= 0.0 }

  // The working volume the scene allocates.
  const YLow := -2
  const YHigh := 8
  const XZLow := -12
  const XZHigh := 12

  predicate InBox(c: Cell) {
    YLow <= c.y <= YHigh && XZLow <= c.x <= XZHigh && XZLow <= c.z <= XZHigh
  }

  function BoxCells(): (s: set<Cell>)
    ensures forall c :: c in s <==> InBox(c)
  {
    var s := set x, y, z | XZLow <= x <= XZHigh && YLow <= y <= YHigh && XZLow <= z <= XZHigh :: Cell(x, y, z);
    assert forall c :: InBox(c) ==> c in s by {
      forall c | InBox(c) ensures c in s {
        assert c == Cell(c.x, c.y, c.z);
      }
    }
    s
  }

  /** The freshly built collision grid: every cell of the box is in the
      domain and open, every other cell is outside. */
  function InitCollisions(): (g: Collisions)
    ensures forall c :: Open(g, c) <==> InBox(c)
    ensures forall c :: Outside(g, c) <==> !InBox(c)
  {
    map c | c in BoxCells() :: false
  }

  /** The freshly built probe grid: the same box, every cell black. */
  function InitProbes(): (p: Probes)
    ensures forall c :: c in p <==> InBox(c)
    ensures forall c :: c in p ==> p[c] == Black
  {
    map c | c in BoxCells() :: Black
  }

  /** Populating the collision grid: every cell of `cells` gets flag 1; no
      other entry changes. The scene's walls lie inside the box, where every
      cell is already in the domain. */
  function MarkBlocked(g: Collisions, cells: set<Cell>): (r: Collisions)
    ensures forall c :: c in cells ==> Blocked(r, c)
    ensures forall c :: c !in cells ==> (c in r <==> c in g)
    ensures forall c :: c !in cells && c in g ==> r[c] == g[c]
  {
    map c | c in g.Keys + cells :: if c in cells then true else g[c]
  }

  predicate ChannelInRange(v: real) { 0.0 <= v <= 255.0 }

  predicate RgbInRange(e: Rgb) {
    ChannelInRange(e.r) && ChannelInRange(e.g) && ChannelInRange(e.b)
  }

  /** The clamp invariant of the probe grid. */
  predicate InRange(p: Probes) {
    forall c :: c in p ==> RgbInRange(p[c])
  }

  /** Every channel of `after` is at least the same channel of `before`. */
  predicate Brighter(before: Rgb, after: Rgb) {
    before.r <= after.r && before.g <= after.g && before.b <= after.b
  }

  /** The probe grid starts inside the clamp range and shares its domain with
      the collision grid. */
  lemma InitGridsAgree()
    ensures InRange(InitProbes())
    ensures InitCollisions().Keys == InitProbes().Keys
  {
    var g, p := InitCollisions(), InitProbes();
    assert forall c :: c in g <==> c in p by {
      forall c ensures c in g <==> c in p {
        assert c in g <==> InBox(c);
      }
    }
  }
}
