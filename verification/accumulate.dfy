/** Adding the delta grid of each light into the probe grid. */
module Accumulation {
  import opened Numeric
  import opened Grid
  import opened Propagation

  /** One channel of the merge. A positive delivery is added and the sum
      clamped to [0, 255]; a delivery at or below zero leaves the probe
      alone. On an in-range probe this is saturating addition: the exact sum
      while it stays below 255, and 255 from there on. */
  function AddChannel(p: real, v: real): (r: real)
    ensures v <= 0.0 ==> r == p
    ensures ChannelInRange(p) ==> ChannelInRange(r) && p <= r
    ensures ChannelInRange(p) && v > 0.0 ==> (p + v < 255.0 ==> r == p + v) && (p + v >= 255.0 <==> r == 255.0)
  {
    if v > 0.0 then Max(0.0, Min(255.0, p + v)) else p
  }

  /** One cell of the merge, channel by channel. A delivery with no positive
      channel changes nothing; an in-range probe stays in range and gets no
      darker. */
  function AddRgb(p: Rgb, e: Rgb): (r: Rgb)
    ensures Dark(e) ==> r == p
    ensures RgbInRange(p) ==> RgbInRange(r) && Brighter(p, r)
  {
    Rgb(AddChannel(p.r, e.r), AddChannel(p.g, e.g), AddChannel(p.b, e.b))
  }

  /** Two positive deliveries into an in-range channel give what their sum
      gives in one go: the clamp is applied once, whatever the order. */
  lemma AddChannelTwice(p: real, a: real, b: real)
    requires ChannelInRange(p) && a > 0.0 && b > 0.0
    ensures AddChannel(AddChannel(p, a), b) == AddChannel(p, a + b)
  {
  }

  /** Merging in either order gives the same channel, for deliveries of any
      sign. */
  lemma AddChannelCommutes(p: real, a: real, b: real)
    requires ChannelInRange(p)
    ensures AddChannel(AddChannel(p, a), b) == AddChannel(AddChannel(p, b), a)
  {
    if a > 0.0 && b > 0.0 {
      AddChannelTwice(p, a, b);
      AddChannelTwice(p, b, a);
    }
  }

  lemma AddRgbCommutes(p: Rgb, a: Rgb, b: Rgb)
    requires RgbInRange(p)
    ensures AddRgb(AddRgb(p, a), b) == AddRgb(AddRgb(p, b), a)
  {
    AddChannelCommutes(p.r, a.r, b.r);
    AddChannelCommutes(p.g, a.g, b.g);
    AddChannelCommutes(p.b, a.b, b.b);
  }

  /** The cells the merge loop visits: y runs over the bounds inclusively,
      x and z stop one short of their maximum. Of the cells inside the
      bounds, the scan misses exactly those on the x = max and z = max faces. */
  function InScan(b: Bounds, c: Cell): (r: bool)
    ensures r ==> InBounds(b, c)
    ensures InBounds(b, c) ==> (r <==> c.x != b.xmax && c.z != b.zmax)
  {
    b.ymin <= c.y <= b.ymax && b.xmin <= c.x < b.xmax && b.zmin <= c.z < b.zmax
  }

  /** The loop reads the probe entry of every scanned cell with a positive
      channel; the probe grid must hold those cells. */
  predicate CanMerge(probes: Probes, delta: map<Cell, Rgb>, b: Bounds) {
    forall c :: c in delta && InScan(b, c) && !Dark(delta[c]) ==> c in probes
  }

  /** Adding one light's delta grid into the probe grid over the scan range.
      The probe grid keeps its domain; a cell the scan misses, or the light
      did not reach, keeps its value; an in-range grid stays in range and no
      probe gets darker. */
  function Merge(probes: Probes, delta: map<Cell, Rgb>, b: Bounds): (r: Probes)
    requires CanMerge(probes, delta, b)
    ensures r.Keys == probes.Keys
    ensures forall c :: c in probes && (c !in delta || !InScan(b, c)) ==> r[c] == probes[c]
    ensures InRange(probes) ==> InRange(r) && forall c :: c in probes ==> Brighter(probes[c], r[c])
  {
    map c | c in probes :: if c in delta && InScan(b, c) then AddRgb(probes[c], delta[c]) else probes[c]
  }

  /** What the merge does to one scanned, reached cell: each channel is
      raised by the delivered amount, clamped at 255, when that amount is
      positive. */
  lemma MergeAddsDelivery(probes: Probes, delta: map<Cell, Rgb>, b: Bounds, c: Cell)
    requires CanMerge(probes, delta, b) && InRange(probes)
    requires c in probes && c in delta && InScan(b, c)
    ensures var p, e, q := probes[c], delta[c], Merge(probes, delta, b)[c];
      && (e.r > 0.0 ==> q.r == Min(255.0, p.r + e.r)) && (e.r <= 0.0 ==> q.r == p.r)
      && (e.g > 0.0 ==> q.g == Min(255.0, p.g + e.g)) && (e.g <= 0.0 ==> q.g == p.g)
      && (e.b > 0.0 ==> q.b == Min(255.0, p.b + e.b)) && (e.b <= 0.0 ==> q.b == p.b)
  {
    assert RgbInRange(probes[c]);
  }

  /** Two lights merged into an in-range grid give the same grid in either
      order. */
  lemma MergeCommutes(probes: Probes, d1: map<Cell, Rgb>, b1: Bounds, d2: map<Cell, Rgb>, b2: Bounds)
    requires InRange(probes) && CanMerge(probes, d1, b1) && CanMerge(probes, d2, b2)
    ensures CanMerge(Merge(probes, d1, b1), d2, b2) && CanMerge(Merge(probes, d2, b2), d1, b1)
    ensures Merge(Merge(probes, d1, b1), d2, b2) == Merge(Merge(probes, d2, b2), d1, b1)
  {
    var l, r := Merge(Merge(probes, d1, b1), d2, b2), Merge(Merge(probes, d2, b2), d1, b1);
    forall c | c in probes ensures l[c] == r[c] {
      assert RgbInRange(probes[c]);
      if c in d1 && InScan(b1, c) && c in d2 && InScan(b2, c) {
        AddRgbCommutes(probes[c], d1[c], d2[c]);
      }
    }
  }

  /** Two lights that each deliver 200 of red to a cell that had none leave
      it at 255, not 400. */
  lemma OverlappingLightsClamp(probes: Probes, d1: map<Cell, Rgb>, b1: Bounds, d2: map<Cell, Rgb>, b2: Bounds, c: Cell)
    requires InRange(probes) && CanMerge(probes, d1, b1) && CanMerge(probes, d2, b2)
    requires c in probes && probes[c].r == 0.0
    requires c in d1 && InScan(b1, c) && d1[c].r == 200.0
    requires c in d2 && InScan(b2, c) && d2[c].r == 200.0
    ensures CanMerge(Merge(probes, d1, b1), d2, b2)
    ensures Merge(Merge(probes, d1, b1), d2, b2)[c].r == 255.0
  {
    MergeCommutes(probes, d1, b1, d2, b2);
    MergeAddsDelivery(probes, d1, b1, c);
    MergeAddsDelivery(Merge(probes, d1, b1), d2, b2, c);
  }

  /** Of the cells one pass reaches, the merge takes exactly those short of
      the bounds' x and z maxima: a reached cell on the x = max or z = max
      face of the bounds is never added. */
  lemma PassScanCoverage(g: Collisions, seed: Item, c: Cell)
    requires c in LightPass(g, seed).delta
    ensures InScan(LightPass(g, seed).bounds, c) <==>
      c.x < LightPass(g, seed).bounds.xmax && c.z < LightPass(g, seed).bounds.zmax
  {
    PassBounds(g, seed);
  }

  /** A pass whose bounds end away from 0 on x, or on z, has a recorded cell
      the merge never adds: the one that set that limit. */
  lemma PassScanLoses(g: Collisions, seed: Item)
    ensures var p := LightPass(g, seed);
      p.bounds.xmax != 0 || p.bounds.zmax != 0 ==> exists c :: c in p.delta && !InScan(p.bounds, c)
  {
    var p := LightPass(g, seed);
    PassBoundsAttained(g, seed);
    if p.bounds.xmax != 0 {
      var c :| c in p.delta && c.x == p.bounds.xmax;
      assert !InScan(p.bounds, c);
    } else if p.bounds.zmax != 0 {
      var c :| c in p.delta && c.z == p.bounds.zmax;
      assert !InScan(p.bounds, c);
    }
  }

  /** A pass can be merged into any probe grid that covers the open cells. */
  lemma PassCanMerge(g: Collisions, probes: Probes, seed: Item)
    requires forall c :: Open(g, c) ==> c in probes
    ensures CanMerge(probes, LightPass(g, seed).delta, LightPass(g, seed).bounds)
  {
    PassOcclusion(g, seed);
  }

  /** One turn of the per-light loop: the light is propagated on its own and
      its delta grid merged in. */
  function MergePass(g: Collisions, probes: Probes, seed: Item): (r: Probes)
    requires forall c :: Open(g, c) ==> c in probes
    ensures r.Keys == probes.Keys
    ensures forall c :: c in probes && !Open(g, c) ==> r[c] == probes[c]
    ensures InRange(probes) ==> InRange(r) && forall c :: c in probes ==> Brighter(probes[c], r[c])
  {
    var p := LightPass(g, seed);
    PassCanMerge(g, probes, seed);
    PassOcclusion(g, seed);
    Merge(probes, p.delta, p.bounds)
  }

  /** The per-light loop, lights taken in order. The domain is kept and a
      cell that is not open is never touched, so walls stay as they were. */
  function Accumulate(g: Collisions, probes: Probes, lights: seq<Item>): (r: Probes)
    requires forall c :: Open(g, c) ==> c in probes
    ensures r.Keys == probes.Keys
    ensures forall c :: c in probes && !Open(g, c) ==> r[c] == probes[c]
    decreases |lights|
  {
    if lights == [] then probes
    else Accumulate(g, MergePass(g, probes, lights[0]), lights[1..])
  }

  /** Over any number of lights an in-range grid stays in range and no probe
      gets darker. */
  lemma {:induction false} AccumulateInRange(g: Collisions, probes: Probes, lights: seq<Item>)
    requires forall c :: Open(g, c) ==> c in probes
    requires InRange(probes)
    ensures InRange(Accumulate(g, probes, lights))
    ensures forall c :: c in probes ==> Brighter(probes[c], Accumulate(g, probes, lights)[c])
    decreases |lights|
  {
    if lights != [] {
      var m := MergePass(g, probes, lights[0]);
      AccumulateInRange(g, m, lights[1..]);
      var r := Accumulate(g, m, lights[1..]);
      assert Accumulate(g, probes, lights) == r;
      forall c | c in probes ensures Brighter(probes[c], r[c]) {
        assert Brighter(probes[c], m[c]) && Brighter(m[c], r[c]);
      }
    }
  }

  /** Swapping two neighbouring lights does not change the baked grid. */
  lemma AccumulateSwap(g: Collisions, probes: Probes, a: Item, b: Item, rest: seq<Item>)
    requires forall c :: Open(g, c) ==> c in probes
    requires InRange(probes)
    ensures Accumulate(g, probes, [a, b] + rest) == Accumulate(g, probes, [b, a] + rest)
  {
    var pa, pb := LightPass(g, a), LightPass(g, b);
    PassCanMerge(g, probes, a);
    PassCanMerge(g, probes, b);
    MergeCommutes(probes, pa.delta, pa.bounds, pb.delta, pb.bounds);
    assert MergePass(g, MergePass(g, probes, a), b) == MergePass(g, MergePass(g, probes, b), a);
    AccumulateTwo(g, probes, a, b, rest);
    AccumulateTwo(g, probes, b, a, rest);
  }

  /** Unfolding the loop twice. */
  lemma AccumulateTwo(g: Collisions, probes: Probes, a: Item, b: Item, rest: seq<Item>)
    requires forall c :: Open(g, c) ==> c in probes
    ensures Accumulate(g, probes, [a, b] + rest) == Accumulate(g, MergePass(g, MergePass(g, probes, a), b), rest)
  {
    assert [a, b] + rest == [a] + ([b] + rest);
    AccumulateCons(g, probes, a, [b] + rest);
    AccumulateCons(g, MergePass(g, probes, a), b, rest);
  }

  /** Unfolding the loop once. */
  lemma AccumulateCons(g: Collisions, probes: Probes, a: Item, rest: seq<Item>)
    requires forall c :: Open(g, c) ==> c in probes
    ensures Accumulate(g, probes, [a] + rest) == Accumulate(g, MergePass(g, probes, a), rest)
  {
    assert ([a] + rest)[1..] == rest;
  }

  /** The per-light loop as the scene runs it: each light goes through the
      search and its result through the merge. */
  method BakeLights(g: Collisions, probes: Probes, lights: seq<Item>) returns (r: Probes)
    requires forall c :: Open(g, c) ==> c in probes
    ensures r == Accumulate(g, probes, lights)
    ensures r.Keys == probes.Keys
    ensures InRange(probes) ==> InRange(r)
  {
    if InRange(probes) {
      AccumulateInRange(g, probes, lights);
    }
    r := probes;
    var i := 0;
    while i < |lights|
      invariant 0 <= i <= |lights|
      invariant r.Keys == probes.Keys
      invariant Accumulate(g, r, lights[i..]) == Accumulate(g, probes, lights)
    {
      ghost var before := r;
      var delta, bounds := LightBfs(g, lights[i]);
      PassCanMerge(g, r, lights[i]);
      assert lights[i..][1..] == lights[i + 1..];
      r := Merge(r, delta, bounds);
      assert r == MergePass(g, before, lights[i]);
      i := i + 1;
    }
  }
}
