# Light baking on a voxel lattice

A model of the light baker in `src/index.ts` of bjs-lightning. The baker
precomputes static lighting for a Babylon.js scene:

1. It builds a collision grid and a probe grid over a box of lattice cells
   (y from -2 to 8, x and z from -12 to 12). Wall cells are flagged as
   blocked.
2. Each light runs `lightBfs`, a FIFO flood fill. Energy drops by 15 per
   axis-aligned hop and by 21 per x-z diagonal hop. The fill stops at
   blocked or outside cells and at cells with no energy left. The first
   arrival at a cell wins.
3. Each light's delta grid is added into the probe grid. Positive channels
   are added and the sum is clamped to [0, 255].
4. Every mesh vertex is coloured from the six probes around it. Per channel,
   the colour is the tone `min(1, 0.05 + 1.1 * min(1, peak / 255))` of the
   largest of zero and the six probe values.

Modules:

- `Numeric`: min/max and the JavaScript `Math.floor`, `Math.ceil` and
  `Math.round` on exact reals.
- `Grid`: cells, colour triples, the two grids, their initial contents and
  wall marking.
- `Propagation`: one `lightBfs` pass. It has three views:
  - a functional step relation `Step`/`Run` with a termination measure;
  - the invariant a pass keeps;
  - the imperative loop `LightBfs`, proved equal to the functional pass.
- `Scenarios`: worked passes. These cover the red 150 seed, the weak
  20/20/20 seed, a sealed seed, and the diagonal leak past six blocked faces.
- `Accumulation`: the per-light merge loop, clamped addition, and
  commutativity of lights.
- `Sampler`: the six-probe lookup, the peak, the tone curve and the vertex
  loop.
- `Bake`: the scene end to end.

Colour channels are Dafny `real`s: exact rationals, not IEEE doubles. One
light of the scene is scaled by 1.25, and its blue channel, 255 · 1.25 =
318.75, is not a whole number. `Math.round` is therefore modelled as
`floor(x + 0.5)`. It turns every
successor's energy into a whole number, and the attenuation invariant rests
on that.

Behaviour of the code that the model keeps as it is:

- **Diagonal leak.** A cell blocked on its six faces still leaks light
  through the four x-z diagonals, which the code pushes as well
  (`src/index.ts:123-139`). `Scenarios.FacesDoNotSeal` proves the leak.
  `Scenarios.SealedSeed` proves that closing all ten pushed neighbours does
  seal the light.
- **Merge scan bounds.** The merge scan is inclusive on y (`<=`, line 356)
  and exclusive on x and z (`<`, lines 357-358). The model keeps this
  asymmetry in `Accumulation.InScan`. A pass whose bounds end away from 0
  on x or z always has a recorded cell the merge never adds
  (`Accumulation.PassScanLoses`).
- **Unguarded sampler lookups.** The vertex lookups index the probe arrays
  without a guard (lines 382-387), so a vertex whose probes fall outside
  the grid makes the code fail. The model states that all six probes must
  be in the grid (`Sampler.Sampleable`) as a precondition.
- **Negative channels kept raw.** A recorded cell keeps its channels as they
  arrived, including negative ones: (150, 0, 0) hops to (135, -15, -15). The
  merge then skips those channels (lines 360-362).

## Model

| member | source | states |
|---|---|---|
| `Numeric.Round` | src/index.ts:98 | `Math.round`: the result is within one half of the argument, halves rounding up |
| `Numeric.Floor` | src/index.ts:382-387 | `Math.floor`: the largest integer at or below the argument |
| `Numeric.Ceil` | src/index.ts:382-387 | `Math.ceil`: the smallest integer at or above the argument |
| `Grid.InitCollisions` | src/index.ts:168-181 | the fresh collision grid's open cells are exactly the box cells; every cell off the box is outside |
| `Grid.InitProbes` | src/index.ts:168-181 | the fresh probe grid holds exactly the box cells, each at [0, 0, 0] |
| `Grid.InitGridsAgree` | src/index.ts:168-181 | the two fresh grids share their domain, and the probe grid starts within [0, 255] |
| `Grid.MarkBlocked` | src/index.ts:202 | writing flag 1 blocks every wall cell and changes no other entry |
| `Propagation.Widen` | src/index.ts:141-146 | the widened bounds hold the new cell and everything the old bounds held; each limit moves only to the new cell's coordinate |
| `Propagation.PushedCell` | src/index.ts:96-139 | the k-th push goes to a lattice neighbour, by an axial hop for the first six pushes and an x-z diagonal hop for the last four |
| `Propagation.Successors` | src/index.ts:96-139 | an expansion pushes ten entries for ten distinct cells, none of them the expanded cell |
| `Propagation.SuccessorsAreNeighbours` | src/index.ts:96-139 | every pushed entry is for a lattice neighbour: six axial neighbours or four x-z diagonals, never a y-diagonal. Its energy is lowered by 15 for an axial hop and by 21 for a diagonal hop |
| `Propagation.NeighboursArePushed` | src/index.ts:96-139 | conversely, every one of the ten neighbours is pushed, at a fixed place in the push order |
| `Propagation.HopDistanceStep` | src/index.ts:74-75 | one hop raises the hop distance from any fixed cell by at most the hop's cost (15 axial, 21 diagonal), so every chain of hops costs at least the hop distance between its ends |
| `Propagation.Step` | src/index.ts:76-149 | one loop iteration lowers the measure 10·(unvisited domain cells) + (queue length), so the loop terminates. A skipped entry changes nothing but the queue. A recorded energy is never overwritten |
| `Propagation.Expand` | src/index.ts:96-149 | an expansion keeps the rest of the queue in order and appends exactly the ten successors, marks the cell visited, records its energy, widens the bounds over it, and lowers the termination measure |
| `Propagation.Run` | src/index.ts:76-150 | the loop ends with an empty queue, and records made earlier survive to the end |
| `Propagation.RunSkipsAll` | src/index.ts:79-94 | a queue made only of entries that are skipped (outside, blocked, unlit or visited) empties without changing the records or the bounds |
| `Propagation.SkippedHasNoEffect` | src/index.ts:79-94 | an entry that is outside, blocked, unlit or already visited has no effect: the pass runs as if it had never been queued |
| `Propagation.RecordsAt` | src/index.ts:79-149 | first lit arrival wins: an open, lit, unvisited entry is recorded with exactly its own energy when every entry ahead of it for the same cell is dark, so skipped by the energy gate (line 82) |
| `Propagation.HopBudget` | src/index.ts:96-139 | a hop from an entry within budget of the seed stays within budget: it has whole energies and has lost at least its hop distance |
| `Propagation.Decay` | src/index.ts:97-138 | `Math.round(e - cost)` on each channel: a whole number above the old channel minus the cost minus one half and at most the old channel minus the cost plus one half, which pins the rounding; from whole-number energies exactly the old channel minus the cost |
| `Propagation.LightPass` | src/index.ts:352-355 | a pass from fresh state: a seed that is outside, blocked or unlit leaves an empty delta grid and zero bounds; any other seed is recorded at its own cell with its unrounded energy |
| `Propagation.PassOcclusion` | src/index.ts:79-81 | no outside or blocked cell is ever recorded, so nothing is expanded from one |
| `Propagation.PassStaysInside` | src/index.ts:79-139 | light cannot cross walls: a seed inside a region whose every push from a region cell lands in the region or on a blocked or outside cell records nothing outside that region |
| `Propagation.PassEnergyGate` | src/index.ts:82 | every recorded cell has a channel above zero |
| `Propagation.PassBounds` | src/index.ts:141-146 | the bounds hold every recorded cell, and each axis range contains 0 |
| `Propagation.PassBoundsAttained` | src/index.ts:141-146 | the bounds are tight: each limit is 0, where it started, or the coordinate of a recorded cell |
| `Propagation.PassAttenuation` | src/index.ts:73-151 | every recorded cell is the seed itself or has lost at least its hop distance from the seed on every channel |
| `Propagation.DecayBelowSeed` | src/index.ts:96-139 | each recorded channel is at most the seed's; away from the seed's cell it is at least 15 lower, less the rounding slack |
| `Propagation.ReachRadius` | src/index.ts:82 | no cell at a hop distance of at least the seed's strongest channel plus one half is reached |
| `Propagation.LightBfs` | src/index.ts:73-151 | the imperative FIFO loop computes exactly the functional pass. Its records are open, lit and inside bounds that contain the origin |
| `Scenarios.FirstExpansion` | src/index.ts:76-149 | (one unfolding of the loop) a lit seed on an open cell is expanded first, and the pass continues from its ten successors |
| `Scenarios.SuccessorRecorded` | src/index.ts:93-149 | each open, lit successor of the seed is recorded with the energy it was pushed with |
| `Scenarios.RedSeedArrivals` | src/index.ts:96-139 | a red 150 seed at the origin records 135 at (1, 0, 0) and 129 at (1, 0, -1), with green and blue at -15 and -21 |
| `Scenarios.WeakSeedReachesOneHop` | src/index.ts:73-151 | with the origin and its six face neighbours open, a 20/20/20 seed records exactly the origin (at 20) and its six face neighbours (at 5) |
| `Scenarios.WeakSeedReach` | src/index.ts:96-139 | any lit cell within budget of a 20/20/20 seed is the seed's cell or one of its six face neighbours |
| `Scenarios.SealedSeed` | src/index.ts:79-149 | a lit seed whose ten pushed neighbours are all closed records only its own cell, the one-cell case of `Propagation.PassStaysInside`; the bounds grow just enough to hold it |
| `Scenarios.FacesDoNotSeal` | src/index.ts:136-139 | with all six faces blocked, a seed with red of at least 22 still reaches an open (+x, +z) diagonal neighbour |
| `Accumulation.AddChannel` | src/index.ts:360-362 | a delivery at or below zero leaves the channel alone. On a channel in [0, 255] it is saturating addition: the exact sum below 255, and 255 exactly when the sum reaches 255 |
| `Accumulation.AddRgb` | src/index.ts:360-362 | a delivery with no positive channel leaves the probe unchanged; an in-range probe stays in range and gets no darker |
| `Accumulation.AddChannelTwice` | src/index.ts:360 | two positive deliveries give what their sum gives in one go |
| `Accumulation.AddChannelCommutes` | src/index.ts:360-362 | two deliveries of any sign into an in-range channel commute |
| `Accumulation.Merge` | src/index.ts:356-362 | the probe grid keeps its domain, and cells outside the scan or unreached keep their value. An in-range grid stays in [0, 255] and no probe gets darker |
| `Accumulation.MergeAddsDelivery` | src/index.ts:360-362 | a scanned, reached cell gets `min(255, p + v)` on each channel whose delivery `v` is positive, and keeps the rest |
| `Accumulation.MergeCommutes` | src/index.ts:351-366 | merging two lights into an in-range grid gives the same grid in either order |
| `Accumulation.OverlappingLightsClamp` | src/index.ts:360 | two lights each delivering 200 of red to an unlit cell leave it at 255 |
| `Accumulation.InScan` | src/index.ts:356-358 | the scanned cells lie inside the bounds, and of the cells inside the bounds the scan misses exactly those with x at its maximum or z at its maximum |
| `Accumulation.PassScanLoses` | src/index.ts:352-358 | a pass whose bounds end away from 0 on x or z has a recorded cell that the merge never adds |
| `Accumulation.PassScanCoverage` | src/index.ts:356-358 | (corollary of `Propagation.PassBounds` and `Accumulation.InScan`) of the cells a pass reaches, the merge takes exactly those short of the x and z maxima of the bounds |
| `Accumulation.PassCanMerge` | src/index.ts:359-362 | every cell a pass delivers to has a probe entry, so the merge never reads a missing probe |
| `Accumulation.MergePass` | src/index.ts:352-363 | one light merged in keeps the domain and leaves walls untouched. An in-range grid stays in range and gets no darker |
| `Accumulation.Accumulate` | src/index.ts:351-366 | after any list of lights the grid has the same domain and every non-open cell is unchanged |
| `Accumulation.AccumulateInRange` | src/index.ts:351-366 | over any number of lights an in-range grid stays in [0, 255] and no probe gets darker |
| `Accumulation.AccumulateSwap` | src/index.ts:351 | swapping two neighbouring lights does not change the baked grid |
| `Accumulation.AccumulateCons` | src/index.ts:351 | (the defining equation of `Accumulation.Accumulate`, unfolded once) the loop takes the lights in order, one merge per light |
| `Accumulation.BakeLights` | src/index.ts:351-366 | the imperative per-light loop, with a fresh search per light, computes the accumulated grid and keeps it in range |
| `Sampler.SampleCells` | src/index.ts:382-387 | the six lookup cells: floor then ceiling of y, of x, of z, each with the other two coordinates rounded (within one half below, at most one half above) |
| `Sampler.SampleCellsNear` | src/index.ts:382-387 | each of the six probes differs from the vertex's rounded cell by at most one step along a single axis |
| `Sampler.Peak` | src/index.ts:390-392 | the peak is at least zero and at least every sample |
| `Sampler.PeakAttained` | src/index.ts:390-392 | the peak is zero or one of the samples, so it is the least such bound |
| `Sampler.PeakOfNonPositive` | src/index.ts:390-392 | samples all at or below zero have peak zero |
| `Sampler.PeakMonotone` | src/index.ts:390-392 | raising samples never lowers the peak |
| `Sampler.Tone` | src/index.ts:394-396 | the tone lies in [0.05, 1] |
| `Sampler.ToneAmbient` | src/index.ts:394 | a peak of zero gives 0.05 |
| `Sampler.ToneMonotone` | src/index.ts:394-396 | the tone is non-decreasing in the peak |
| `Sampler.ToneSaturation` | src/index.ts:390-396 | the tone is 1 exactly for peaks of at least 4845/22. Below that it is `0.05 + 1.1 * peak / 255` |
| `Sampler.VertexColor` | src/index.ts:382-396 | every channel of a vertex colour lies in [0.05, 1] |
| `Sampler.VertexColorMonotone` | src/index.ts:382-396 | a brighter probe grid never gives a darker vertex |
| `Sampler.DarkProbesAmbient` | src/index.ts:382-396 | a vertex whose six probes hold nothing above zero gets (0.05, 0.05, 0.05) |
| `Sampler.ShadeFreshMesh` | src/index.ts:378-397 | a fresh mesh's buffer (four ones per vertex, lines 45-47) shaded from the probes: every colour slot holds its vertex's colour and lies in [0.05, 1], and every alpha slot is still 1 |
| `Sampler.ShadeVertices` | src/index.ts:378-397 | slots 4i to 4i+2 of the colour buffer get vertex i's colour; alpha slot 4i+3 is never written |
| `Bake.SceneGridsAgree` | src/index.ts:168-181 | after the walls are marked, every open cell has a probe entry |
| `Bake.SceneProbes` | src/index.ts:351-366 | the baked probe grid covers the box, stays in [0, 255], and keeps wall cells black |
| `Bake.BakeScene` | src/index.ts:168-366 | building the grids, marking the walls and running the per-light loop yields the scene's probe grid |
| `Bake.MoreLightNeverDarkens` | src/index.ts:351-396 | adding lights never darkens any vertex, channel by channel |
| `Bake.WalledVertexAmbient` | src/index.ts:382-396 | a vertex whose six probes sit in wall cells keeps the ambient (0.05, 0.05, 0.05) whatever the lights |
| `Bake.SealedLightLost` | src/index.ts:352-358 | a sealed light at x >= 0 and z >= 0 contributes nothing: its bounds end at its own cell, which the exclusive x and z scan skips |

## Left out

- The Babylon.js engine is not modelled: scene, camera, lights, materials,
  textures, mesh creation and asset loading. These are foreign library
  calls, rendering and I/O.
- The world transform `Vector3.TransformCoordinates` is not modelled, nor
  the reading and writing of vertex buffers. A vertex enters the model as a
  world-coordinate `Sampler.Point`. The colour buffer is a parameter of
  `Sampler.ShadeVertices`.
- The outer loop over meshes, and its skip of a mesh without positions or
  colours, is not modelled. `Sampler.ShadeVertices` covers one mesh.
- The concrete wall layout and light list of the demo scene are not
  modelled. `Bake.BakeScene` takes any set of wall cells and any list of
  seeds. `Grid.MarkBlocked` models the flag writes.
- IEEE double arithmetic is not modelled. Channels are exact reals, so
  `0.05 + c * 1.1` and `/ 255` carry no rounding error.
- Positions arrive as whole points, so a position buffer whose length is not
  a multiple of three is not modelled.
- `lightBfs` writes `[0, 0, 0]` into the delta grid at lines 84-87, before
  the visited check. The model leaves this write out. It only ever lands on
  a cell that is recorded in the same iteration or was recorded before, so
  the finished delta grid is the same.
- The `if (!pos) continue` guard is not modelled, because the queue never
  holds an empty entry.
- `lightBfs` takes its queue, delta grid, visited grid and bounds as
  arguments. The caller always passes fresh ones (line 352), so
  `Propagation.LightBfs` creates them itself.
- The merge is a map comprehension over the probe grid rather than three
  nested loops. Each scanned cell is visited once and cells do not
  interact, so the order of the loops does not matter.
- The code fails with a TypeError where the model has a precondition:
  - a delta cell without a probe entry, which is `Accumulation.CanMerge`,
    discharged for real passes by `Accumulation.PassCanMerge`;
  - a vertex sample outside the probe grid, which is `Sampler.Sampleable`.
- `console.time` instrumentation is not modelled.
- Propagation.PassAttenuation: the bound carries a slack of one half per
  channel, for the seed's own rounding on its first hop. The loss is a lower
  bound only: the FIFO order finds the path with the fewest hops, not the
  cheapest, so a cell can lose more than its hop distance.
- Grid.MarkBlocked: wall cells outside the box are not modelled faithfully.
  In the code, a write whose y or x row does not exist throws a TypeError,
  and only an out-of-box z adds a new entry. The model adds every wall cell
  to the domain as blocked. The scene's walls lie inside the box.
