# Get a Clew: the clew-line tracker in Dafny

Get a Clew is a client-side game mod that leaves a trail of breadcrumbs (the
"clew line") behind a player who goes underground, and shows a flame particle
at the newest breadcrumb pointing back toward the surface when the player holds
a compass. This project models the trail logic of `GetAClewClient`:

- the four fields the client keeps: the trail `clewLine`, the `underground`
  flag, `lastLitPosition` and the queued `lastTrivialPosition`;
- `trackLine`, run once per tick, which collapses the trail to the player's
  block under an open sky, gives up underground with an empty trail, cuts the
  trail just after the first breadcrumb (oldest first) that is within 16 blocks
  and in sight, or else appends the queued position;
- the world-change handler that clears the four fields;
- the gating and the choice of anchor and target in `drawLine`.

The two raycasts are oracles: `sky` maps the player's block to
`Option<Trace>` and `path` maps (player block, breadcrumb) to `Option<Trace>`,
with `None` when no world is loaded. The distance test `sqrt(d) > 16.0` is
modelled as the integer test `d > 256` on the squared distance, and
`Positions.SqrtComparison` proves the two agree.

Files:

- `positions.dfy` (module `Positions`): block positions, the squared distance and
  the pre-filter.
- `trail.dfy` (module `Trail`): the state as a value, the scan `FirstVisible`,
  the tick `Track`, event sequences `Run`, the reachable-state invariant `Inv`
  and the lemmas about them.
- `hint.dfy` (module `Emitter`): `DrawLine` and two worked scenarios.
- `client.dfy` (module `Client`): the class `ClewTracker` whose methods update
  the fields in place, with the source's loops (`removeAt(0)` until one element
  is left, `removeAt(i + 1)` until the trail ends at `i`, the indexed scan with
  early return), each proved equal to the value-level functions.

Three behaviours of the code are worth stating explicitly:

- A breadcrumb at exactly 16 blocks is traced (the code skips only when the
  distance is strictly greater than 16.0); `Trail.TrackTracesCrumbAtReach`
  states this.
- When the sky becomes blocked and the only breadcrumb is in sight, the code
  cuts (a no-op cut) and queues the player's block; the trail itself does not
  change that tick. `Emitter.CaveWalk` follows that sequence.
- The trail does not keep adjacent breadcrumbs distinct. If a block placed
  between ticks cuts the sight line from the newest breadcrumb to the one
  before it, the newest breadcrumb can be appended a second time, and the
  hint direction is then the zero vector rather than a vector of length 0.5.
  `Emitter.RepeatedCrumbGivesZeroDirection` exhibits such a run.

## Model

| member | source | states |
|---|---|---|
| `Positions.Add` | src/client/kotlin/dev/wolo/getaclew/GetAClewClient.kt:124 | adding an offset to a block position gives the block whose difference from the original is exactly that offset, so the one-breadcrumb target lies 32 blocks straight above the anchor |
| `Positions.SqrtComparison` | src/client/kotlin/dev/wolo/getaclew/GetAClewClient.kt:75 | for the non-negative root r of an integer squared distance d, r > 16 exactly when d > 256, so the integer pre-filter is the source's test and a breadcrumb at distance 16 is not skipped |
| `Trail.FirstVisible` | src/client/kotlin/dev/wolo/getaclew/GetAClewClient.kt:73-101 | the scan from index `from` upward returns the first index whose breadcrumb is within reach and whose path trace is a miss, every earlier index being out of reach, blocked or untraceable; it returns nothing exactly when no index from `from` on qualifies |
| `Trail.TrackWithoutPlayerOrWorld` | src/client/kotlin/dev/wolo/getaclew/GetAClewClient.kt:39-51 | with no player, or no answer to the sky trace, a tick leaves all four fields unchanged |
| `Trail.TrackUnderOpenSky` | src/client/kotlin/dev/wolo/getaclew/GetAClewClient.kt:52-65 | a sky trace that misses leaves the trail equal to [player block] whatever it held, `underground` false, `lastLitPosition` the player block and nothing queued |
| `Trail.TrackGivesUpOnEmptyTrail` | src/client/kotlin/dev/wolo/getaclew/GetAClewClient.kt:67-71 | under a blocked sky with an empty trail only `underground` changes (to true); the trail stays empty and the queued position is kept |
| `Trail.TrackCutsAtFirstVisible` | src/client/kotlin/dev/wolo/getaclew/GetAClewClient.kt:73-100 | if breadcrumb i is the first one in reach and in sight, the new trail is the old trail's prefix of length i + 1 and the player block is queued; `underground` becomes true and `lastLitPosition` keeps its value |
| `Trail.TrackWithNothingVisible` | src/client/kotlin/dev/wolo/getaclew/GetAClewClient.kt:102-108 | if no breadcrumb is in sight, a queued position is appended as the one new element and the queue is emptied; with nothing queued the trail is unchanged |
| `Trail.FirstVisibleIgnoresFarCrumbs` | src/client/kotlin/dev/wolo/getaclew/GetAClewClient.kt:75-78 | the scan's result does not depend on what the path oracle answers for breadcrumbs beyond reach |
| `Trail.TrackIgnoresFarCrumbs` | src/client/kotlin/dev/wolo/getaclew/GetAClewClient.kt:75-90 | two path oracles that agree within reach give the same tick, so a far breadcrumb can never cause a cut |
| `Trail.TrackTracesCrumbAtReach` | src/client/kotlin/dev/wolo/getaclew/GetAClewClient.kt:75-99 | a breadcrumb exactly 16 blocks away, at any index and in any direction, whose trace misses causes a cut at or before it: the player block is queued and the new trail is a non-empty prefix of the old one no longer than that index plus one, not an append |
| `Trail.TrackShapes` | src/client/kotlin/dev/wolo/getaclew/GetAClewClient.kt:52-108 | after a tick the trail is unchanged, the single player block (above ground), a non-empty prefix of the old trail, or the old trail plus the queued position; it never grows by more than one |
| `Trail.TrackKeepsInv` | src/client/kotlin/dev/wolo/getaclew/GetAClewClient.kt:38-109 | a tick keeps the invariant: the first breadcrumb is `lastLitPosition`, an empty trail has no queue, and above ground the trail has at most one element and no queue |
| `Trail.WorldChangeClears` | src/client/kotlin/dev/wolo/getaclew/GetAClewClient.kt:30-35 | a world change leaves an empty trail, `underground` false and both positions unset, from any state, and this state satisfies the invariant |
| `Trail.RunKeepsInv` | src/client/kotlin/dev/wolo/getaclew/GetAClewClient.kt:26-35 | any sequence of ticks and world changes keeps the invariant |
| `Trail.RunGrowsByAtMostOnePerEvent` | src/client/kotlin/dev/wolo/getaclew/GetAClewClient.kt:95-108 | after n events the trail is at most n elements longer than before |
| `Trail.SurfaceRunTracksPlayer` | src/client/kotlin/dev/wolo/getaclew/GetAClewClient.kt:52-65 | after any non-empty run of ticks under an open sky the trail is exactly the latest player block, above ground, with that block as `lastLitPosition` |
| `Emitter.DrawLine` | src/client/kotlin/dev/wolo/getaclew/GetAClewClient.kt:111-129 | a hint is emitted exactly when underground, the trail is non-empty, a world is loaded and a compass is in the main or off hand; its anchor is the last breadcrumb, its target the one before it, or 32 blocks straight up from the anchor for a one-element trail |
| `Emitter.HintFromSurfaceCrumb` | src/client/kotlin/dev/wolo/getaclew/GetAClewClient.kt:123-124 | in a reachable state with one breadcrumb, the hint sits at `lastLitPosition` and targets the block 32 above it |
| `Emitter.CaveWalk` | src/client/kotlin/dev/wolo/getaclew/GetAClewClient.kt:38-124 | three open-sky ticks at A give [A]; a blocked-sky tick at B with A in sight queues B; a tick at C with nothing in sight gives [A, B]; a further such tick with nothing queued changes nothing; the hint then runs from B toward A |
| `Emitter.RepeatedCrumbGivesZeroDirection` | src/client/kotlin/dev/wolo/getaclew/GetAClewClient.kt:90-108 | a run exists whose trail ends in the same breadcrumb twice, so the hint's target equals its anchor and its direction is zero |
| `Client.ClewTracker.constructor` | src/client/kotlin/dev/wolo/getaclew/GetAClewClient.kt:19-22 | the fields start as an empty trail, above ground, nothing recorded, which satisfies the invariant |
| `Client.ClewTracker.WorldChanged` | src/client/kotlin/dev/wolo/getaclew/GetAClewClient.kt:30-35 | the handler sets all four fields to their initial values |
| `Client.ClewTracker.TrackLine` | src/client/kotlin/dev/wolo/getaclew/GetAClewClient.kt:38-109 | the in-place update with the source's loops leaves the fields equal to `Track` of their old values, and keeps the invariant |
| `Client.ClewTracker.EndClientTick` | src/client/kotlin/dev/wolo/getaclew/GetAClewClient.kt:26-29 | the tick callback runs the tracker, then returns the hint `DrawLine` gives for the updated fields |

`Trail.Track` is the reference definition of one tick of `trackLine`
(src/client/kotlin/dev/wolo/getaclew/GetAClewClient.kt:38-109): `ClewTracker.TrackLine`
is proved to leave its fields equal to `Track` of their old values, and every
`Trail.Track*` lemma above states a property of it.

## Left out

- Raycasting geometry: the ray origins and targets (block centre offsets 0.5, the sky ray from 2.5 to 512.5 blocks above the feet), shape and fluid handling are the world's business; the two traces are oracles.
- The floating-point direction: `normalize().multiply(0.5)` and the particle's cell-centre offset; the model stops at the integer vector from anchor to target (`Emitter.Direction`).
- Particle emission, the item lookup (`Items.COMPASS`; the hands are two booleans), logging, and the event registration in `onInitializeClient` (modelled as the entry points `EndClientTick` and `WorldChanged`).
- Positions.SqrtComparison: relates the exact square root, not the double-precision one; for coordinates in the game's range the rounded root of a squared distance near 256 is exact, and far larger distances stay far above 16.
- Emitter.DrawLine: coordinates are unbounded integers, so the 32-bit wrap-around of `y + 32` at the top of the integer range is not modelled.
