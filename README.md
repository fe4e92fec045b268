# Animation components of the Khyte marketing site, modelled in Dafny

The site is a Next.js marketing site. Almost all of it is static pages
and drawing. The logic worth stating sits in a handful of animation
components. This project models those components over mathematical
integers and reals and proves what they promise.

- **DataSweep** (`datasweep.dfy`, with the generator in `lcg.dfy`):
  - Eighteen blocks loop through four timed phases: chaos, sweep, hold and reset.
  - `seededRand` is a 32-bit linear congruential generator (LCG). It is modelled with its exact integer semantics: `& 0xffffffff` is ECMAScript ToInt32 and `>>> 0` is reduction mod 2^32.
  - `buildBlocks` draws eight generator values per block, in a fixed order. It lays the order poses out on a centred 6 x 3 grid.
  - `tick` is a class method. It advances the frame clock, makes at most one phase transition and moves the kite. It steps every block of the block array a fixed fraction towards a target that depends on the phase.
- **InteractiveGrid** (`interactive_grid.dfy`):
  - `buildGrid` lays out a centred dot lattice.
  - Each frame moves every dot's radius and alpha towards a target. The target comes from a smoothstep of the dot's distance to the mouse.
- **NodeGraph** (`node_graph.dfy`):
  - The Bezier helpers `ctrlPoint` and `bezierPoint`.
  - The fixed ten-node, twelve-edge topology.
  - The initial edges.
  - The per-frame float of the nodes and the advance of every edge's packet. The packet wraps round at the end of its edge.
- **KiteHero** (`kite_hero.dfy`):
  - The frame callback's clock.
  - The kite's float and tilt, and the tail's wave.
  - The five ember particles. Each one rises, sways, fades in, fades out and starts again.
- **LiquidGradient** (`liquid_gradient.dfy`):
  - `hexToRgb`. ECMAScript `parseInt(s, 16)` is modelled with NaN as `None`.
  - The seven palette constants.
- **RollingWord** (`rolling_word.dfy`): the cyclic word index.
- **Sitemap** (`sitemap.dfy`): the route-to-entry mapping of `sitemap()`.
- **Shared pieces** (`anim.dfy`):
  - `lerp` and the frame-delta clamp.
  - JavaScript's `%` on numbers.
  - `Math.sin` and `Math.sqrt`. Each is an arbitrary function passed as a parameter. A subset type makes sin stay within [-1, 1] and sqrt non-negative on non-negative input.

## Model

The table lists every member whose contract states something about the
source. Functions that only give a definition, such as
LiquidGradient.HexToRgb, ParseHex and Channel, KiteHero.EmberAt,
Progress, Opacity and TailAt, NodeGraph.InitEdges and PacketPoint,
DataSweep.SpecBlock, StepBlock and Fire, and RollingWord.Steps, are
listed through the lemmas about them, which cite the same source lines.

| member | source | states |
|---|---|---|
| Anim.Lerp | src/components/DataSweep.tsx:56 | lerp gives a at t = 0 and b at t = 1, and for t in [0, 1] a value between a and b |
| Anim.FrameDelta | src/components/DataSweep.tsx:285-287 | the frame delta is at most 0.05 s and 0 on the first frame. It is non-negative for non-decreasing timestamps, and is the elapsed time in seconds when under 50 ms have passed |
| Anim.JsRem | src/components/NodeGraph.tsx:192 | JavaScript `x % m` for m > 0 lies in [0, m) for x >= 0 and in (-m, 0] for x < 0. It leaves x in [0, m) unchanged and takes m off x in [m, 2m) |
| Anim.JsRemPeriodic | src/components/KiteHero.tsx:105 | for x >= 0, `(x + m) % m` equals `x % m` |
| Lcg.ToInt32 | src/components/DataSweep.tsx:64 | `& 0xffffffff` yields a signed 32-bit value congruent to its argument mod 2^32 |
| Lcg.JsStepExact | src/components/DataSweep.tsx:64 | from a signed 32-bit state, `s * 1664525 + 1013904223` stays below 2^53 in magnitude, so the double arithmetic is exact |
| Lcg.JsStepAgrees | src/components/DataSweep.tsx:64-65 | the signed update read back with `>>> 0` is the unsigned step (1664525 s + 1013904223) mod 2^32 |
| Lcg.State | src/components/DataSweep.tsx:62-65 | the unsigned state after n updates is below 2^32 |
| Lcg.Draw | src/components/DataSweep.tsx:65 | every generator output lies in [0, 1] |
| Lcg.SeededRand.constructor | src/components/DataSweep.tsx:60-62 | the closure starts with state `seed` and no values drawn |
| Lcg.SeededRand.Next | src/components/DataSweep.tsx:63-66 | the n-th call returns Draw(seed, n), so the same seed always yields the same sequence |
| DataSweep.Clamp | src/components/DataSweep.tsx:57 | clamp lies in [lo, hi] when lo <= hi. It is the identity inside the interval, and lo or hi beyond either end |
| DataSweep.Ease | src/components/DataSweep.tsx:58 | ease maps 0 to 0, 1 to 1 and [0, 1] into [0, 1] |
| DataSweep.EaseLowerHalf | src/components/DataSweep.tsx:58 | the first branch `2t^2` stays in [0, 1] for t in [0, 0.5) |
| DataSweep.EaseUpperHalf | src/components/DataSweep.tsx:58 | the second branch `-1 + (4 - 2t) t` stays in [0, 1] for t in [0.5, 1] and is 1 at t = 1 |
| DataSweep.SpecBlockAt | src/components/DataSweep.tsx:81-102 | the block built at (row, col) from the next eight generator values is block number row * 6 + col of the spec |
| DataSweep.DrawBlock | src/components/DataSweep.tsx:83-102 | the loop body consumes exactly eight generator values and builds the spec's block for its cell |
| DataSweep.BuildBlocks | src/components/DataSweep.tsx:71-106 | buildBlocks returns exactly 18 blocks in row-major order. Block k is built from generator values 8k to 8k+7 |
| DataSweep.SpecBlockOrder | src/components/DataSweep.tsx:83-84 | block k's order pose is the grid cell of k in row-major order |
| DataSweep.OrderGrid | src/components/DataSweep.tsx:75-84 | see the first note below the table |
| DataSweep.NewBlockInRange | src/components/DataSweep.tsx:87-100 | see the second note below the table |
| DataSweep.ChaosInRange | src/components/DataSweep.tsx:87-100 | every block of buildBlocks satisfies those bounds, so the localP denominator `1 - alignAt + 0.01` is at least 0.16 |
| DataSweep.Duration | src/components/DataSweep.tsx:295-308 | every phase lasts a positive time |
| DataSweep.PhaseCycle | src/components/DataSweep.tsx:295-311 | the phases go chaos, sweep, hold, reset and back to chaos. Four steps return to the start, the four phases are distinct, and a cycle lasts 7 s |
| DataSweep.Advance | src/components/DataSweep.tsx:295-311 | the four transition checks fire at most once: a phase whose time has run out moves to the next with phaseT = 0, otherwise nothing changes. Afterwards phaseT is below the phase's duration |
| DataSweep.SweepProgress | src/components/DataSweep.tsx:314 | sweepP lies in [0, 1] and is phaseT / 2.6 during the sweep |
| DataSweep.LocalProgress | src/components/DataSweep.tsx:343-344 | localP lies in [0, 1] and is 0 until sweepP passes alignAt |
| DataSweep.LerpPose | src/components/DataSweep.tsx:346-351 | a field-wise lerp gives the first pose at 0 and the second at 1, and for factors in [0, 1] a pose between them |
| DataSweep.Target | src/components/DataSweep.tsx:338-364 | see the third note below the table |
| DataSweep.OrderedFactor | src/components/DataSweep.tsx:378-389 | the colour blend factor is 0 in chaos and before alignment in sweep, 1 in hold, and in [0, 1] throughout |
| DataSweep.StepPose | src/components/DataSweep.tsx:366-372 | with speed 1 (reduced motion) a step lands exactly on the target. With a speed in [0, 1] every field ends between its old value and the target |
| DataSweep.Snap | src/components/DataSweep.tsx:275 | snapping to chaos keeps the block well formed and puts its current pose in its box |
| DataSweep.StepStaysInBox | src/components/DataSweep.tsx:338-373 | a block whose pose lies between its chaos pose and its order pose stays there after a step |
| DataSweep.KiteStep | src/components/DataSweep.tsx:295-335 | see the fourth note below the table |
| DataSweep.SnapKeepsBlocksOk | src/components/DataSweep.tsx:310 | snapping every block preserves the block invariant: well formed, in its box, with the layout's chaos and order poses |
| DataSweep.StepKeepsBlocksOk | src/components/DataSweep.tsx:338-373 | one step of every block preserves the block invariant |
| DataSweep.StepBlocks | src/components/DataSweep.tsx:307-373 | a frame moves only current poses: every block stays well formed and keeps its chaos pose, order pose and threshold. With speed in [0, 1] every current pose that was in its block's box stays there, snapped first when reset has just ended |
| DataSweep.Scene.constructor | src/components/DataSweep.tsx:254-282 | mounting starts in chaos with phaseT 0, no frame seen and the kite hidden above the canvas. The backing store is sized as resize sizes it, and every block is the spec's block snapped to chaos |
| DataSweep.CanvasSize | src/components/DataSweep.tsx:268-269 | the backing-store size is a whole number in [0, 2^31 - 1]. Below 2^31 it is the product of size and device pixel ratio rounded down; a product in [2^31, 2^32) leaves the attribute's default (300 wide, 150 high) |
| DataSweep.LogicalSizeNear | src/components/DataSweep.tsx:289-290 | below 2^31 device pixels, tick's W = canvas.width / dpr is resize's width rounded down to a whole device pixel: at most that size and less than 1 / dpr below it |
| DataSweep.Scene.Resize | src/components/DataSweep.tsx:266-278 | resize sets the canvas backing store as CanvasSize says (the truncated product of size and device pixel ratio, or the default when out of range), rebuilds the blocks for the new size, snaps them to chaos and parks the kite. Phase, clock and kite alpha do not change |
| DataSweep.Scene.Tick | src/components/DataSweep.tsx:284-373 | see the fifth note below the table |
| DataSweep.Scene.AdvanceScalars | src/components/DataSweep.tsx:285-335 | the clock-and-kite part of tick: the clock advances as Advance says and the kite as KiteStep says |
| DataSweep.Scene.AdvanceClock | src/components/DataSweep.tsx:285-311 | the frame clock and phase transitions follow Advance and keep phaseT within the phase |
| DataSweep.Scene.MoveKite | src/components/DataSweep.tsx:316-335 | the kite takes the values of KiteStep, and kiteAlpha stays in [0, 1] |
| DataSweep.BuiltAndSnapped | src/components/DataSweep.tsx:273-275 | the blocks of buildBlocks, snapped to chaos, as a fresh array satisfying the block invariant |
| DataSweep.MoveBlocks | src/components/DataSweep.tsx:307-373 | the block part of tick produces StepBlocks of the old blocks and keeps the block invariant |
| DataSweep.SnapAll | src/components/DataSweep.tsx:275 | the snap loop sets every block's current pose to its chaos pose |
| DataSweep.StepAll | src/components/DataSweep.tsx:338-373 | the lerp loop moves every block one step towards its target |
| InteractiveGrid.Ceil | src/components/InteractiveGrid.tsx:50-51 | Math.ceil(x) is the least integer at or above x |
| InteractiveGrid.Count | src/components/InteractiveGrid.tsx:50-51 | there is always at least one column and one row |
| InteractiveGrid.LatticeAt | src/components/InteractiveGrid.tsx:55-64 | the dot pushed at (row, col) is dot number row * cols + col of the lattice |
| InteractiveGrid.BuildGrid | src/components/InteractiveGrid.tsx:49-68 | buildGrid produces (ceil(w/gap)+1) * (ceil(h/gap)+1) dots in row-major order, each at rest (r = baseR = dotRadius, alpha = baseAlpha = 0.20) |
| InteractiveGrid.PushRow | src/components/InteractiveGrid.tsx:56-65 | the inner loop appends one full row of lattice dots after the rows above it |
| InteractiveGrid.Centred | src/components/InteractiveGrid.tsx:52-53 | the lattice is centred: the last column sits at w - offsetX, and offsetX lies in (-gap/2, 0] (rows likewise) |
| InteractiveGrid.LatticeSpacing | src/components/InteractiveGrid.tsx:57-64 | neighbouring dots are gap apart in both axes, and every dot starts at rest |
| InteractiveGrid.Smoothstep | src/components/InteractiveGrid.tsx:126 | smoothstep maps 0 to 0, 1 to 1 and [0, 1] into [0, 1] |
| InteractiveGrid.SmoothstepPositive | src/components/InteractiveGrid.tsx:126 | smoothstep is positive on (0, 1] |
| InteractiveGrid.Proximity | src/components/InteractiveGrid.tsx:125 | within influence `1 - dist / influence` lies in (0, 1] and is 1 at the mouse |
| InteractiveGrid.Eased | src/components/InteractiveGrid.tsx:120-126 | there is an eased value exactly when a mouse is present, motion is not reduced and the dot is within influence. It then lies in (0, 1] |
| InteractiveGrid.Grown | src/components/InteractiveGrid.tsx:127-128 | the grown radius lies in [baseR, baseR * maxScale] for maxScale >= 1. The grown alpha lies between baseAlpha and 0.88; it is 0.88 at full ease and the rest values at none |
| InteractiveGrid.DotGoal | src/components/InteractiveGrid.tsx:117-130 | without an eased value the targets are baseR and baseAlpha. Otherwise they stay within the grown ranges |
| InteractiveGrid.ScaleUp | src/components/InteractiveGrid.tsx:127 | the resting radius lies in the radius range |
| InteractiveGrid.Distance | src/components/InteractiveGrid.tsx:121-123 | the distance to the mouse is non-negative |
| InteractiveGrid.StepToward | src/components/InteractiveGrid.tsx:132-133 | only r and alpha change. Speed 1 lands on the target and speed 0 changes nothing. Speeds in [0, 1] leave each between its old value and its target |
| InteractiveGrid.ReducedRests | src/components/InteractiveGrid.tsx:114-133 | under reduced motion one frame puts a dot exactly at rest, whatever the mouse |
| InteractiveGrid.NoMouseRelaxes | src/components/InteractiveGrid.tsx:114-133 | with no mouse a dot moves 11% of the way towards its resting radius and alpha |
| InteractiveGrid.StepTowardInRange | src/components/InteractiveGrid.tsx:132-133 | a step towards a target in range keeps r in [baseR, baseR * maxScale] and alpha in [baseAlpha, 0.88] |
| InteractiveGrid.TargetRadius | src/components/InteractiveGrid.tsx:117-129 | targetR lies in [baseR, baseR * maxScale] for baseR >= 0 and maxScale >= 1 |
| InteractiveGrid.TargetAlpha | src/components/InteractiveGrid.tsx:118-128 | targetAlpha lies between baseAlpha and 0.88 |
| InteractiveGrid.StepInRange | src/components/InteractiveGrid.tsx:116-133 | a frame keeps a dot's radius and alpha in range |
| InteractiveGrid.ColourFactor | src/components/InteractiveGrid.tsx:136 | tCol is never negative, and is a number whenever the denominator is non-zero |
| InteractiveGrid.ColourFactorInUnit | src/components/InteractiveGrid.tsx:136 | for baseR > 0 and maxScale > 1 a dot in range has tCol in [0, 1] |
| InteractiveGrid.StepAllDots | src/components/InteractiveGrid.tsx:116-134 | a frame keeps the number of dots and moves only radius and alpha: every dot keeps its position and resting values |
| InteractiveGrid.FrameKeepsDotsOk | src/components/InteractiveGrid.tsx:116-145 | a frame changes only each dot's r and alpha (x, y, baseR and baseAlpha untouched) and keeps every dot in range |
| InteractiveGrid.Grid.constructor | src/components/InteractiveGrid.tsx:43-89 | mounting takes the props, has no mouse, and holds the lattice of the first resize |
| InteractiveGrid.Grid.Resize | src/components/InteractiveGrid.tsx:79-86 | resize replaces the dots with the lattice of the new size |
| InteractiveGrid.Grid.MouseMove | src/components/InteractiveGrid.tsx:92-98 | the mouse ref takes the new position |
| InteractiveGrid.Grid.MouseLeave | src/components/InteractiveGrid.tsx:99 | leaving clears the mouse ref |
| InteractiveGrid.Grid.Frame | src/components/InteractiveGrid.tsx:107-148 | one call of draw moves every dot one step, and keeps the grid's invariant (only r and alpha change, dots stay in range) |
| InteractiveGrid.StepDots | src/components/InteractiveGrid.tsx:116-145 | the dot loop produces StepAllDots of the old dots |
| InteractiveGrid.NewLattice | src/components/InteractiveGrid.tsx:49-68 | a fresh array holding buildGrid's lattice, which satisfies the grid's invariant |
| NodeGraph.CtrlPoint | src/components/NodeGraph.tsx:83-93 | the control point's offset from the midpoint is perpendicular to b - a. For coincident endpoints the fallback length 1 yields the midpoint |
| NodeGraph.Quad | src/components/NodeGraph.tsx:102-103 | one coordinate of the curve is the start at t = 0 and the end at t = 1 |
| NodeGraph.BezierPoint | src/components/NodeGraph.tsx:96-105 | bezierPoint returns a at t = 0 and b at t = 1 |
| NodeGraph.BezierReversed | src/components/NodeGraph.tsx:96-105 | the curve from a to b at t is the curve from b to a at 1 - t |
| NodeGraph.QuadReversed | src/components/NodeGraph.tsx:102-103 | one coordinate of the curve is symmetric under t -> 1 - t with the ends swapped |
| NodeGraph.QuadInHull | src/components/NodeGraph.tsx:102-103 | for t in [0, 1] a coordinate lies between the least and greatest of its three control values |
| NodeGraph.BezierInBox | src/components/NodeGraph.tsx:96-105 | for t in [0, 1] the point lies in the bounding box of a, c and b |
| NodeGraph.NodeDefsWellFormed | src/components/NodeGraph.tsx:50-64 | there are ten nodes. Each node's id is its index, its float amplitudes are non-negative and its resting point lies in the card |
| NodeGraph.EdgeDefsInRange | src/components/NodeGraph.tsx:66-76 | there are twelve edges, and every endpoint names an existing node, so the guard at line 173 never fires. No edge is a loop |
| NodeGraph.Bend | src/components/NodeGraph.tsx:176-177 | the bend passed to ctrlPoint is bendAmt or -bendAmt |
| NodeGraph.NoForwardBend | src/components/NodeGraph.tsx:176-177 | if none of the first n links passes the even test, each of them bends by -bendAmt |
| NodeGraph.NoEdgeBendsForward | src/components/NodeGraph.tsx:66-76 | no edge of the topology passes the `bendAmt % 2 === 0` test |
| NodeGraph.EveryEdgeBendsBack | src/components/NodeGraph.tsx:176-177 | every edge of the topology bends by -bendAmt < 0, so all curves bow the same way round |
| NodeGraph.InitEdgesOk | src/components/NodeGraph.tsx:130-136 | with Math.random() values in [0, 1) every initial packet has packetT in [0, 1) and speed in [0.28, 0.46) |
| NodeGraph.PlaceNode | src/components/NodeGraph.tsx:162-167 | each node lies within floatAmpX and floatAmpY of its resting point (nx W, ny H) |
| NodeGraph.PlaceNodes | src/components/NodeGraph.tsx:162-167 | every node keeps its definition and lies within ampX and ampY of its resting point (nx W, ny H) |
| NodeGraph.AdvancePacket | src/components/NodeGraph.tsx:192 | only packetT changes |
| NodeGraph.AdvancePacketOk | src/components/NodeGraph.tsx:192 | with delta in [0, 0.05] the wrapped packetT stays in [0, 1): it moves on by delta * speed and wraps at most once |
| NodeGraph.AdvancePackets | src/components/NodeGraph.tsx:170-192 | a frame moves only packet progress: every edge keeps its endpoints, speed, phase and alpha. Under reduced motion no edge changes |
| NodeGraph.PacketAtStart | src/components/NodeGraph.tsx:193 | a packet at progress 0 is drawn on its from node |
| NodeGraph.AdvanceKeepsEdgesOk | src/components/NodeGraph.tsx:170-192 | a frame keeps every edge's endpoints and keeps its packet on the edge |
| NodeGraph.Graph.constructor | src/components/NodeGraph.tsx:124-151 | the nodes start at the origin and the edges as InitEdges says. t = 0 and no frame has been seen |
| NodeGraph.Graph.Resize | src/components/NodeGraph.tsx:138-145 | the canvas takes its new logical size |
| NodeGraph.Graph.Draw | src/components/NodeGraph.tsx:153-192 | the clock advances by the frame delta unless motion is reduced. Every node floats to its position at the new clock, and every packet advances |
| NodeGraph.MoveNodes | src/components/NodeGraph.tsx:162-167 | the node loop yields PlaceNodes of the old nodes |
| NodeGraph.MovePackets | src/components/NodeGraph.tsx:170-192 | the edge loop yields AdvancePackets of the old edges |
| KiteHero.ParticlesStartAtRest | src/components/KiteHero.tsx:58-70 | every particle is well formed and its motion values start at its base point, invisible |
| KiteHero.ProgressInRange | src/components/KiteHero.tsx:104-105 | for clock T >= 0 each particle's progress lies in [0, 480) |
| KiteHero.ProgressLoops | src/components/KiteHero.tsx:104-105 | a particle's progress repeats every 480 / speed seconds |
| KiteHero.FadeIn | src/components/KiteHero.tsx:108 | fadeIn lies in [0, 1] and is 1 exactly once progress reaches 80 |
| KiteHero.FadeOut | src/components/KiteHero.tsx:109 | fadeOut is at most 1 and is 1 up to progress 360. It is positive below 480 and 0 at 480 |
| KiteHero.OpacityInRange | src/components/KiteHero.tsx:110 | within a loop the opacity lies in [0, opBase], and is exactly opBase between progress 80 and 360 |
| KiteHero.RestingOk | src/components/KiteHero.tsx:58-70 | a particle at rest satisfies the particle bounds |
| KiteHero.EmberInRange | src/components/KiteHero.tsx:104-110 | see the sixth note below the table |
| KiteHero.SwayBound | src/components/KiteHero.tsx:107 | a sine scaled by a non-negative sway stays within that sway |
| KiteHero.EmbersInRange | src/components/KiteHero.tsx:103-111 | from T >= 0 every particle of the loop satisfies the particle bounds |
| KiteHero.KiteAt | src/components/KiteHero.tsx:80-98 | the kite's float is within 13 and its tilt within 3.2. Every tail segment floats within 13 vertically and within its sway sideways |
| KiteHero.Hero.constructor | src/components/KiteHero.tsx:30-71 | in view, clock 0, the five configured particles at rest, the kite at its start |
| KiteHero.Hero.SetInView | src/components/KiteHero.tsx:39-41 | inView takes what the observer reports |
| KiteHero.Hero.Frame | src/components/KiteHero.tsx:74-113 | under reduced motion or out of view nothing changes. Otherwise the clock advances by delta / 1000 and the kite, tail and every particle take their values at the new clock, within their bounds |
| KiteHero.MoveEmbers | src/components/KiteHero.tsx:103-111 | the particle loop sets every particle to its value at clock T |
| LiquidGradient.DigitValue | src/components/LiquidGradient.tsx:145-147 | a hex digit's value is below 16 |
| LiquidGradient.DigitPrefix | src/components/LiquidGradient.tsx:145-147 | parseInt reads the longest prefix made of hex digits |
| LiquidGradient.DigitPrefixAll | src/components/LiquidGradient.tsx:145-147 | a string of hex digits is read whole |
| LiquidGradient.ParseDigits | src/components/LiquidGradient.tsx:145-147 | hex digits without a `0x` prefix parse to the number they denote |
| LiquidGradient.ParseTwoDigits | src/components/LiquidGradient.tsx:145-147 | two hex digits parse to 16 times the first plus the second, a value in [0, 255] |
| LiquidGradient.HexValueTwo | src/components/LiquidGradient.tsx:145-147 | the value of two hex digits is 16 times the first plus the second |
| LiquidGradient.ParseEmpty | src/components/LiquidGradient.tsx:145-147 | an empty slice parses to NaN |
| LiquidGradient.Slice | src/components/LiquidGradient.tsx:145-147 | `slice(i, j)` is as long as the clamped range, on text whose characters are single UTF-16 code units |
| LiquidGradient.Scaled | src/components/LiquidGradient.tsx:145-147 | a two-digit channel divided by 255 lies in [0, 1] |
| LiquidGradient.ScaledExtremes | src/components/LiquidGradient.tsx:145-147 | a channel is 0 exactly for "00" and 1 exactly for "FF" in either case |
| LiquidGradient.FirstCharIgnored | src/components/LiquidGradient.tsx:144-149 | character 0 (the '#') is never read, for text whose characters are single UTF-16 code units |
| LiquidGradient.ChannelAfterFirst | src/components/LiquidGradient.tsx:145-147 | channels read from position 1 on depend only on characters from position 1 on |
| LiquidGradient.DigitsChannel | src/components/LiquidGradient.tsx:145-147 | two hex digits at i and i + 1 give their value over 255 |
| LiquidGradient.WellFormedChannels | src/components/LiquidGradient.tsx:144-149 | for '#RRGGBB', r, g and b come from characters 1-2, 3-4 and 5-6 read as base 16, each divided by 255 |
| LiquidGradient.ShortColour | src/components/LiquidGradient.tsx:144-149 | on text whose characters are single UTF-16 code units, a string too short for the blue digits gives NaN blue, and one too short for red gives three NaNs |
| LiquidGradient.ToHex | src/components/LiquidGradient.tsx:144-149 | the model's own writer of a byte, used to invert hexToRgb (the source has no encoder): two hex digits |
| LiquidGradient.HexDigitValue | src/components/LiquidGradient.tsx:144-149 | in the model's own encoding, the digit written for d reads back as d under parseInt |
| LiquidGradient.Encode | src/components/LiquidGradient.tsx:144-149 | the model's own '#RRGGBB' encoder, the inverse of hexToRgb (the source has none): its output is a well-formed colour |
| LiquidGradient.EncodeDigits | src/components/LiquidGradient.tsx:144-149 | in the model's own encoding, each byte's two digits sit at 1-2, 3-4 and 5-6, where hexToRgb reads them |
| LiquidGradient.EncodedChannel | src/components/LiquidGradient.tsx:145-147 | the digits of a byte read back as the byte over 255 |
| LiquidGradient.EncodeRoundTrip | src/components/LiquidGradient.tsx:144-149 | hexToRgb undoes the encoding: every byte comes back divided by 255 |
| LiquidGradient.EncodedAs | src/components/LiquidGradient.tsx:159-165 | a '#' and the six digits of three bytes is their encoding under the model's own encoder, so each palette literal can be read as one |
| LiquidGradient.PaletteEncoded | src/components/LiquidGradient.tsx:159-165 | each of the seven palette constants is the encoding of its three bytes |
| LiquidGradient.PaletteInRange | src/components/LiquidGradient.tsx:212-218 | every colour uniform receives three numbers in [0, 1], none of them NaN |
| RollingWord.Next | src/components/RollingWord.tsx:31 | the step keeps the index in [0, 4). It moves to the next word and wraps from the last to the first |
| RollingWord.StepsWrap | src/components/RollingWord.tsx:31 | n steps from index i land on (i + n) mod 4 |
| RollingWord.VisitsInOrder | src/components/RollingWord.tsx:6-11 | from the first word the steps visit the words in array order, and the fourth step is back at the start |
| RollingWord.StepsPeriodic | src/components/RollingWord.tsx:31 | every four steps the index returns to where it was |
| RollingWord.Roller.constructor | src/components/RollingWord.tsx:26 | the index starts at 0 |
| RollingWord.Roller.Tick | src/components/RollingWord.tsx:28-34 | an interval tick takes the next index. Under reduced motion no interval runs and the index never changes |
| RollingWord.Roller.Render | src/components/RollingWord.tsx:50-64 | the screen-reader label and the visible word are the same entry of WORDS: the first under reduced motion, otherwise entry ticks mod 4 after ticks elapsed intervals. The span's key is the index |
| Sitemap.EntryFor | src/app/sitemap.ts:8-13 | see the seventh note below the table |
| Sitemap.PathRoundTrip | src/app/sitemap.ts:9 | the path can be read back from the url |
| Sitemap.DistinctUrls | src/app/sitemap.ts:6-9 | distinct paths give distinct urls |
| Sitemap.SiteMapShape | src/app/sitemap.ts:3-13 | the sitemap has four entries and every url is distinct. Home comes first and is the only entry that is weekly with priority 1; the rest are monthly at 0.7 |

The longer table entries, in table order:

1. **DataSweep.OrderGrid.** The order poses form a regular grid:
   - Row neighbours are 64 + 20 apart and column neighbours 36 + 16 apart.
   - The grid is centred horizontally and sits 30 below the vertical centre.
   - Every order pose is 64 x 36, with rotation 0 and alpha 0.92.
2. **DataSweep.NewBlockInRange.** With generator values in [0, 1], a block's chaos fields fall in these ranges:
   - crot in [-30, 30];
   - cw in [0.6, 1.5] BLOCK_W and ch in [0.6, 1.5] BLOCK_H;
   - cAlpha and the initial alpha in [0.35, 0.80];
   - cx in [0.08, 0.92] W and cy in [0.08, 0.90] H;
   - alignAt in [0.14 col, 0.14 col + 0.15], and so within [0, 0.85].
3. **DataSweep.Target.**
   - The target is the chaos pose in chaos, and in sweep until sweepP passes alignAt.
   - It is the order pose in hold.
   - In reset it runs from the order pose back to the chaos pose.
   - It always lies in the box between the two poses.
4. **DataSweep.KiteStep.**
   - The kite is re-centred on entering the sweep.
   - It descends between -80 and 0.22 H during the sweep, and floats within 0.4 of that range in hold, at alpha 1.
   - It exits between the same bounds in reset.
   - kiteAlpha stays in [0, 1].
5. **DataSweep.Scene.Tick.**
   - The clock is FrameDelta followed by Advance.
   - The kite follows KiteStep, with tick's W and H read back from the canvas backing store as canvas.width / dpr and canvas.height / dpr.
   - Every block is snapped on reset -> chaos and then stepped.
   - The scene invariant is kept: phaseT within its phase, blocks well formed and in their boxes, and kiteAlpha in [0, 1].
6. **KiteHero.EmberInRange.** From T >= 0 each particle:
   - stays within sway of baseX;
   - is at or above baseY and within 480 of it;
   - has opacity in [0, opBase].
7. **Sitemap.EntryFor.**
   - The url is SITE_URL followed by the path.
   - The priority is 1 exactly for the home path "" and otherwise 0.7, always in (0, 1].
   - The change frequency is weekly exactly for "" and otherwise monthly.

## Left out

- **Drawing.** All canvas, SVG and DOM output: `drawKite`, `drawBlock`, gradients, labels and the JSX trees. The model stops at the numbers handed to the drawing calls. A NodeGraph packet's drawn position is stated as the function `PacketPoint`, not as drawing.
- **LiquidGradient beyond the palette.** The GLSL shaders, WebGL set-up and uniform plumbing, and the resize and render loop. Only `hexToRgb` and the palette are modelled.
- **MistGradient.** Its sine drift is decoration and is not part of this model.
- **Browser plumbing.**
  - requestAnimationFrame scheduling, ResizeObserver, IntersectionObserver, mouse listeners and `setInterval`.
  - React hooks and the motion library.
  - Where `devicePixelRatio` comes from: it is a positive parameter of the DataSweep scene.
  - Frames, resizes, mouse events and interval ticks are method calls instead.
  - Mouse coordinates are taken as already relative to the canvas.
- **Floating point.** IEEE-754 rounding is not modelled: lerp, ease and geometry are computed over reals.
- **Math functions.**
  - `Math.sin` and `Math.sqrt` are parameters. They are known only by their range, so nothing is proved that depends on their exact values.
  - `Math.random()` in NodeGraph's edge set-up is a sequence of values in [0, 1) passed in.
- **The sitemap's `lastModified: new Date()`.** It is a clock read and is left out of `Entry`.
- **Other components and pages.** Contact forms, scheduling widgets, smooth scroll, page transitions, timelines, tickers, sections, static pages, `robots.ts` and `layout.tsx` are not part of this model.
- **NodeGraph.CtrlPoint:** the control point's distance from the midpoint (|bend| when the endpoints differ) is not stated, because `Math.sqrt` is abstract. Only perpendicularity and the coincident-endpoint case are proved.
- **DataSweep.Scene.Tick:** requires timestamps that do not decrease. requestAnimationFrame guarantees this, and it keeps phaseT non-negative. The same holds for **NodeGraph.Graph.Draw**.
- **KiteHero.Hero.Frame:** requires delta >= 0. The motion library's frame delta is never negative.
- **KiteHero.Hero.constructor:** installs the particle configurations at once. In the component they arrive in an effect after the first render, and a frame before that skips the particle loop. That early frame is not modelled.
- **Lcg.SeededRand.constructor:** requires a signed 32-bit seed. The only seed used is 42.
- **InteractiveGrid.BuildGrid:** requires gap > 0 and a non-negative size. The gap prop defaults to 34 and no caller passes another, and a bounding rectangle is never negative. With gap 0 the source's counts are Infinity for a positive size, so its loop would not end, and NaN for size 0, so it makes no dots. DataSweep.Scene.constructor and DataSweep.Scene.Resize likewise require a non-negative canvas size.
- **InteractiveGrid.ColourFactor:** `None` stands for the NaN or infinite result of a division by zero (baseR = 0 or maxScale = 1). The colour those values produce is not modelled.
- **RollingWord.Roller.Tick:** one call is one elapsed interval of 4000 ms. Time itself is not modelled.
- **LiquidGradient.Slice:** a Dafny string is a sequence of Unicode scalar values, while `slice` and `length` count UTF-16 code units. The two agree only when every character lies in the Basic Multilingual Plane, so Slice, Channel, HexToRgb and the lemmas about them (LiquidGradient.FirstCharIgnored, LiquidGradient.ShortColour) require that of their text (`BasicPlane`). A string with a character outside it, such as an emoji, is not modelled. Every colour the component passes is ASCII.
- **LiquidGradient.FirstCharIgnored:** requires the text and the replacement character to be single UTF-16 code units, as for LiquidGradient.Slice above. An astral first character would shift every later JavaScript index by one.
- **LiquidGradient.ShortColour:** requires text of single UTF-16 code units, as for LiquidGradient.Slice above.
- **LiquidGradient.ParseHex:** the white space parseInt skips is the ECMAScript StrWhiteSpaceChar set, with the Unicode space separators listed by code point.
