# Boids simulator: a verified model of its core

The repository simulates flocks of boids in a wrap-around 3D box and renders them
in real time. Its C++ program has four simulation engines: naive CPU, octree CPU,
naive GPU and grid GPU. Its web demo is a 2D sketch in TypeScript in which agents
with a DNA flock, search for food and change mood. This project models the logic
underneath both in Dafny and proves what the code promises about it.

Modules, leaves first:

- `Geometry` (geometry.dfy): the 3D vectors and the helpers of `src/utils.hpp`:
  `len2`, `dist2` and `limit`, with `glm::normalize` as `v · inversesqrt(v·v)`.
- `Boids` (boids.dfy): the `Boid` record and `BoidContainer`, with its
  100-slot rolling statistic of the minimum and maximum neighbour count.
- `Genetics` (dna.dfy): `DNA::set` of the C++ program, five draws shaped into traits.
- `Settings` (environment.dfy): the configuration store. It keeps three typed maps
  with zero defaults, and writes override in the order defaults, file, command line.
  It also covers the directory scan of `argv[0]` and the derived grid resolution.
- `Input` (interface.dfy): the keyboard, mouse and wheel state machine and the pause toggle.
- `TreeNodes` (octree_nodes.dfy) and `Tree` (octree.dfy): the octree. Nodes live
  in one growable pool addressed by index, with `reset`, `insert`, `newTree`,
  `findRange` and `getBoidsInRange`. The range search is sound and complete
  against the brute-force filter of the naive engine.
- `Flocking` (flocking.dfy): the accumulator of `flockInit` and `flockIndividual`,
  and the four steering rules of `flockApply`.
- `Engine` (engine.dfy): `SimulationEngine`: boid spawning, `updateBoid`'s
  integration step with its toroidal wrap, and the per-boid flocking methods. A
  frame is defined as a value, and lemmas connect the in-place passes to it.
- `Engines` (engines.dfy): the four engines' constructors, `update()` and
  `flock()`, including the `run` guard and the order reset, move and insert, flock.
- `Gpu` (gpu.dfy): the host side of the GPU engines. It covers the work-group
  count, the bitonic-sort dispatch schedule, the index buffer of the boid
  geometry and the tree upload and draw counts. Dispatches are recorded in a log.
- `Plane` (plane.dfy), `Genome` (genome.dfy), `Pantry` (food.dfy), `Quadrants`
  (quadtree.dfy) and `Agents` (agent.dfy): the web demo. These are 2D vectors,
  the DNA's gene slots and `maxZone`, food items, the quadtree, and an agent's
  `prepare`, `flock`, `edges`, `update` and `eat`.

Several operations are not exact on reals: square roots, angles, rotations, the
view matrix, `inversesqrt`, IEEE division by zero and `atoi`. Each is a function
parameter of the model. Where a proof needs one of them, a predicate states the
law it relies on, such as `SquareRoot` or `InverseSqrt`. Random draws and
read-backs from the GPU are parameters too. Coordinates are `real`.

Each piece of state that the source updates in place is a class with those
fields, or an `array` where the source keeps a fixed buffer. Every method states
its new state in terms of a specification function of the old state. Lemmas then
prove the source's promises about those functions.

## Model

| member | source | states |
|---|---|---|
| Boids.MinCount | src/engine.cpp:116 | `min(viewCount, boidMinCount)` on a count that may be INFINITY: the result is finite, at most the new count and at most the previous finite minimum, and is one of the two |
| Boids.WindowSum | src/boid.hpp:76-88 | the HISTORY slots, written round-robin from slot 0, always sum to the sum of the last HISTORY inputs (all inputs while fewer were written), which is what the partial sums track |
| Boids.RecentStep | src/boid.hpp:80-81 | one more input changes the recent sum by adding it and, once HISTORY inputs are present, dropping the one HISTORY steps back |
| Boids.SumUpdate | src/boid.hpp:79-81 | overwriting one slot changes the sum of the slots by the difference (the O(1) update of the partial sums) |
| Boids.BoidContainer.constructor | src/boid.hpp:48-56 | every slot of mins and maxs is zero, both partial sums and the slot index are zero, and the statistic invariant holds for an empty history |
| Boids.BoidContainer.UpdateStats | src/boid.hpp:76-88 | the slot at statIdx takes the new values, statIdx advances modulo HISTORY, each partial sum loses the overwritten value and gains the new one, the invariant is kept, and the published averages are the recent sums over HISTORY |
| Boids.BoidContainer.Store | src/boid.hpp:78-87 | the slot writes, the partial-sum updates and the index advance of `updateStats`, keeping the invariant that the partial sums equal the sums of the slots |
| Boids.BoidContainer.Publish | src/boid.hpp:83-84 | each average is its partial sum over HISTORY, which equals the mean of the last HISTORY inputs with zeros for inputs not yet written |
| Geometry.Len2 | src/utils.hpp:66-69 | the squared length is never negative and is zero for the zero vector |
| Geometry.Len2Positive | src/utils.hpp:66-69 | every other vector has a positive squared length |
| Geometry.Dist2 | src/utils.hpp:58-64 | the squared distance is the squared length of the difference, never negative, and zero between equal points |
| Geometry.Dist2Symmetric | src/utils.hpp:58-64 | the squared distance does not depend on the order of its arguments |
| Geometry.Normalize | src/utils.hpp:53 | `glm::normalize` gives a vector parallel to its argument (zero cross product) and, for a non-zero argument and a lawful inverse square root, of length one |
| Geometry.Limit | src/utils.hpp:51-56 | a vector within the limit is returned unchanged; a longer one comes back with squared length exactly limit², parallel to it and pointing the same way; the result never exceeds the limit |
| Genetics.FromDraws | src/dna.hpp:8-16 | for draws in [0, 1) force lies in [0.8, 1.2), speed in [1.5, 2.5), moodiness in [0.001, 0.101), mental endurance in [1, 3) and mental health in [-10, 10); the mood limit is always 10 |
| Genetics.DrawsRecovered | src/dna.hpp:10-14 | each trait is an invertible map of its own draw: the five draws can be read back from the traits |
| Genetics.OnlyFiveDraws | src/dna.hpp:8-16 | `set` consumes exactly five draws; later draws do not change the traits |
| Genetics.DNA.Set | src/dna.hpp:8-16 | the traits are the ones made from the first five draws, in source order, and the stream after them is left |
| Input.Touch | src/interface.cpp:16 | looking a key up in the keymap leaves an entry for it holding its old state, released when it was never seen |
| Input.TouchKeeps | src/interface.cpp:16 | a lookup adds only its own key and changes no key's state |
| Input.KeyDown | src/interface.cpp:11-20 | the key is down afterwards, every other key keeps its state, the space entry exists, and `run` flips exactly when the key is space or space is held; nothing else changes |
| Input.KeyUp | src/interface.cpp:22-26 | the key is up afterwards, every other key keeps its state, nothing else changes |
| Input.MouseButton | src/interface.cpp:28-40 | the button state is set, the anchor moves to the pointer and both deltas are zero; keys, wheel and `run` stay |
| Input.PointerMoved | src/interface.cpp:42-46 | anchor plus delta is the pointer position; only the deltas change |
| Input.WheelTurned | src/interface.cpp:48-51 | the wheel delta grows by ten times the turn; nothing else changes |
| Input.CameraCalls | src/interface.cpp:58-86 | the zoom-in call comes first exactly when q is held, the reset is made exactly when t is held, the rotation exactly when a delta is pending, the wheel zoom comes last exactly when a wheel delta is pending, and at most five calls are made |
| Input.Consume | src/interface.cpp:74-85 | after a frame update the anchor has absorbed the drag, every delta is zero, the keymap is the looked-up one, and the mouse and `run` stay |
| Input.ReadKeymapKeeps | src/interface.cpp:59-72 | the lookups of q, e and t add their entries but press and release nothing |
| Input.HeldSpaceToggles | src/interface.cpp:16-19 | while space is held, every key press flips `run` |
| Input.ReleasedSpaceKeepsRun | src/interface.cpp:16-26 | after space is released, pressing another key leaves `run` alone |
| Input.DragThenConsume | src/interface.cpp:42-79 | a drag to a point followed by a frame update leaves the anchor at that point with no delta pending |
| Input.WheelTurnsAccumulate | src/interface.cpp:48-85 | two wheel turns before a frame update reach the camera as one zoom of their sum |
| Input.IdleFrame | src/interface.cpp:58-86 | a frame with no key held and nothing pending makes no camera call and changes nothing but the keymap |
| Input.Interface.constructor | src/interface.cpp:7-9 | the keymap is empty, the mouse is up, the anchor and every delta are zero |
| Input.Interface.Down | src/interface.cpp:11-20 | the state becomes `KeyDown` of the old state |
| Input.Interface.Up | src/interface.cpp:22-26 | the state becomes `KeyUp` of the old state |
| Input.Interface.MouseDown | src/interface.cpp:28-33 | the state becomes a pressed `MouseButton` at the pointer |
| Input.Interface.MouseUp | src/interface.cpp:35-40 | the state becomes a released `MouseButton` at the pointer |
| Input.Interface.MouseMove | src/interface.cpp:42-46 | the state becomes `PointerMoved` of the old state |
| Input.Interface.MouseWheel | src/interface.cpp:48-51 | the state becomes `WheelTurned` of the old state |
| Input.Interface.UpdateContext | src/interface.cpp:58-86 | the camera calls are `CameraCalls` of the old state and the new state is `Consume` of it |
| Input.Interface.ReadKeys | src/interface.cpp:59-72 | the key lookups and their camera calls, in the order q, e, t |
| Plane.SqrLen | docs/src/src/sketch/math.ts:7 | the squared length is never negative |
| Plane.SqrLenZero | docs/src/src/sketch/math.ts:7-10 | the squared length is zero exactly for the zero vector |
| Plane.Dist | docs-src/src/agent.ts:121 | under the law of the square root the distance is non-negative and its square is the squared length of the difference |
| Plane.Divide2 | docs-src/src/agent.ts:173 | dividing by a non-zero number and scaling back gives the vector again |
| Plane.SqrLenScale | docs/src/src/sketch/math.ts:11 | scaling by k multiplies the squared length by k² |
| Plane.Normalize2 | docs/src/src/sketch/math.ts:10 | a non-zero vector becomes one of length 1; the zero vector stays zero |
| Plane.NormalizeUnit | docs/src/src/sketch/math.ts:10 | a vector of positive squared length is not zero, and dividing it by its root gives length 1 |
| Plane.UnitAfterRoot | docs/src/src/sketch/math.ts:10 | scaling by the inverse of the square root of the squared length gives length 1 |
| Plane.SetMag | docs/src/src/sketch/math.ts:15-18 | a non-zero vector is given the requested length |
| Plane.Limit2 | docs/src/src/sketch/math.ts:6-13 | a vector within the limit is unchanged, and the result never exceeds the limit |
| Genome.Slot | docs/src/src/sketch/dna.ts:48-102 | each getter reads a slot of the fourteen; the first six slots are the general traits, the rest the radii |
| Genome.SlotsDistinct | docs/src/src/sketch/dna.ts:48-102 | no two getters read the same slot |
| Genome.MaxBelowBounds | docs/src/src/sketch/dna.ts:104-110 | the running maximum after n steps is at least 0 and each scanned slot below n, and is 0 or one of them |
| Genome.ZoneMaxBounds | docs/src/src/sketch/dna.ts:104-110 | `maxZone` is the larger of 0 and the largest radius from the alignment radius to the sensitive radius, is attained, and does not depend on the food radius |
| Genome.FoodZoneIgnored | docs/src/src/sketch/dna.ts:106 | changing the food radius leaves each step of the running maximum unchanged |
| Genome.Initial | docs/src/src/sketch/dna.ts:41-45 | a new sequence has fourteen entries |
| Genome.InitialZones | docs/src/src/sketch/dna.ts:41-45 | whatever the draws, a new DNA has mood limit 10 and `maxZone` 40 |
| Genome.DNA.constructor | docs/src/src/sketch/dna.ts:40-46 | the sequence is built from the five draws in order and satisfies the DNA invariant |
| Genome.DNA.MaxZone | docs/src/src/sketch/dna.ts:104-110 | the loop's result is `ZoneMax` of the sequence: at least 0 and every scanned radius |
| Pantry.Food.constructor | docs-src/src/food.ts:5-12 | a new item sits at the drawn spot, is worth 10 and is available |
| Pantry.Food.Refresh | docs-src/src/food.ts:26-28 | the item is available, so not eaten; nothing else changes |
| Pantry.Food.Eat | docs-src/src/food.ts:35-39 | the item is eaten, moved to the drawn spot, and the returned value is its value |
| Quadrants.Contains | docs/src/src/sketch/quadtree.ts:17-27 | a point is contained exactly when it lies in the closed rectangle, edges included |
| Quadrants.Intersects | docs/src/src/sketch/quadtree.ts:29-38 | two rectangles intersect exactly when their open interiors overlap |
| Quadrants.IntersectsSymmetric | docs/src/src/sketch/quadtree.ts:29-38 | the intersection test does not depend on the order of the rectangles |
| Quadrants.InteriorPointIntersects | docs/src/src/sketch/quadtree.ts:29-38 | a point strictly inside both rectangles makes them intersect |
| Quadrants.Quarter | docs/src/src/sketch/quadtree.ts:88-103 | each quarter is half as wide and half as high as its rectangle |
| Quadrants.QuartersCover | docs/src/src/sketch/quadtree.ts:80-83 | every point of a rectangle lies in one of its four quarters, so an accepted point always finds a child |
| Quadrants.QuarterInside | docs/src/src/sketch/quadtree.ts:88-103 | a point of a quarter lies in the rectangle |
| Quadrants.WithinSound | docs/src/src/sketch/quadtree.ts:113-117 | the loop over the node's points keeps only points in range, and only points of the node, each at most as often as stored |
| Quadrants.WithinComplete | docs/src/src/sketch/quadtree.ts:113-117 | every point of the node inside the range is kept |
| Quadrants.Empty | docs/src/src/sketch/quadtree.ts:46-58 | a new node has no points, a count of 0 and no children |
| Quadrants.Init | docs/src/src/sketch/quadtree.ts:60-63 | `init` sets the boundary and its area and nothing else |
| Quadrants.Leaf | docs/src/src/sketch/quadtree.ts:94-101 | a child made by `subdivide` has the given boundary, no points and no children |
| Quadrants.Subdivide | docs/src/src/sketch/quadtree.ts:88-103 | the node becomes divided, its four children are empty leaves on the quarters nw, ne, sw, se, and nothing else changes |
| Quadrants.Offer | docs/src/src/sketch/quadtree.ts:80-83 | the children stay divided |
| Quadrants.Dispose | docs/src/src/sketch/quadtree.ts:131-140 | the node holds no point afterwards, keeps its count and boundary, and satisfies the tree invariants |
| Quadrants.Reset | docs/src/src/sketch/quadtree.ts:142-145 | the node becomes an empty leaf on its boundary with count 0, keeping its area |
| Quadrants.InsertAccepts | docs/src/src/sketch/quadtree.ts:65-86 | `insert` answers true exactly when the boundary contains the point; a refused point leaves the node unchanged; an accepted one adds one to the count; the boundary never changes |
| Quadrants.InsertKeeps | docs/src/src/sketch/quadtree.ts:70-85 | a node with room appends the point to its own points; a full node keeps its points and is divided afterwards; a divided node stays divided |
| Quadrants.InsertKeepsChildren | docs/src/src/sketch/quadtree.ts:80-83 | a full divided node hands the point to the first child whose boundary contains it, and the other three children are untouched |
| Quadrants.InsertBounded | docs/src/src/sketch/quadtree.ts:65-86 | every node keeps at most four points of its own after an insert |
| Quadrants.OfferBounded | docs/src/src/sketch/quadtree.ts:80-83 | handing a point to the children keeps each of them within capacity |
| Quadrants.InsertStores | docs/src/src/sketch/quadtree.ts:65-86 | in a tree whose points lie in their nodes an insert keeps that invariant; an accepted point is added to the tree's contents exactly once and a refused one changes nothing |
| Quadrants.SplitFitted | docs/src/src/sketch/quadtree.ts:76-78 | dividing a full node keeps its boundary, points and contents, and gives it four fitted children on its quarters |
| Quadrants.OfferStores | docs/src/src/sketch/quadtree.ts:80-83 | when a quarter contains the point, the children together gain it exactly once, stay on their quarters and stay fitted |
| Quadrants.FoundSound | docs/src/src/sketch/quadtree.ts:105-129 | a query returns only stored points inside the range, each at most as often as stored |
| Quadrants.QueryPoints | docs/src/src/sketch/quadtree.ts:113-117 | the loop appends the node's points in range, in order, after `found` |
| Quadrants.Query | docs/src/src/sketch/quadtree.ts:105-129 | `query` returns `found` followed by what the subtree holds in range, in the order node, nw, ne, sw, se |
| Quadrants.Touches | docs/src/src/sketch/quadtree.ts:29-38 | two closed rectangles that share a point touch |
| Quadrants.QueryClosed | docs/src/src/sketch/quadtree.ts:105-129 | the query with the closed overlap test returns `found` followed by the closed-test result of the subtree |
| Quadrants.StoredInside | docs/src/src/sketch/quadtree.ts:65-86 | in a fitted tree every stored point lies in the root's boundary |
| Quadrants.FoundClosedComplete | docs/src/src/sketch/quadtree.ts:105-129 | with the closed overlap test a query finds every stored point its range contains |
| Quadrants.FoundInteriorComplete | docs/src/src/sketch/quadtree.ts:105-129 | the query as written finds every stored point strictly inside its range: only points on the range's edges can be missed |
| Quadrants.QueryMissesEdgePoint | docs/src/src/sketch/quadtree.ts:29-38 | a point stored on the right edge of a node is missed by a range that starts at that edge, though the range contains it |
| Settings.HasIntTail | src/environment.cpp:134-137 | a run of records names an integer setting exactly when its first record or the rest does |
| Settings.StoreAllInt | src/environment.cpp:134-137 | after a run of `addRecord` calls every integer lookup gives the last integer record of its name, or the earlier value when there is none |
| Settings.LastIntPrior | src/environment.cpp:158-164 | without an integer record of its name, a lookup keeps the earlier value; with one, the earlier value plays no part |
| Settings.HasFloatTail | src/environment.cpp:140-143 | a run of records names a float setting exactly when its first record or the rest does |
| Settings.LastFloatPrior | src/environment.cpp:150-156 | without a float record of its name, a lookup keeps the earlier value; with one, the earlier value plays no part |
| Settings.StoreAllFloat | src/environment.cpp:140-143 | after a run of `addRecord` calls every float lookup gives the last float record of its name, or the earlier value |
| Settings.HasVecTail | src/environment.cpp:145-148 | a run of records names a vector setting exactly when its first record or the rest does |
| Settings.LastVecPrior | src/environment.cpp:166-172 | without a vector record of its name, a lookup keeps the earlier value; with one, the earlier value plays no part |
| Settings.StoreAllVec | src/environment.cpp:145-148 | after a run of `addRecord` calls every vector lookup gives the last vector record of its name, or the earlier value |
| Settings.GridComponent | src/environment.cpp:111-113 | each grid component is at least 1, and is the whole part of space over zone when that ratio is at least 1 |
| Settings.DefaultsHold | src/environment.cpp:12-26 | with no settings file and no arguments every documented default is what the lookups return |
| Settings.DefaultCountOverflows | src/environment.cpp:14 | with neither a file entry nor `argv[2]`, the boid-count exponent is 1024, outside the 0 to 30 that `1 << boidCount` allows |
| Settings.IntendedCountFits | src/environment.cpp:98 | with the default exponent set to 10, the same configuration gives an exponent of 10, which every engine constructor accepts |
| Settings.IntendedAgrees | src/environment.cpp:12-26 | the corrected defaults change only the default exponent: every other setting, and the exponent whenever the file or `argv[2]` sets it, is unchanged |
| Settings.CommandLineWins | src/environment.cpp:96-108 | `argv[1]` sets the application type whatever the file says; `argv[2]` sets the boid-count exponent, which is at least 1, and is taken as given when it is at least 1 |
| Settings.FileOverridesDefaults | src/environment.cpp:50-93 | a float setting in the file overrides the built-in default when the command line does not name it |
| Settings.GridPositive | src/environment.cpp:110-115 | every component of the derived grid is at least 1 |
| Settings.DirLength | src/environment.cpp:28-37 | the directory part ends just after a separator or is empty, and no separator follows it |
| Settings.Environment.AddInt | src/environment.cpp:134-137 | the integer map gains or overwrites the entry; the other maps stay |
| Settings.Environment.AddFloat | src/environment.cpp:140-143 | the float map gains or overwrites the entry; the other maps stay |
| Settings.Environment.AddVec | src/environment.cpp:145-148 | the vector map gains or overwrites the entry; the other maps stay |
| Settings.Environment.Add | src/environment.cpp:63-80 | one parsed record is stored in the map of its type |
| Settings.Environment.AddAll | src/environment.cpp:50-93 | the parsed records are stored one after the other, in file order |
| Settings.Environment.ScanPath | src/environment.cpp:28-39 | the path is the prefix of `argv[0]` up to and including its last separator |
| Settings.Environment.AddDefaults | src/environment.cpp:12-26 | the maps hold exactly the built-in defaults |
| Settings.Environment.AddGrid | src/environment.cpp:110-115 | the grid derived from the space and twice the flocking zone is stored |
| Settings.Environment.constructor | src/environment.cpp:10-116 | the maps are the defaults, then the file's records, then the command line, then the grid, and the path is the directory of the executable |
| Agents.Prepared | docs-src/src/agent.ts:95-112 | `prepare` zeroes the four force vectors, the view and mood sums, and keeps `moodNormal` |
| Agents.MeetCounts | docs-src/src/agent.ts:120-169 | one pass over another agent adds one to the align, cohesion, separation, mood and `uncom` counters exactly when that agent lies inside the counter's radius; `uncom + happy` grows by one exactly when it lies inside the larger of the close and happy radii; `view` grows by at most one; the mood sum gains that agent's mood inside the sensitive radius |
| Agents.GatherCounts | docs-src/src/agent.ts:120-169 | after the loop each counter is its start plus the number of other agents inside its radius; `uncom + happy` grows by the number inside the larger of the close and happy radii; `view` grows by at most the number inside the view radius; the mood sum grows by the moods inside the sensitive radius |
| Agents.SelfIgnored | docs-src/src/agent.ts:123-125 | the agent's own entry in the list leaves the tallies as if it were not in the list |
| Agents.GatherPrefix | docs-src/src/agent.ts:120 | the tallies of the first n agents depend on those n entries only |
| Agents.AlignPush | docs-src/src/agent.ts:172-178 | the alignment push never exceeds the force, under the law of the square root |
| Agents.CohesPush | docs-src/src/agent.ts:181-188 | the cohesion push never exceeds the force, under the law of the square root |
| Agents.SeparPush | docs-src/src/agent.ts:191-198 | the separation push never exceeds the bound it is limited by, which the steering sets to `moodNormal` times the force |
| Agents.ViewPush | docs-src/src/agent.ts:201-207 | the view push never exceeds the force |
| Agents.FoodPush | docs-src/src/agent.ts:244-249 | the push towards food never exceeds a tenth of the force |
| Agents.MoodNormalRange | docs-src/src/agent.ts:195 | for a mood within ±moodLimit the separation factor lies between 0.75 and 1.25; it is 0.75 at the best mood |
| Agents.SteerAccumulates | docs-src/src/agent.ts:171-214 | the acceleration gains exactly the push of each non-empty tally; with no neighbour at all it keeps its value, and the swing moves by `moodiness * mentalHealth` only |
| Agents.Choose | docs-src/src/agent.ts:225-237 | a chosen target is an index into the food list |
| Agents.ChooseNearest | docs-src/src/agent.ts:225-239 | no target exactly when no item is uneaten and inside the food radius, and exactly when `minDist` stays -1; otherwise the target is such an item, `minDist` is its distance, no such item is nearer, and every such item before it is strictly farther |
| Agents.Wrap | docs-src/src/agent.ts:66-76 | a wrapped coordinate lies within the canvas, and one already within it is unchanged |
| Agents.WrapIdempotent | docs-src/src/agent.ts:65-77 | wrapping twice is the same as wrapping once |
| Agents.Square | docs-src/src/agent.ts:79-93 | the square built around the agent has width and height twice the half-side |
| Agents.NearInSquare | docs-src/src/agent.ts:79-93 | every point closer to the agent than the half-side lies strictly inside the square, off its edges |
| Agents.FlockSquareCovers | docs-src/src/agent.ts:79-85 | every agent inside any radius `flock` uses lies strictly inside the square of `flockBoundry` |
| Agents.FlockQueryFinds | docs-src/src/agent.ts:79-85 | the quadtree query as written, over the `flockBoundry` square, reports every stored agent inside any radius `flock` uses |
| Agents.FoodSquareCovers | docs-src/src/agent.ts:87-93 | every item `eat` may choose lies strictly inside the square of `foodBoundry` |
| Agents.FoodQueryFinds | docs-src/src/agent.ts:87-93 | the quadtree query as written, over the `foodBoundry` square, reports every stored item `eat` may choose |
| Agents.Spawned | docs-src/src/agent.ts:47-55 | after `init` the mood, swing and fade are 0, the health is 100, and the position and vectors are the drawn ones |
| Agents.Clamp | docs-src/src/agent.ts:291 | the clamped mood lies within ±limit, and a mood already within it is unchanged |
| Agents.AgedBounds | docs-src/src/agent.ts:290-304 | after `update` the mood is within its limit, the health is positive (an agent whose health ran out has started over), and the fade stays in [0, 1] |
| Agents.AgedSpeed | docs-src/src/agent.ts:47-48 | when the drawn velocity has length `speed`, as `vec2.random` gives it, every aged agent, a respawned one included, keeps within its speed |
| Agents.AgedCases | docs-src/src/agent.ts:290-304 | when the decayed health is not positive the agent is respawned; otherwise it has moved by its old velocity, its velocity is within the speed, the acceleration and swing are cleared, the mood is clamped, the health is the decayed value, and with a mood limit of at most 10 the health has not grown |
| Agents.Dishes | docs-src/src/agent.ts:226-231 | one entry per food item, holding whether it is eaten and where it is |
| Agents.Agent.Observe | docs-src/src/agent.ts:120-123 | one entry per agent of the list, holding whether it is this agent, its position, velocity and mood |
| Agents.Agent.constructor | docs-src/src/agent.ts:42-45 | a new DNA from the five draws, then `init`: the agent starts in the spawned state with zero accumulators and satisfies its invariant |
| Agents.Agent.Init | docs-src/src/agent.ts:47-55 | the fields `update` changes become the spawned state |
| Agents.Agent.Edges | docs-src/src/agent.ts:65-77 | each coordinate of the position is wrapped to the canvas; nothing else changes |
| Agents.Agent.FlockBoundary | docs-src/src/agent.ts:79-85 | the square around the position of half-side `maxZone` |
| Agents.Agent.FoodBoundary | docs-src/src/agent.ts:87-93 | the square's side is twice the food radius |
| Agents.Agent.Prepare | docs-src/src/agent.ts:95-112 | the accumulators become `Prepared` of the old ones and every counter is zero |
| Agents.Agent.Survey | docs-src/src/agent.ts:120-169 | after the loop the accumulators are the fold of one pass per list entry from their old values |
| Agents.Agent.Notice | docs-src/src/agent.ts:121-168 | one pass of the loop over `other`: the six radius tests in source order, nothing for the agent itself |
| Agents.Agent.AlignWith | docs-src/src/agent.ts:128-131 | the alignment step on the accumulators |
| Agents.Agent.CohereWith | docs-src/src/agent.ts:134-137 | the cohesion step on the accumulators |
| Agents.Agent.SeparateFrom | docs-src/src/agent.ts:140-145 | the separation step: the offset away from `other` divided by the distance |
| Agents.Agent.Watch | docs-src/src/agent.ts:148-157 | the view step: angle below one radian, signed by the side `other` is on |
| Agents.Agent.Crowd | docs-src/src/agent.ts:159-163 | `uncom` or else `happy` grows by the radius tests; nothing else changes |
| Agents.Agent.Sense | docs-src/src/agent.ts:165-168 | inside the sensitive radius the mood sum and its counter grow |
| Agents.Agent.Respond | docs-src/src/agent.ts:171-214 | the accumulators, acceleration and swing after the steering part equal `Steer` of the tallies |
| Agents.Agent.SteerAlign | docs-src/src/agent.ts:172-178 | the in-place steps on `forces.align` produce the alignment push, which is added to the acceleration |
| Agents.Agent.SteerCohes | docs-src/src/agent.ts:181-188 | the in-place steps on `forces.cohes` produce the cohesion push, which is added to the acceleration |
| Agents.Agent.SteerSepar | docs-src/src/agent.ts:191-198 | `moodNormal` is recomputed from the mood, and the separation push limited by it is added to the acceleration |
| Agents.Agent.SeparateBy | docs-src/src/agent.ts:192-197 | the mean separation offset, set to the speed, less the velocity and limited by the given `moodNormal` times the force, becomes the separation force and is added to the acceleration; `moodNormal` is stored |
| Agents.Agent.SteerView | docs-src/src/agent.ts:201-207 | the velocity turned by the mean view angle, within the force, is added to the acceleration |
| Agents.Agent.SwingMood | docs-src/src/agent.ts:209-214 | the swing gains the mean sensed mood times moodiness, then the crowding and mental-health term |
| Agents.Agent.Flock | docs-src/src/agent.ts:114-215 | `flock` as a whole: the counters are the tally of the list from zero, and the forces, acceleration and swing are the steering of that tally |
| Agents.Agent.Eat | docs-src/src/agent.ts:217-253 | the target is the choice of `Choose`; a target closer than 4 is eaten, moved to the drawn spot, and its value is added to the health while the other items stay; a farther one only adds the food push to the acceleration; with no target no item, no health and no acceleration changes; every item keeps its value |
| Agents.Agent.Seek | docs-src/src/agent.ts:223-237 | the loop's `minDist` and target are those of `Choose`, and `forces.food` holds the target's position |
| Agents.Agent.Approach | docs-src/src/agent.ts:244-249 | the food push towards the target at distance `minDist` is stored and added to the acceleration |
| Agents.Agent.Update | docs-src/src/agent.ts:290-304 | the state after `update` is `Aged` of the old state, and an agent that satisfied its invariant still does, with positive health |
| Agents.Agent.Live | docs-src/src/agent.ts:291-299 | the state before the health test is `Lived` of the old state |
| Agents.Agent.Move | docs-src/src/agent.ts:292-294 | the position moves by the old velocity and the velocity takes the acceleration within the speed |
| TreeNodes.Reset | src/tree.cpp:16-25 | the node becomes empty with every child link and id slot NONE; its box stays |
| TreeNodes.OctantInside | src/tree.cpp:31-51 | each octant box lies inside its parent box |
| TreeNodes.OctantIndex | src/tree.cpp:92-99 | the routed slot is one of eight; its bits 4, 2 and 1 are set exactly when the x, y and z coordinate lies strictly above the box midpoint |
| TreeNodes.RoutedOctantContains | src/tree.cpp:92-107 | a point of a box lies in the octant `insert` routes it to, so routing and `set(box, treeIdx)` agree |
| TreeNodes.ClampCloser | src/tree.cpp:56-58 | clamping a coordinate into an interval moves it no farther than any point of the interval |
| TreeNodes.ClosestIsClosest | src/tree.cpp:53-60 | the clamped point is the point of the box closest to the query point |
| TreeNodes.CoveredWhenNear | src/tree.cpp:53-60 | a node whose box holds a point strictly within range is not pruned by `covered` |
| TreeNodes.WfShapedForward | src/tree.hpp:14-26 | a well-formed pool has 8 child links and 16 id slots per node and links only forward |
| TreeNodes.OccurrencesMember | src/tree.cpp:87 | an id occurs in a list exactly when it is a member |
| TreeNodes.InsertIntoFreeSlot | src/tree.cpp:85-89 | a node that is not full takes the id in slot `filled`, counts one more, and no other node changes |
| TreeNodes.StoredNodeUpdate | src/tree.cpp:87 | replacing one node changes how often an id is stored by the difference of that node's entries |
| TreeNodes.StoredPrefix | src/tree.cpp:171-190 | appending nodes does not change what the earlier nodes store |
| TreeNodes.AddEntryStored | src/tree.cpp:87 | writing an id into a free slot stores it once more and every other id as often as before |
| TreeNodes.GrowStored | src/tree.cpp:102-108 | creating and linking a fresh child stores no id |
| TreeNodes.InsertStored | src/tree.cpp:82-112 | each insert stores the inserted id exactly once more and every other id as often as before |
| TreeNodes.AddEntryWf | src/tree.cpp:87 | writing into a free slot keeps the pool well formed |
| TreeNodes.GrowWf | src/tree.cpp:102-108 | linking a fresh empty child into a NONE slot keeps the pool well formed, adds exactly one node and changes no existing box |
| TreeNodes.InsertWf | src/tree.cpp:82-112 | an insert keeps the pool well formed (layout, forward links, octant boxes, reachability), adds at most one node and changes no existing box |
| TreeNodes.InsertIdsBelow | src/tree.cpp:82-112 | stored ids stay valid indices of the boid array when the inserted one is |
| TreeNodes.InsertPlaced | src/tree.cpp:82-112 | the inserted boid ends in a node whose box contains its position whenever the root box does, so correct placement of every stored id is kept |
| TreeNodes.FilterMembers | src/tree.cpp:135-140 | an id is reported by the loop over a node's slots exactly when it is stored there and passes `dist2 <= rangeSqr` |
| TreeNodes.ChildQueriesStep | src/tree.cpp:142-147 | one more child slot appends that slot's search to the results and the visit count |
| TreeNodes.QuerySound | src/tree.cpp:130-148 | every reported id is stored below the start node and passes `dist2 <= rangeSqr` |
| TreeNodes.ChildQueriesSound | src/tree.cpp:142-147 | every id the child searches report is stored below those children and passes the test |
| TreeNodes.ContentsInBox | src/tree.cpp:82-112 | an id stored below a node whose boid lies in the root box lies in the node's box |
| TreeNodes.ChildContentsInBox | src/tree.cpp:102-111 | an id stored below a node's children lies in the node's box when it lies in the root box |
| TreeNodes.QueryComplete | src/tree.cpp:130-148 | every id stored below the start node whose boid lies in the root box strictly within range is reported |
| TreeNodes.ChildQueriesComplete | src/tree.cpp:142-147 | every such id stored below the searched child slots is reported by their searches |
| TreeNodes.ChildContentsInclude | src/tree.cpp:142-147 | the ids below one child are among those below the node's children |
| TreeNodes.ReachableFromRoot | src/tree.cpp:102-108 | every node hangs below the root, so the root holds every id of any node |
| TreeNodes.StoredInContents | src/tree.cpp:82-112 | an id stored anywhere in the pool is held below the root |
| TreeNodes.RootQuery | src/tree.cpp:120-148 | the search from the root reports only stored ids passing `dist2 <= rangeSqr`, and every stored id whose boid lies in the root box strictly within range |
| TreeNodes.FilterSamePositions | src/tree.cpp:135-140 | the per-node test reads nothing of a boid but its position |
| TreeNodes.QuerySamePositions | src/tree.cpp:130-148 | the search reads nothing of a boid but its position |
| TreeNodes.ChildQueriesSamePositions | src/tree.cpp:142-147 | the child searches read nothing of a boid but its position |
| TreeNodes.PlacedSamePositions | src/tree.cpp:82-112 | placement depends on positions only |
| TreeNodes.PlacedMoveUnstored | src/engine.cpp:241-245 | moving a boid whose id is not stored yet keeps the placement of the stored ones |
| Tree.OctalTreeContainer.constructor | src/tree.cpp:64-70 | a pool of 32 nodes holding just an empty root on the domain box, with the statistics at zero |
| Tree.OctalTreeContainer.Reset | src/tree.cpp:192-199 | the root becomes an empty node on the domain box, the pool holds the root only, the statistics restart, and the capacity and other slots are untouched |
| Tree.OctalTreeContainer.NewTree | src/tree.cpp:171-190 | the next slot is handed out as a reset node; a full pool first doubles its capacity and keeps the live nodes |
| Tree.OctalTreeContainer.Insert | src/tree.cpp:77-80 | the live nodes become the pool insertion from the root, and the pool stays well formed |
| Tree.OctalTreeContainer.InsertAt | src/tree.cpp:82-112 | the live nodes become the pool insertion at node `idx`, and the pool stays well formed |
| Tree.OctalTreeContainer.Route | src/tree.cpp:92-99 | the slot computed from the box midpoint is the routed octant |
| Tree.OctalTreeContainer.AddHere | src/tree.cpp:85-89 | the id goes into slot `filled` of the node |
| Tree.OctalTreeContainer.Sprout | src/tree.cpp:102-108 | a fresh empty child for octant `k` is appended and linked from slot `k` |
| Tree.OctalTreeContainer.GetTrees | src/tree.cpp:114-118 | the pool and its live-node count, a well-formed tree rooted at the domain box |
| Tree.OctalTreeContainer.Push | src/tree.cpp:139 | the match is appended to the ids found; the buffer keeps the first 1024 and the count counts them all |
| Tree.OctalTreeContainer.FindRange | src/tree.cpp:120-128 | the ids found and the nodes visited are those of the search from the root with the squared range; the totals and the query count grow and the maximum is updated |
| Tree.OctalTreeContainer.SearchFromRoot | src/tree.cpp:122-124 | clears the buffer, then the ids found and nodes visited are those of the search from the root |
| Tree.OctalTreeContainer.ScanEntries | src/tree.cpp:135-140 | the node's ids within the squared range are appended in slot order |
| Tree.OctalTreeContainer.FindRangeAt | src/tree.cpp:130-148 | appends the ids of the search from node `idx` and counts its visits |
| Tree.OctalTreeContainer.SearchChildren | src/tree.cpp:142-147 | appends the searches below the covered children, in slot order |
| Tree.OctalTreeContainer.SearchChild | src/tree.cpp:144-146 | appends the search below one child when it exists and its box is covered |
| Tree.OctalTreeContainer.GetBoidsInRange | src/tree.cpp:150-154 | the ids found when they fit the 1024-entry buffer, otherwise the number matched |
| Flocking.Divide | src/engine.cpp:78 | dividing by a non-zero distance and scaling back gives the vector again |
| Flocking.IndividualCounts | src/engine.cpp:72-88 | each neighbour adds one to the align, cohesion and separation counts and at most one to the view count, exactly when the angle is below 1; one rotation per view count |
| Flocking.AccumulateSnoc | src/engine.cpp:72-88 | one more neighbour applies `flockIndividual` to the accumulator of the earlier ones |
| Flocking.AccumulateCounts | src/engine.cpp:119-129 | after `flockInit` and a loop over the neighbours the three counts equal the number of neighbours and the view count is at most that |
| Flocking.Steer | src/engine.cpp:94-95 | a steering term never exceeds the force limit |
| Flocking.AlignRule | src/engine.cpp:93-95 | no alignment term without neighbours; otherwise it is within the force limit |
| Flocking.CohesionRule | src/engine.cpp:98-100 | no cohesion term without neighbours; otherwise it is within the force limit |
| Flocking.SeparationRule | src/engine.cpp:103-105 | no separation term without neighbours; otherwise it is within the force limit |
| Flocking.ViewRule | src/engine.cpp:108-112 | no view term without a view count; otherwise it is within the force limit |
| Flocking.ApplyEffect | src/engine.cpp:90-114 | `flockApply` changes only the acceleration and `countAround`, which becomes the view count; with no neighbour the acceleration stays |
| Flocking.ModRange | src/engine.cpp:133 | `glm::mod` by a positive extent lies in [0, extent) |
| Flocking.FloorOne | src/engine.cpp:133 | a value in [d, 2d) has quotient floor 1 |
| Flocking.WrapRange | src/engine.cpp:133 | a wrapped coordinate lies in [low, low + extent) |
| Flocking.WrapInside | src/engine.cpp:133 | a coordinate already inside the space is not moved |
| Flocking.MovedInDomain | src/engine.cpp:131-136 | after `updateBoid` the boid is inside the space; a step that stays inside is the plain `position + velocity`; the velocity takes the acceleration, which is cleared |
| Flocking.DomainInBox | src/engine.cpp:205 | the half-open space lies in the closed box of the tree |
| Flocking.NaiveNeighbours | src/engine.cpp:186-195 | only indices of the boid array are handed to `flockIndividual` |
| Flocking.NaiveMembers | src/engine.cpp:186-195 | a boid is a neighbour of the naive engine exactly when its id differs and its squared distance is at most `range2` |
| Flocking.TreeNeighbours | src/engine.cpp:251-269 | only indices of the boid array are handed to `flockIndividual` |
| Flocking.TreeMembers | src/engine.cpp:251-269 | a boid is a neighbour of the tree engine exactly when the search reports it and its id differs |
| Flocking.FoundIndices | src/engine.cpp:251-269 | every id the search reports indexes the boid array |
| Flocking.TreeNeighboursAgree | src/engine.cpp:182-198 | every neighbour of the tree engine is one of the naive engine, and every naive neighbour strictly inside the range is a neighbour of the tree engine too |
| Engine.NaiveAccNeighbours | src/engine.cpp:184-195 | the naive loop accumulates over exactly the naive neighbours, in array order |
| Engine.TreeAccNeighbours | src/engine.cpp:253-266 | the tree loop accumulates over exactly the reported ids other than its own, in report order |
| Engine.SameMotionUpdate | src/engine.cpp:90-116 | writing a boid's acceleration and count keeps what the other boids' loops read |
| Engine.SameMotionPositions | src/engine.cpp:251-269 | arrays with the same motion have the same positions |
| Engine.NaiveAccSameMotion | src/engine.cpp:186-195 | the naive loop reads positions, velocities and ids only |
| Engine.TreeAccSameMotion | src/engine.cpp:260-266 | the tree loop reads positions, velocities and ids only |
| Engine.MoveAll | src/engine.cpp:174-175 | the move loop keeps the number of boids |
| Engine.Build | src/engine.cpp:178-179 | a pass builds one boid per index |
| Engine.BuildAt | src/engine.cpp:178-179 | boid `j` of a pass is the step applied to `j` |
| Engine.NaiveFrame | src/engine.cpp:178-179 | the naive pass keeps the number of boids |
| Engine.NaiveFrameBuild | src/engine.cpp:178-179 | the naive pass flocks every boid of the moved array |
| Engine.NaiveFrameAt | src/engine.cpp:178-179 | boid `j` after the naive pass is boid `j` flocked over the moved array |
| Engine.NaiveFramePartial | src/engine.cpp:178-179 | part way through the naive pass the array has the motion of the moved array, so later boids see the same neighbours |
| Engine.PassEnds | src/engine.cpp:178-179 | before a pass the array is the moved array; after it, the frame |
| Engine.FrameStep | src/engine.cpp:178-179 | flocking boid `i` moves the flocked prefix on by one |
| Engine.TreeFrame | src/engine.cpp:247-248 | the tree pass keeps the number of boids |
| Engine.TreeFrameBuild | src/engine.cpp:247-248 | the tree pass flocks every boid of the moved array |
| Engine.TreeFrameAt | src/engine.cpp:247-248 | boid `j` after the tree pass is boid `j` flocked over the moved array |
| Engine.NaiveFlockedMotion | src/engine.cpp:182-198 | naive flocking changes no position, velocity or id |
| Engine.TreeFlockedMotion | src/engine.cpp:251-269 | tree flocking changes no position, velocity or id |
| Engine.NaiveFlockedSameMotion | src/engine.cpp:178-179 | flocking a boid inside the pass, after earlier boids got new accelerations, gives the same boid as flocking over the moved array |
| Engine.TreeFlockedSameMotion | src/engine.cpp:247-248 | likewise for the tree pass, whose search reads positions only |
| Engine.NaiveFlockedCount | src/engine.cpp:182-198 | a naive-flocked boid is `flockApply` over exactly its naive neighbours; its count is at most their number, and with none its acceleration is untouched |
| Engine.TreeFlockedCount | src/engine.cpp:251-269 | a tree-flocked boid is `flockApply` over exactly the reported ids other than its own, and its count is at most their number |
| Engine.MaxStep | src/engine.cpp:115 | `max` gives the larger of the count and the running maximum |
| Engine.TreeFramePartial | src/engine.cpp:247-248 | part way through the tree pass the array has the motion of the moved array |
| Engine.TreeStep | src/engine.cpp:247-248 | one turn of the tree pass: boid `i` still stands where it was, the search around it reports the same ids, and flocking it extends the flocked prefix |
| Engine.AroundBounds | src/engine.cpp:114-116 | after a CPU frame every count lies between the two statistics; the maximum is 0 or one of the counts, and the minimum is one of the counts once a boid exists |
| Engine.Spawned | src/engine.cpp:41-53 | a new boid stands at its drawn position, has id equal to its index, no acceleration, count 0 and a unit velocity |
| Engine.SimulationEngine.constructor | src/engine.cpp:15-60 | the space, range and force settings come from the environment; `1 << boidCount` boids are drawn, each as `Spawned`; the container and the context are set up; `run` is on |
| Engine.SimulationEngine.InitAgents | src/engine.cpp:55-57 | a container over the drawn boids, satisfying its statistic invariant |
| Engine.SimulationEngine.InitBoids | src/engine.cpp:41-53 | boid `i` is `Spawned` from the `i`-th draws |
| Engine.SimulationEngine.UpdateBoid | src/engine.cpp:131-136 | only boid `i` changes, and it becomes `Moved` |
| Engine.SimulationEngine.FlockInit | src/engine.cpp:119-129 | the accumulator becomes the initial one: zero sums, identity view, zero counts |
| Engine.SimulationEngine.FlockIndividual | src/engine.cpp:72-88 | the accumulator becomes `Individual` of the old one |
| Engine.SimulationEngine.Acceleration | src/engine.cpp:92-112 | the acceleration after the four branches is that of `Apply` |
| Engine.SimulationEngine.FlockApply | src/engine.cpp:90-117 | only boid `m` changes, becoming `Apply` of the accumulator; the maximum and minimum statistics take its view count |
| Engines.CountFits | src/engine.cpp:22 | the `1 << n` boid counts the engines create fit the 32-bit signed sizes of the GPU sort |
| Engines.CrowdedAt | src/engine.cpp:255-258 | one boid with more than MAXFOUND boids in range makes the array crowded, the case in which the tree search buffer overflows |
| Engines.EngineCPUBasic.constructor | src/engine.cpp:140-145 | the shared engine is set up from the environment, with `1 << boidCount` spawned boids |
| Engines.EngineCPUBasic.Flock | src/engine.cpp:182-198 | only boid `m` changes, becoming the naive-flocked boid; the statistics take its count |
| Engines.EngineCPUBasic.Gather | src/engine.cpp:184-195 | the accumulator ends as the naive accumulation over every other boid in range |
| Engines.EngineCPUBasic.MoveBoids | src/engine.cpp:174-175 | every boid is moved, in place |
| Engines.EngineCPUBasic.FlockStep | src/engine.cpp:178-179 | flocking boid `i` inside the pass gives boid `i` of the frame over the moved array, and the statistics extend by its count |
| Engines.EngineCPUBasic.FlockAll | src/engine.cpp:178-179 | after the pass the array is the naive frame of the moved array and the statistics are the maximum and minimum count over it |
| Engines.EngineCPUBasic.Update | src/engine.cpp:165-180 | paused: nothing changes; running: the boids become the naive frame of the moved boids, and the statistics its maximum and minimum count |
| Engines.EngineCPUTree.constructor | src/engine.cpp:202-207 | the shared engine and an empty tree over the space box, attached to the context |
| Engines.EngineCPUTree.Assemble | src/engine.cpp:202-207 | the tree's box is the engine's space box and its boids are the engine's |
| Engines.EngineCPUTree.InsertStep | src/engine.cpp:241-245 | boid `i` is moved and then stored once in the tree, in a node whose box holds it; the boids before it stay stored once |
| Engines.EngineCPUTree.Rebuild | src/engine.cpp:241-245 | after the loop every boid is moved and stored exactly once, in a node whose box holds its new position |
| Engines.EngineCPUTree.Flock | src/engine.cpp:251-269 | the search fits the buffer exactly when at most MAXFOUND boids are in range; then only boid `m` changes, becoming the tree-flocked boid; otherwise nothing changes |
| Engines.EngineCPUTree.FlockFound | src/engine.cpp:260-268 | boid `m` becomes `flockApply` over the reported ids; the statistics take its count |
| Engines.EngineCPUTree.FlockApply | src/engine.cpp:268 | only boid `m` changes, and the engine's tree invariant is kept |
| Engines.EngineCPUTree.Search | src/engine.cpp:255-258 | the ids are exactly the boids in range, each a valid index, unless more than MAXFOUND are in range |
| Engines.EngineCPUTree.Gather | src/engine.cpp:260-266 | the accumulator ends as the accumulation over the reported ids other than the boid's own |
| Engines.EngineCPUTree.FlockStep | src/engine.cpp:247-248 | boid `i` becomes boid `i` of the tree frame over the moved array, unless the search around it overflows |
| Engines.EngineCPUTree.FlockAll | src/engine.cpp:247-248 | the array becomes the tree frame of the moved array, or some boid was crowded |
| Engines.EngineCPUTree.Update | src/engine.cpp:229-249 | paused: nothing changes; running: the tree indexes the moved boids, and the boids become the tree frame of them unless some boid was crowded |
| Engines.EngineCPUTree.Advance | src/engine.cpp:235-248 | the reset, rebuild and flock pass of a running update |
| Engines.EngineCPUTree.Prepare | src/engine.cpp:235-245 | the boids are moved, the tree indexes them, and the statistics restart at 0 and infinity |
| Engines.EngineCPUTree.Restart | src/engine.cpp:235-238 | the tree is back to one empty root over the space box, its counters at 0, and the statistics at 0 and infinity |
| Engines.EngineGPUBasic.constructor | src/engine.cpp:273-278 | the shared engine, with no pass dispatched yet |
| Engines.EngineGPUBasic.Update | src/engine.cpp:295-302 | paused: nothing is dispatched; running: the update pass, the reduction and the naive flocking pass are dispatched, and the read-back counts enter the statistic histories |
| Engines.EngineGPUGrid.constructor | src/engine.cpp:350-355 | the shared engine with the grid set up, with no pass dispatched yet |
| Engines.EngineGPUGrid.Update | src/engine.cpp:374-382 | paused: nothing is dispatched; running: the update pass, the reduction, every pass of the bitonic sort, the reindex pass and the grid flocking pass, in that order |
| Gpu.Pow2 | src/glcontext.cpp:451 | a power of two is at least 1 |
| Gpu.PowAdd | src/glcontext.cpp:652 | `2^(a+b) = 2^a · 2^b` |
| Gpu.Groups | src/glcontext.cpp:454 | at least one group, and otherwise the boid count divided by the invocations |
| Gpu.GroupsCover | src/glcontext.cpp:451-454 | for `2^n` boids the groups give every boid an invocation, exactly one each from 1024 boids on |
| Gpu.PowMonotone | src/glcontext.cpp:652 | powers of two grow with the exponent |
| Gpu.DivHalf | src/glcontext.cpp:652-653 | halving a quotient is dividing by twice the divisor |
| Gpu.BlockIsQuotient | src/glcontext.cpp:652 | the block after `it` halvings is `segmentSize / 2^it`, the quotient the code computes |
| Gpu.ScheduleStep | src/glcontext.cpp:657-660 | after one segment size comes its double while that fits, otherwise nothing |
| Gpu.SmallSegmentOnePass | src/glcontext.cpp:631-655 | a segment no larger than one group takes one dispatch, at iteration 0 |
| Gpu.BlockOfPower | src/glcontext.cpp:652 | a segment of `inv·2^k` halved `it <= k` times is `inv·2^(k-it)` |
| Gpu.LargeSegmentPasses | src/glcontext.cpp:631-655 | a segment of `inv·2^k` takes `k + 1` dispatches, with iterations `0 … k` in order |
| Gpu.ScheduleSegments | src/glcontext.cpp:628-660 | every dispatch of the sort is a sort pass over all groups whose segment is 2 doubled, no larger than the boid count unless it is the first |
| Gpu.ScheduleLast | src/glcontext.cpp:660 | the sort always dispatches, and stops at the first segment whose double exceeds the boid count |
| Gpu.PassesShape | src/glcontext.cpp:631-655 | the passes of one segment are at least one and all carry that segment and the groups |
| Gpu.IndexEntriesBound | src/glcontext.cpp:256-262 | every index names one of the `BASE + 1` vertices and each triangle has three distinct corners |
| Gpu.InitIndices | src/glcontext.cpp:256-262 | the loop fills triangle `i` with `i`, `(i + 1) mod BASE` and the apex `BASE` |
| Gpu.Unsigned | src/glcontext.cpp:306 | the unsigned conversion truncates a non-negative float |
| Gpu.GridEntries | src/glcontext.cpp:306-308 | the grid offset buffer size is a 32-bit unsigned value |
| Gpu.GridEntriesExact | src/glcontext.cpp:306-308 | without wrap-around the buffer holds one entry per cell and one more |
| Gpu.IntMin | src/glcontext.cpp:555 | the smaller of two counts, and one of them |
| Gpu.Context.constructor | src/glcontext.cpp:426-471 | the boid size, tree memory limit and dark mode come from the environment; 1024 invocations, `max(2^n / 1024, 1)` groups, the index buffer filled, nothing uploaded or dispatched |
| Gpu.Context.SetupBox | src/glcontext.cpp:484-505 | one root box is uploaded and counted |
| Gpu.Context.SetupGrid | src/glcontext.cpp:523-537 | the box of `setupBox`, one node counted and uploaded |
| Gpu.Context.AttachTree | src/glcontext.cpp:507-521 | the context holds the engine's tree |
| Gpu.Context.SetupTree | src/glcontext.cpp:546-556 | without a tree nothing changes; with one the node count is the tree's and at most `treeMemoryLimit` nodes are uploaded |
| Gpu.Context.DrawnBoxes | src/glcontext.cpp:367-376 | the boxes drawn never exceed the memory limit nor the node count |
| Gpu.Context.ComputeShaderUpdateBoids | src/glcontext.cpp:562-590 | the update pass over all groups and one reduction group are dispatched; the read-back minimum and maximum enter the rolling statistics |
| Gpu.Context.ComputeShaderNaiveFlock | src/glcontext.cpp:592-602 | one naive flocking pass over all groups |
| Gpu.Context.ComputeShaderGridFlock | src/glcontext.cpp:694-703 | one grid flocking pass over all groups |
| Gpu.Context.ComputeShaderSortBoids | src/glcontext.cpp:617-692 | every pass of the bitonic schedule from segment 2, then one reindex pass |
| Gpu.Context.SortSegment | src/glcontext.cpp:631-655 | the passes of one segment size are dispatched in order |
| Gpu.ScheduleHasNoReindex | src/glcontext.cpp:628-673 | the sort schedule holds only sort passes, so the one reindex pass comes after all of them |

## Findings

| source | as written | input that shows it | evidently intended | confidence | as-written member | corrected member |
|---|---|---|---|---|---|---|
| src/environment.cpp:14 | the built-in `boidCount` is 1024, but `boidCount` is an exponent: the engines draw `1 << boidCount` boids from a 32-bit signed `1` | no settings-file entry for `boidCount` and fewer than three command-line arguments: the shift is by 1024, which is undefined | the default exponent 10 that the command-line parsing starts from (line 98), so 1024 boids | medium, not executed | Settings.DefaultCountOverflows | Settings.IntendedCountFits |
| docs/src/src/sketch/quadtree.ts:29-38 | `query` prunes with `intersects`, which is false for boxes that only touch along an edge, while `contains`, which decides what is reported, is closed on both sides | a node with boundary (0, 0, 100, 100) holding a point at (100, 50), queried with the range (100, 0, 50, 100): the range contains the point, but the node is pruned and the point is not reported | a query reports every stored point the range contains, which needs a closed overlap test | low, not executed | Quadrants.QueryMissesEdgePoint | Quadrants.QueryClosed |

`Quadrants.FoundClosedComplete` proves that the corrected search reports every
stored point the range contains. `Quadrants.QueryClosed` is the method that
performs it. The error never affects the demo's own queries. `Quadrants.FoundInteriorComplete`
shows that the query as written misses only points on the range's edges.
`Agents.FlockQueryFinds` and `Agents.FoodQueryFinds` show that every agent and item
the flock and food code can use lies strictly inside its square.

## Left out

- Rendering: OpenGL calls, shader loading, the compute shaders themselves, draw calls, memory barriers and the camera. Their effect on the model is a log of dispatches.
- The frame timer, `draw()` of every engine and `printStats`: output only.
- `copyBoidsToCPU` and the GPU buffers: the model does not track the boids a shader writes.
- The `EngineGPUTree` engine is commented out in `src/engine.cpp:306-346` and is not modelled.
- Floating-point rounding, NaN and the IEEE infinities: coordinates are real numbers. The one infinity the code relies on, the `INFINITY` start of the minimum count, is modelled as an explicit value.
- Random number generation: `mt19937`, `Math.random` and `p5.random` are replaced by the draws passed in as parameters. The lengths that `vec2.random` gives the spawned velocity and acceleration are stated as the law `Agents.Drawn`. The methods do not require it; `Agents.AgedSpeed` takes it as a precondition.
- The environment file's stream parsing loop, `ifstream` and `atoi`: the file is a list of records and `atoi` is a parameter.
- The `verts` array of `initBuffers` is left out, because it is built from `sin` and `cos`. Only the index buffer is modelled.
- Engine.SimulationEngine.constructor: requires the `boidCount` exponent to be below 31. The source shifts a 32-bit signed `1` by it, which is undefined from 31 on. The built-in default of 1024 fails this requirement (see Findings), so without a file entry or `argv[2]` no engine can be built from `Loaded`; it can from `LoadedIntended`.
- Gpu.Context.constructor: requires the grid resolution to be non-negative, because converting a negative float to `uvec3` is undefined.
- Gpu.Context.ComputeShaderSortBoids: requires fewer than 2^31 boids. The 32-bit `segmentSize` wraps to 0 after 2^31 and the outer loop would not end.
- Engines.EngineCPUBasic.Update: requires a positive box diagonal, which is what keeps `updateBoid`'s wrap inside the box. A zero diagonal makes `glm::mod` divide by zero. The same holds for Engines.EngineCPUTree.Update.
- Settings.Environment.constructor: requires a non-zero `flockingZone`. The source divides by it when deriving the grid resolution, which for zero gives an infinity whose unsigned conversion is undefined.
- Tree.OctalTreeContainer.FindRange: when more than MAXFOUND ids are in range, the source writes past `rangeStack`. The model keeps counting, writes only below MAXFOUND, and lets `getBoidsInRange` report the overflow as an error. `Flock` on its own then leaves that boid unchanged, but the tree engine's flocking pass stops at the first crowded boid: its `ensures` then state only that a crowded boid exists, and say nothing about the boids and statistics at that point.
- The accumulators of `SimulationEngine` are uninitialised until the first `flockInit`. The model starts them at the initial accumulator.
- Input.Interface: the camera calls of `updateContext` are returned as a list of calls rather than performed. Integer overflow of the mouse and wheel deltas is not modelled.
- Genetics.FromDraws: the trait intervals hold over the reals. Float rounding at the upper end of an interval is not modelled.
- Quadrants: the quadtree's nodes are values, rebuilt by `insert`, `subdivide`, `dispose` and `reset`, and `query` returns the extended `found` array. Entries keep the position they had when inserted, while the source's `contains` reads the live `x` and `y` of the item. A food item that `eat` moves after `foodTree.insert` is therefore seen at its old position by the model and at its new one by the source, so the arrays returned by later queries can differ. Agent behaviour does not, because `eat` skips items already eaten. The in-place update itself is not modelled.
- The quadtree's boundary is undefined until `init` is called. The model always constructs a node with a boundary.
- Agents: `agent.ts` imports `./dna`, `./math` and `./quadtree`, and the model takes them to be `docs/src/src/sketch/dna.ts`, `math.ts` and `quadtree.ts`. The force trait is therefore `random · 0.6`.
- Agents: the local scratch vectors of the steering code are not separate state; each steering block is one function.
- Agents: `Math.max` and `Math.min` are modelled on reals, so their NaN behaviour is not.
- Agents.Agent.Update: relies on the DNA invariant `moodLimit > 0`, which every DNA the constructor builds satisfies.
- The agent's `x` and `y` getters and `show()`: these are a trivial projection and drawing.
- The tree's `getBoxLow`, `getBoxHigh` and `getBoxDiagonal` accessors: they only read the constant box, which the model exposes as a field.
