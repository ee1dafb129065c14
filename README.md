# westpunk character core in Dafny

westpunk is a 2-D side-scrolling game written in Go. This project models
the core that moves and animates the player character, and proves
properties of that model:

- **core** (`core.dfy`, module `Core`): the shared data model and its basic operations.
  - `Vector2` and its in-place `Scale` and `Add`.
  - The `Stance` of thirteen joint angles plus a facing direction.
  - `ShiftStance`, which blends two stances linearly over a number of frames.
  - The stance-continuation table and the first-match lookup `GetContinuation`.
  - `ChangeWalkState`, which restarts the player's blend toward a new target stance.
  - `GetChunk`, the window of grid cells around a component.
  - The `PhysicsComponent` and `Player` records, with the main player's initial state.
- **stances** (`stances.dfy`, module `Stances`): the sixteen named poses and the start-up table of continuations.
  - The walk poses are the package variables the player code swaps, so they are a class with four fields.
  - `CreateStanceContinuation` and `CreateStanceContinuations` append to the table.
  - Lemmas describe the resulting pose graph: two-cycles for breathing and walking, and a three-step jump chain that ends at jump 3.
- **physics** (`physics.dfy`, module `Physics`):
  - The walk tests `CanMoveRight` and `CanMoveLeft`, which scan neighbouring grid cells for blockers.
  - `MoveRight` and `MoveLeft`.
  - The support query `Grounded`, the clamp `ConfineToPlace`, the integrator `Move` and the box test `CollisionDetected`.
  - In `Move`, force entries are heap cells (`*Vector2` in Go), damped in place.
- **player** (`player.dfy`, module `PlayerMoves`): the animation transitions.
  - The transitions are `StopMovingRight`, `StopMovingLeft`, `ContinueStance`, `StartJump`, `ActualJump`, `EndJump` and `UpdateStance`.
  - Each transition is a method on the player.
  - Where a transition chooses a target, the choice is also a function. Lemmas show that the target faces the right way and that the start-up table leads on from it.

How Go maps onto Dafny:
- `float64` is `real`: exact, with no rounding, no NaN and no infinities.
- Go's truncating `int(f)` is `Core.Trunc`, and `math.Floor` is `.Floor`.
- Go maps keyed by enums become Dafny `map`s.
- A lookup of a key that is missing is made explicit:
  - A missing grid cell reads as an empty list.
  - A thing type missing from the obstruction table reads as `None`. Go reads the zero value there, which is none of the four obstruction classes.
- Go's `Direction` zero value, carried by the all-zero initial stances, is `NoDirection`.
- Package-level variables become objects passed to the operations that use them:
  - The obstruction table and the grid.
  - The `StanceContinuations` table, as `ContinuationTable`.
  - The walk poses, as `WalkPoses`.
- In the source, stances.go refers to `core.RIGHT` and `core.LEFT`, but core.go declares only `DIRECTION_RIGHT` and `DIRECTION_LEFT`, which player.go uses. The model reads the former as the latter.

## Model

| member | source | states |
|---|---|---|
| Core.Trunc | pkg/physics/physics.go:12 | Go's float-to-int conversion truncates toward zero: the result is within one of the input, on the zero side |
| Core.Vector2.Scale | pkg/core/core.go:75-79 | both coordinates are multiplied in place by the coefficient |
| Core.Vector2.Add | pkg/core/core.go:81-85 | the other vector's coordinates are added in place |
| Core.ShiftStance | pkg/core/core.go:240-257 | every joint of the result lies frame/frames of the way from s1's joint to s2's; the result faces as s2 |
| Core.ShiftStanceAtStart | pkg/core/core.go:240-257 | at frame 0 the blend has exactly s1's joints, turned to face as s2 |
| Core.ShiftStanceAtEnd | pkg/core/core.go:240-257 | at the last frame the blend is exactly s2 |
| Core.ShiftStanceBetween | pkg/core/core.go:240-257 | for 0 <= frame <= frames every joint of the blend lies between its two endpoints |
| Core.FirstMatch | pkg/core/core.go:262-266 | the index found is the first entry whose start equals the stance: no earlier entry matches, and the entry found matches unless none does |
| Core.Continuation | pkg/core/core.go:260-268 | (function, no contract; its meaning is Core.ContinuationIsFirstMatch and Core.ContinuationWhenUnmatched) the continuation and frames of the first entry starting at s, or (s, 0) |
| Core.ContinuationIsFirstMatch | pkg/core/core.go:262-266 | the first entry starting with the stance decides the lookup |
| Core.ContinuationWhenUnmatched | pkg/core/core.go:267 | when no entry starts with the stance, the lookup yields the stance itself with 0 frames |
| Core.GetContinuation | pkg/core/core.go:260-268 | the linear search returns exactly the first-match continuation and duration, or (s, 0) |
| Core.ContinuationTable.constructor | pkg/core/core.go:210 | the continuation table starts empty |
| Core.GetChunk | pkg/core/core.go:279-295 | the chunk lies inside the place; each side moves in from the place edge exactly when the margin-shifted side lies strictly inside, and then equals it |
| Core.ChunkCoversComponent | pkg/core/core.go:279-295 | a component inside the place lies inside its own chunk |
| Core.PhysicsComponent.Initial | pkg/core/core.go:186-198 | initial physics: position (70, 0), zero motion, distinct zero gravity and jump cells, height 1, player width, not grounded |
| Core.Player.MainPlayer | pkg/core/core.go:181-200 | the main player starts standing, at frame 0 of a VibeFrames blend, moving neither way, all stances zero |
| Core.ChangeWalkState | pkg/core/core.go:270-277 | sets the state, target and duration; the blend restarts at frame 0 from the displayed stance; the displayed stance and the key flags are untouched |
| Stances.WalkPoses.constructor | pkg/stances/stances.go:74-137 | the four walk poses start as the declared WalkRight1/2 and WalkLeft1/2 |
| Stances.CreateStanceContinuation | pkg/stances/stances.go:268-275 | appends exactly one edge (s1, s2, f) to the table |
| Stances.StartupContinuations | pkg/stances/stances.go:277-292 | (function, no contract; its meaning is Stances.InitialTableShape and the loop lemmas) the fourteen start-up edges in source order: the breathing pairs over 50 frames, the jump chain over 10 and 10, the walk pairs over 25, with the walk poses given |
| Stances.CreateStanceContinuations | pkg/stances/stances.go:277-292 | appends the fourteen start-up edges in source order, reading the walk poses in force |
| Stances.InitialTableShape | pkg/stances/stances.go:277-292 | the start-up table has 14 edges, each with a positive duration taken from the frame constants, each keeping its start's facing |
| Stances.InitialStartsDistinct | pkg/stances/stances.go:277-292 | no two start-up edges start from the same pose, so the first-match lookup does not depend on edge order |
| Stances.LookupFindsOwnEntry | pkg/core/core.go:260-268 | in a table with distinct starts, looking up an edge's start yields that edge |
| Stances.InitialLookup | pkg/stances/stances.go:277-292 | looking up the start of any start-up edge yields that edge |
| Stances.InitialRestLoops | pkg/stances/stances.go:278-281 | the breathing poses form a two-cycle of VibeFrames in each direction |
| Stances.InitialWalkLoops | pkg/stances/stances.go:288-291 | the walk poses form a two-cycle of StepFrames in each direction |
| Stances.InitialJumpChain | pkg/stances/stances.go:282-287 | jump 1 and the leap lead to jump 2, jump 2 leads to jump 3, and jump 3 has no edge (it yields itself with 0 frames) |
| Stances.InitialJumpRight3Terminal | pkg/stances/stances.go:277-292 | no start-up edge leaves JumpRight3 |
| Stances.InitialJumpLeft3Terminal | pkg/stances/stances.go:277-292 | no start-up edge leaves JumpLeft3 |
| Stances.WalkCycleSurvivesSwaps | pkg/stances/stances.go:288-291 | however the walk poses have been swapped, the table still leads from each current walk pose to its partner and back |
| Physics.RightNeighbours | pkg/physics/physics.go:12 | the things scanned on the right are exactly those in the component's own cell and the cell to its right, keyed by the truncated x and y |
| Physics.LeftNeighbours | pkg/physics/physics.go:35 | the things scanned on the left are exactly those in the component's own cell and the cell to its left |
| Physics.BlocksRight | pkg/physics/physics.go:15-20 | (predicate, no contract) a solid or right-slanted thing whose left edge is right of the component's right side by less than 0.1, with overlapping vertical spans |
| Physics.BlocksLeft | pkg/physics/physics.go:38-43 | (predicate, no contract) the leftward blocker test as written: a solid or left-slanted thing whose right edge is right of the component's left edge, gap below 0.1, vertical spans overlapping |
| Physics.UnlistedThingsNeverBlock | pkg/physics/physics.go:15-17 | a thing type missing from the obstruction table never blocks walking either way |
| Physics.CanMoveRight | pkg/physics/physics.go:9-26 | true exactly when no thing in the two scanned cells blocks on the right and the right side is left of the right border |
| Physics.CanMoveLeft | pkg/physics/physics.go:33-50 | true exactly when no thing in the two scanned cells passes the source's leftward blocker test and the component is right of the left border |
| Physics.BlocksLeftAcceptsThingOnTheRight | pkg/physics/physics.go:41-45 | the source's leftward test stops the player for a solid log lying wholly to its right |
| Physics.BlocksLeftIgnoresThingOnTheLeft | pkg/physics/physics.go:41-45 | the source's leftward test lets through a solid log touching the player's left side within the gap |
| Physics.CanMoveLeftMirrored | pkg/physics/physics.go:33-50 | the leftward walk test with the mirrored blocker test: true exactly when no scanned thing ends within the gap to the left at the component's height and it is right of the left border |
| Physics.BlocksLeftMirrored | pkg/physics/physics.go:38-43 | (predicate, no contract) the corrected leftward blocker test: the thing ends left of the component by less than 0.1, at its height |
| Physics.MirroredLeftIsReflectedRight | pkg/physics/physics.go:17-20 | the mirrored leftward test holds exactly when the rightward test holds for the reflected thing with slants exchanged |
| Physics.MoveRight | pkg/physics/physics.go:28-31 | the walk speed is added to the motion's x, and nothing else changes |
| Physics.MoveLeft | pkg/physics/physics.go:52-55 | the walk speed is subtracted from the motion's x, and nothing else changes |
| Physics.GroundCandidates | pkg/physics/physics.go:114-117 | the things searched for support are exactly those of the four cells (x, y), (x, y-1), (x+1, y) and the fourth keyed (y+1, y-1), all truncated, as written |
| Physics.Considered | pkg/physics/physics.go:126-127 | (predicate, no contract) a thing counts unless its class is unobstructive (a missing type counts) or it lies wholly left or right of the component |
| Physics.TopAt | pkg/physics/physics.go:130-137 | a thing that is not a slant has a flat top at its y plus its height |
| Physics.RightSlantNeverRises | pkg/physics/physics.go:135-137 | as written, a considered right slant never has a top above its own base y |
| Physics.RightSlantRampIgnored | pkg/physics/physics.go:135-137 | a ramp the component stands on over its left part has an as-written top below 0 but a corrected top at the component's feet; the as-written top is not mirror-symmetric |
| Physics.TopAtCorrected | pkg/physics/physics.go:130-137 | the same top except for the right slant, which is measured from the thing's right edge; a considered right slant's top lies between base minus the component's width and base plus the thing's width |
| Physics.CorrectedTopIsMirrorSymmetric | pkg/physics/physics.go:130-137 | under reflection in the component's axis with slants exchanged, a thing is considered exactly when its reflection is, and the corrected top is unchanged |
| Physics.MaxTop | pkg/physics/physics.go:122-142 | (function, no contract; its meaning is Physics.MaxTopIsMaximum) the running maximum from -1 of the considered tops, replaced only by a strictly larger top |
| Physics.MaxTopIsMaximum | pkg/physics/physics.go:122-142 | the running maximum is at least -1, bounds every considered top, and equals one of them unless it is -1 |
| Physics.GroundQuery | pkg/physics/physics.go:114-149 | (function, no contract; its meaning is Physics.GroundQueryMeaning) the ground-line answer when no cell holds a thing or the maximum is below 0, otherwise the maximum and whether it reaches the base |
| Physics.GroundQueryMeaning | pkg/physics/physics.go:109-150 | with no considered top at or above 0, the answer is the ground line; otherwise the ground is the highest considered top, and the component is grounded exactly when some considered top reaches its base |
| Physics.Grounded | pkg/physics/physics.go:109-150 | the scan over the four cells returns exactly the grounding answer and ground height |
| Physics.MaxTopIgnoresY | pkg/physics/physics.go:126-137 | which things are considered, and their tops, do not depend on the component's y |
| Physics.GroundedSnapStable | pkg/physics/physics.go:68-72 | snapping a grounded component onto its ground height keeps it grounded at that height, when the snap stays in its row of cells |
| Physics.ClampX | pkg/physics/physics.go:59-66 | the clamped x is right of the left border; when the component fits, its right side is left of the right border; an x already inside is kept |
| Physics.Confined | pkg/physics/physics.go:57-75 | (function, no contract; its meaning is Physics.ConfineIdempotent and Physics.ConfineToPlace) x clamped, then the grounding query at the clamped x, with y snapped to the ground height only when grounded |
| Physics.ConfineIdempotent | pkg/physics/physics.go:57-75 | confining an already confined position changes nothing, when the snap stays in the row of cells |
| Physics.ConfineToPlace | pkg/physics/physics.go:57-75 | position and grounded flag become the confined ones; motion, forces and size are unchanged |
| Physics.DampedForce | pkg/physics/physics.go:79-94 | (function, no contract; its meaning is Physics.DecayedIsDampedRepeatedly and Physics.StepForce) gravity gains (0, -0.03) when airborne or becomes zero when grounded; then every entry keeps 0.8 of itself |
| Physics.DampedForces | pkg/physics/physics.go:79-95 | damping keeps exactly the force kinds present |
| Physics.DecayedIsDampedRepeatedly | pkg/physics/physics.go:88-95 | a jump or knockback entry after n+1 steps is the n-step value damped once more, grounded or not |
| Physics.JumpImpulseDecays | pkg/physics/physics.go:88-91 | the jump impulse (0, 0.5) is positive but below 1e-6 from the 60th step on, and its x stays 0 |
| Physics.StepForce | pkg/physics/physics.go:79-85 | one force cell is damped in place: gravity gains the downward step when airborne or is cleared when grounded, then every cell keeps 0.8 of itself |
| Physics.ApplyForce | pkg/physics/physics.go:88-95 | a present entry is damped in place and its new value added to the motion; an absent one changes nothing |
| Physics.ApplyForces | pkg/physics/physics.go:79-95 | every cell holds its damped value, and the motion gains every damped entry, gravity first |
| Physics.Integrate | pkg/physics/physics.go:79-97 | every cell holds its damped value and the key set is unchanged; the position gains the old motion plus the damped entries; the motion ends at zero; grounded flag and size are untouched |
| Physics.Move | pkg/physics/physics.go:77-99 | cells are damped in place and stay distinct; the motion ends at zero; the position and grounded flag are the confinement of the old position plus the old motion and the damped entries |
| Physics.CollisionDetected | pkg/physics/physics.go:101-107 | (function, no contract; its meaning is Physics.CollisionMeansSharedPoint) the two spans overlap (closed) horizontally, and the spans [y - height, y] overlap vertically |
| Physics.CollisionMeansSharedPoint | pkg/physics/physics.go:101-107 | for boxes of non-negative size, the test holds exactly when the two boxes share a point, so it is symmetric |
| PlayerMoves.StopRightTarget | pkg/player/player.go:241-245 | releasing right leads to walking left exactly when left is held, and otherwise to standing facing right |
| PlayerMoves.StopLeftTarget | pkg/player/player.go:254-258 | releasing left leads to walking right exactly when right is held, and otherwise to standing facing left |
| PlayerMoves.JumpTarget | pkg/player/player.go:272-287 | the take-off pose faces right exactly when the player faces right; it is a leap exactly when the player walks the way it faces |
| PlayerMoves.EndJumpTarget | pkg/player/player.go:294-305 | a held key wins (left first); otherwise the player stands the way the jump faced; there is no target exactly when no key is held and the jump faced no direction |
| PlayerMoves.JumpTargetLeadsToApex | pkg/player/player.go:272-287 | every take-off pose leads through the start-up table to the matching jump 2, then jump 3, which has no edge |
| PlayerMoves.EndJumpTargetContinues | pkg/player/player.go:294-305 | every landing target leads into a breathing or walk loop with a positive duration, however the walk poses were swapped |
| PlayerMoves.StopTargetsContinue | pkg/player/player.go:240-264 | every stop target leads into a breathing or walk loop with a positive duration |
| PlayerMoves.SwapKeepsSwappedPoses | pkg/player/player.go:247-250 | a swap of either pair of walk poses keeps them among the original pair and its swap |
| PlayerMoves.StopMovingRight | pkg/player/player.go:240-251 | the blend restarts toward the stop target over WalkTransitionFrames; right intent is cleared; the right walk poses are swapped and the left ones kept |
| PlayerMoves.StopMovingLeft | pkg/player/player.go:253-264 | the mirror image: toward the left stop target, left intent cleared, left walk poses swapped |
| PlayerMoves.ContinueStance | pkg/player/player.go:266-270 | the blend restarts, in the same walking state, toward the table's continuation of the current target, over its duration |
| PlayerMoves.StartJump | pkg/player/player.go:272-287 | the blend restarts toward the take-off target over JumpTransitionFrames |
| PlayerMoves.ActualJump | pkg/player/player.go:289-292 | the jump entry becomes a fresh cell holding (0, 0.5); every other entry keeps its cell and value; cells stay distinct |
| PlayerMoves.EndJump | pkg/player/player.go:294-305 | the blend restarts toward the landing target over JumpTransitionFrames, or the player is unchanged when there is none |
| PlayerMoves.UpdateStance | pkg/player/player.go:307-310 | the displayed stance becomes the blend at the current frame: the source's joints at frame 0, the target at the last frame; nothing else changes |

## Left out

- IK, the Position*Foot/Hand helpers and SetPlayerHeight are not modelled. They are trigonometry over float64, and `real` has no sine or cosine.
- Drawing is not modelled: DrawPlayer and the draw_* helpers, GetPXY, DrawImage and ResizeImage. They are rendering through the graphics library.
- Audio, the settings UI, world loading and the other globals (viewport, images, fonts) are not modelled. They are I/O.
- The `fmt.Print(0)` in ConfineToPlace's airborne branch is not modelled. It is console output.
- Float64 rounding, NaN and infinities are not modelled. All arithmetic is on exact reals, so the damping lemmas describe the exact values.
- Core.ShiftStanceAtEnd: "the last frame gives exactly the target" holds over reals only. In float64 `1.0*(b-a)+a` need not round back to `b`. The same applies to the last-frame clause of PlayerMoves.UpdateStance.
- No game loop is modelled. The order and frequency in which the transitions, `UpdateStance` and `Move` are called, and the advance of the animation frame, are not part of these files. Each transition is proved on its own.
- Core.ShiftStance: requires a positive frame count. With 0 frames the source divides by zero in float64. A table lookup that finds no edge, as from jump 3, sets such a duration.
- PlayerMoves.UpdateStance: requires a positive frame count, for the same reason as Core.ShiftStance.
- Physics.GroundedSnapStable: only when the snap keeps the component in its row of cells. A snap into another row changes the cells that are searched, so a second query can differ.
- Physics.ConfineIdempotent: requires the same row-of-cells condition, and a width no larger than the span between the borders.
- The PhysicsComponent fields that none of the modelled operations read are not modelled. Neither are the Player fields used only by drawing.

## Findings

| source | as written | input that shows it | evidently intended | confidence | as-written member | corrected member |
|---|---|---|---|---|---|---|
| pkg/physics/physics.go:42-43 | the leftward blocker test requires the thing's right edge to be RIGHT of the component's left edge (`thing.X + thing.Width > p.X`), which makes the gap test always true | player at (10, 0), width 0.25, height 1; solid log at (10.5, 0), size 0.3: the log lies to the right, yet walking left is refused. Log at (9.65, 0): it touches the player's left within the 0.1 gap, yet walking left is allowed | the mirror of the rightward test: the thing ends left of the component (`thing.X + thing.Width < p.X`) and within the gap | not executed | Physics.BlocksLeftAcceptsThingOnTheRight | Physics.MirroredLeftIsReflectedRight |
| pkg/physics/physics.go:135-137 | the right-slant top is the thing's y plus `thing.X - (p.X + p.Width)`, with no width term; since a considered thing starts at or left of the component's right side, the added term is never positive | ramp of type right slant at (10, 0), size 1 by 1; player at (10.2, 0.5), width 0.25: the ramp is considered, its top is -0.45, so it is ignored and cannot hold the player up | the mirror of the left slant: `thing.Y + (thing.X + thing.Width - (p.X + p.Width))`, a top rising from the base at the right edge to base plus width at the left edge (0.55 here) | not executed | Physics.RightSlantNeverRises | Physics.CorrectedTopIsMirrorSymmetric |
