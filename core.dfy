// The shared data model of the westpunk character core: vectors, stances and
// their blend, the continuation table lookup, the animation state change, the
// chunk window, and the per-entity physics and player records.
//
// Go's float64 is modelled as `real` (no rounding, no NaN/Inf), Go's `int`
// as `int`, and Go's truncating float-to-int conversion as `Trunc`.

module Core {

  datatype Option<T> = None | Some(value: T)

  /** Go's `int(f)` for a float64 `f`: truncation toward zero. */
  function Trunc(r: real): (n: int)
    ensures 0.0 <= r ==> n as real <= r < n as real + 1.0
    ensures r < 0.0 ==> n as real - 1.0 < r <= n as real
  {
    if r >= 0.0 then r.Floor else -((-r).Floor)
  }

  // ---------------------------------------------------------------------------
  // Vector2

  /** A Vector2 as a value: the contents of a position, a motion or a force. */
  datatype Vec2 = Vec2(x: real, y: real)
  {
    function Plus(other: Vec2): Vec2 { Vec2(x + other.x, y + other.y) }
    function Times(coeff: real): Vec2 { Vec2(x * coeff, y * coeff) }
  }

  const Zero: Vec2 := Vec2(0.0, 0.0)

  /** A heap-allocated Vector2: the target of a `*Vector2` in a force map. */
  class Vector2 {
    var x: real
    var y: real

    constructor (x0: real, y0: real)
      ensures x == x0 && y == y0
    {
      x, y := x0, y0;
    }

    function Value(): Vec2
      reads this
    {
      Vec2(x, y)
    }

    /** Scales this vector in place. */
    method Scale(coeff: real)
      modifies this
      ensures x == old(x) * coeff && y == old(y) * coeff
    {
      x := x * coeff;
      y := y * coeff;
    }

    /** Adds `other` to this vector in place; `other` is passed by value. */
    method Add(other: Vec2)
      modifies this
      ensures x == old(x) + other.x && y == old(y) + other.y
    {
      x := x + other.x;
      y := y + other.y;
    }
  }

  // ---------------------------------------------------------------------------
  // Enumerations

  datatype AnimationType =
    | Standing
    | WalkingRight
    | WalkingLeft
    | JumpingRight
    | JumpingLeft
    | LeapingRight
    | LeapingLeft

  /** A Go `Direction` is an int; its zero value (the direction of a zero
      `Stance`) is neither of the two named directions. */
  datatype Direction = NoDirection | Right | Left

  datatype ForceType = Gravity | Jump | Knockback

  datatype ObstructionType = Obstructive | Unobstructive | RightSlant45 | LeftSlant45

  // ---------------------------------------------------------------------------
  // Constants

  const WalkTransitionFrames: int := 20
  const StepFrames: int := 25
  const VibeFrames: int := 50
  const JumpTransitionFrames: int := 10
  const JumpTimeFrames: int := 10

  const PlaceWidth: real := 256.0
  const PlaceHeight: real := 128.0
  const PlayerWidth: real := 0.25
  const GroundY: real := 0.0
  const ScreenHeight: real := 540.0
  const ScreenWidth: real := 810.0
  const PixelYardRatio: real := 70.0
  const PlayerWalkSpeed: real := 0.09

  // ---------------------------------------------------------------------------
  // Stances

  /** Thirteen joint angles (radians, not normalised) and a facing direction. */
  datatype Stance = Stance(
    head: real,
    torso: real,
    rightUpperArm: real,
    leftUpperArm: real,
    rightLowerArm: real,
    leftLowerArm: real,
    rightUpperLeg: real,
    leftUpperLeg: real,
    rightLowerLeg: real,
    leftLowerLeg: real,
    rightFoot: real,
    leftFoot: real,
    weapon: real,
    direction: Direction)

  const JointCount: nat := 13

  /** The joint angles of a stance, in declaration order. */
  function Joints(s: Stance): (j: seq<real>)
    ensures |j| == JointCount
  {
    [s.head, s.torso, s.rightUpperArm, s.leftUpperArm, s.rightLowerArm, s.leftLowerArm,
     s.rightUpperLeg, s.leftUpperLeg, s.rightLowerLeg, s.leftLowerLeg,
     s.rightFoot, s.leftFoot, s.weapon]
  }

  /** The zero value of a Go `Stance`. */
  const ZeroStance: Stance :=
    Stance(0.0, 0.0, 0.0, 0.0, 0.0, 0.0, 0.0, 0.0, 0.0, 0.0, 0.0, 0.0, 0.0, NoDirection)

  /** The point `c` of the way from `a` to `b`. */
  function Lerp(a: real, b: real, c: real): real
  {
    c * (b - a) + a
  }

  /** The stance `frame/frames` of the way from `s1` to `s2`, facing as `s2`. */
  function ShiftStance(s1: Stance, s2: Stance, frame: int, frames: int): (r: Stance)
    requires frames > 0
    ensures r.direction == s2.direction
    ensures forall i :: 0 <= i < JointCount ==>
      Joints(r)[i] == Lerp(Joints(s1)[i], Joints(s2)[i], frame as real / frames as real)
  {
    var c := frame as real / frames as real;
    Stance(
      Lerp(s1.head, s2.head, c),
      Lerp(s1.torso, s2.torso, c),
      Lerp(s1.rightUpperArm, s2.rightUpperArm, c),
      Lerp(s1.leftUpperArm, s2.leftUpperArm, c),
      Lerp(s1.rightLowerArm, s2.rightLowerArm, c),
      Lerp(s1.leftLowerArm, s2.leftLowerArm, c),
      Lerp(s1.rightUpperLeg, s2.rightUpperLeg, c),
      Lerp(s1.leftUpperLeg, s2.leftUpperLeg, c),
      Lerp(s1.rightLowerLeg, s2.rightLowerLeg, c),
      Lerp(s1.leftLowerLeg, s2.leftLowerLeg, c),
      Lerp(s1.rightFoot, s2.rightFoot, c),
      Lerp(s1.leftFoot, s2.leftFoot, c),
      Lerp(s1.weapon, s2.weapon, c),
      s2.direction)
  }

  /** At frame 0 the blend shows `s1`'s joints (turned to face as `s2`). */
  lemma ShiftStanceAtStart(s1: Stance, s2: Stance, frames: int)
    requires frames > 0
    ensures Joints(ShiftStance(s1, s2, 0, frames)) == Joints(s1)
    ensures ShiftStance(s1, s2, 0, frames) == s1.(direction := s2.direction)
  {
    var r := ShiftStance(s1, s2, 0, frames);
    assert forall i :: 0 <= i < JointCount ==> Joints(r)[i] == Joints(s1)[i];
  }

  /** At the last frame the blend is exactly `s2`. */
  lemma ShiftStanceAtEnd(s1: Stance, s2: Stance, frames: int)
    requires frames > 0
    ensures ShiftStance(s1, s2, frames, frames) == s2
  {
    var f := frames as real;
    DivideBySelf(f);
    var c := f / f;
    assert forall a, b :: Lerp(a, b, c) == b;
  }

  lemma DivideBySelf(f: real)
    requires f > 0.0
    ensures f / f == 1.0
  {
  }

  lemma ProductNonNegative(x: real, y: real)
    requires 0.0 <= x && 0.0 <= y
    ensures 0.0 <= x * y
  {
  }

  lemma LerpBetween(a: real, b: real, c: real)
    requires 0.0 <= c <= 1.0
    ensures a <= b ==> a <= Lerp(a, b, c) <= b
    ensures b <= a ==> b <= Lerp(a, b, c) <= a
  {
    if a <= b {
      ProductNonNegative(c, b - a);
      ProductNonNegative(1.0 - c, b - a);
    } else {
      ProductNonNegative(c, a - b);
      ProductNonNegative(1.0 - c, a - b);
    }
  }

  /** For 0 <= frame <= frames every joint lies between its two endpoints. */
  lemma ShiftStanceBetween(s1: Stance, s2: Stance, frame: int, frames: int)
    requires 0 <= frame <= frames && frames > 0
    ensures forall i :: 0 <= i < JointCount ==>
      (Joints(s1)[i] <= Joints(s2)[i] ==>
         Joints(s1)[i] <= Joints(ShiftStance(s1, s2, frame, frames))[i] <= Joints(s2)[i]) &&
      (Joints(s2)[i] <= Joints(s1)[i] ==>
         Joints(s2)[i] <= Joints(ShiftStance(s1, s2, frame, frames))[i] <= Joints(s1)[i])
  {
    var c := frame as real / frames as real;
    assert 0.0 <= c <= 1.0;
    var r := ShiftStance(s1, s2, frame, frames);
    forall i | 0 <= i < JointCount
      ensures Joints(s1)[i] <= Joints(s2)[i] ==> Joints(s1)[i] <= Joints(r)[i] <= Joints(s2)[i]
      ensures Joints(s2)[i] <= Joints(s1)[i] ==> Joints(s2)[i] <= Joints(r)[i] <= Joints(s1)[i]
    {
      LerpBetween(Joints(s1)[i], Joints(s2)[i], c);
    }
  }

  // ---------------------------------------------------------------------------
  // The stance continuation table

  /** A directed edge of the pose graph: after `start`, blend to
      `continuation` over `frames` frames. */
  datatype StanceContinuation = StanceContinuation(start: Stance, continuation: Stance, frames: int)

  /** The package-level table the continuation lookup searches. */
  class ContinuationTable {
    var entries: seq<StanceContinuation>

    constructor ()
      ensures entries == []
    {
      entries := [];
    }
  }

  /** The index of the first entry whose start equals `s`, or |table| if none. */
  function FirstMatch(table: seq<StanceContinuation>, s: Stance): (k: nat)
    ensures k <= |table|
    ensures forall j :: 0 <= j < k ==> table[j].start != s
    ensures k < |table| ==> table[k].start == s
  {
    if table == [] then 0
    else if table[0].start == s then 0
    else 1 + FirstMatch(table[1..], s)
  }

  /** What the lookup of `s` yields: the first matching entry's continuation
      and frame count, or `s` itself with 0 frames. */
  function Continuation(table: seq<StanceContinuation>, s: Stance): (Stance, int)
  {
    var k := FirstMatch(table, s);
    if k < |table| then (table[k].continuation, table[k].frames) else (s, 0)
  }

  /** The first entry whose start equals `s` decides the lookup. */
  lemma ContinuationIsFirstMatch(table: seq<StanceContinuation>, s: Stance, i: int)
    requires 0 <= i < |table| && table[i].start == s
    requires forall j :: 0 <= j < i ==> table[j].start != s
    ensures Continuation(table, s) == (table[i].continuation, table[i].frames)
  {
  }

  /** When no entry starts with `s`, the lookup yields `(s, 0)`. */
  lemma ContinuationWhenUnmatched(table: seq<StanceContinuation>, s: Stance)
    requires forall j :: 0 <= j < |table| ==> table[j].start != s
    ensures Continuation(table, s) == (s, 0)
  {
  }

  /** Linear search of the table, returning at the first match. */
  method GetContinuation(table: seq<StanceContinuation>, s: Stance) returns (next: Stance, frames: int)
    ensures (next, frames) == Continuation(table, s)
  {
    var i := 0;
    while i < |table|
      invariant 0 <= i <= |table|
      invariant forall j :: 0 <= j < i ==> table[j].start != s
    {
      if table[i].start == s {
        ContinuationIsFirstMatch(table, s, i);
        return table[i].continuation, table[i].frames;
      }
      i := i + 1;
    }
    ContinuationWhenUnmatched(table, s);
    return s, 0;
  }

  // ---------------------------------------------------------------------------
  // The world grid

  datatype Coordinate = Coordinate(x: int, y: int)

  datatype Chunk = Chunk(startX: int, startY: int, endX: int, endY: int)

  /** The parts of a PhysicsComponent that the grid queries read: its base
      point (the foot position) and its extent. */
  datatype Footprint = Footprint(position: Vec2, width: real, height: real)

  /** A static thing on the grid; it is never changed after placement. */
  datatype ThingInstance = ThingInstance(thingType: int, physics: Footprint)

  type Grid = map<Coordinate, seq<ThingInstance>>

  type ObstructionTable = map<int, ObstructionType>

  /** A grid cell; a missing cell reads as an empty list. */
  function Cell(grid: Grid, c: Coordinate): (things: seq<ThingInstance>)
    ensures c !in grid ==> things == []
  {
    if c in grid then grid[c] else []
  }

  /** The obstruction class of a thing type; `None` for a type missing from
      the table (Go reads the zero value, which is none of the four). */
  function ObstructionOf(table: ObstructionTable, t: int): Option<ObstructionType>
  {
    if t in table then Some(table[t]) else None
  }

  /** Half the screen height, and width, in whole grid units, rounded down. */
  const VerticalMargin: int := (0.75 * ScreenHeight / PixelYardRatio).Floor
  const HorizontalMargin: int := (0.75 * ScreenWidth / PixelYardRatio).Floor

  /** The window of cells around a component that is loaded: a margin around
      the component, cut to the place. */
  function GetChunk(p: Footprint): (chunk: Chunk)
    ensures 0 <= chunk.startX && 0 <= chunk.startY
    ensures chunk.endX <= PlaceWidth.Floor && chunk.endY <= PlaceHeight.Floor
    // each side moves in from the place's edge exactly when the shifted side
    // lies strictly inside the place, and then it is the shifted side
    ensures chunk.startY > 0 <==> p.position.y.Floor - VerticalMargin > 0
    ensures chunk.startY > 0 ==> chunk.startY == p.position.y.Floor - VerticalMargin
    ensures chunk.endY < PlaceHeight.Floor <==>
      (p.position.y + p.height).Floor + VerticalMargin < PlaceHeight.Floor
    ensures chunk.endY < PlaceHeight.Floor ==>
      chunk.endY == (p.position.y + p.height).Floor + VerticalMargin
    ensures chunk.startX > 0 <==> p.position.x.Floor - HorizontalMargin > 0
    ensures chunk.startX > 0 ==> chunk.startX == p.position.x.Floor - HorizontalMargin
    ensures chunk.endX < PlaceWidth.Floor <==>
      (p.position.x + p.width).Floor + HorizontalMargin < PlaceWidth.Floor
    ensures chunk.endX < PlaceWidth.Floor ==>
      chunk.endX == (p.position.x + p.width).Floor + HorizontalMargin
  {
    var startY := if p.position.y.Floor - VerticalMargin > 0
                  then p.position.y.Floor - VerticalMargin else 0;
    var endY := if (p.position.y + p.height).Floor + VerticalMargin < PlaceHeight.Floor
                then (p.position.y + p.height).Floor + VerticalMargin else PlaceHeight.Floor;
    var startX := if p.position.x.Floor - HorizontalMargin > 0
                  then p.position.x.Floor - HorizontalMargin else 0;
    var endX := if (p.position.x + p.width).Floor + HorizontalMargin < PlaceWidth.Floor
                then (p.position.x + p.width).Floor + HorizontalMargin else PlaceWidth.Floor;
    Chunk(startX, startY, endX, endY)
  }

  /** A component lying inside the place lies inside its own chunk. */
  lemma ChunkCoversComponent(p: Footprint)
    requires 0.0 <= p.width && 0.0 <= p.height
    requires 0.0 <= p.position.x && p.position.x + p.width <= PlaceWidth
    requires 0.0 <= p.position.y && p.position.y + p.height <= PlaceHeight
    ensures GetChunk(p).startX <= p.position.x.Floor
    ensures (p.position.x + p.width).Floor <= GetChunk(p).endX
    ensures GetChunk(p).startY <= p.position.y.Floor
    ensures (p.position.y + p.height).Floor <= GetChunk(p).endY
  {
    assert VerticalMargin == 5 && HorizontalMargin == 8;
  }

  // ---------------------------------------------------------------------------
  // Physics components and the player

  /** No two force kinds share one cell. */
  ghost predicate DistinctCells(forces: map<ForceType, Vector2>)
  {
    forall k1, k2 :: k1 in forces && k2 in forces && k1 != k2 ==> forces[k1] != forces[k2]
  }

  /** The current value of every cell of a force map. */
  function CellValues(forces: map<ForceType, Vector2>): map<ForceType, Vec2>
    reads forces.Values
  {
    map k | k in forces :: forces[k].Value()
  }

  /** The physics state of an entity. `forces` maps each force kind present to
      its own heap cell, which the integrator damps in place. */
  class PhysicsComponent {
    var position: Vec2
    var motion: Vec2
    var forces: map<ForceType, Vector2>
    var height: real
    var width: real
    var grounded: bool

    /** No two force kinds share one cell. */
    ghost predicate Valid()
      reads this
    {
      DistinctCells(forces)
    }

    function Body(): Footprint
      reads this
    {
      Footprint(position, width, height)
    }

    /** The current value of every force entry. */
    function ForceValues(): map<ForceType, Vec2>
      reads this, forces.Values
    {
      CellValues(forces)
    }

    /** The main player's initial physics state. */
    constructor Initial()
      ensures Valid()
      ensures position == Vec2(70.0, 0.0) && motion == Zero
      ensures forces.Keys == {Gravity, Jump} && fresh(forces.Values)
      ensures ForceValues() == map[Gravity := Zero, Jump := Zero]
      ensures height == 1.0 && width == PlayerWidth && !grounded
    {
      position := Vec2(70.0, 0.0);
      motion := Zero;
      var gravity := new Vector2(0.0, 0.0);
      var jump := new Vector2(0.0, 0.0);
      forces := map[Gravity := gravity, Jump := jump];
      height := 1.0;
      width := PlayerWidth;
      grounded := false;
    }
  }

  /** A character: its physics, its displayed stance, the blend it is in and
      the animation state. */
  class Player {
    const physics: PhysicsComponent
    var stance: Stance
    var walkingStanceFrom: Stance
    var walkingStanceTo: Stance
    var walkingAnimationFrame: int
    var walkingAnimationFrames: int
    var movingLeft: bool
    var movingRight: bool
    var walkingState: AnimationType

    /** The main player as the game starts: standing, at the start of a
        VibeFrames blend, with every stance the zero stance. */
    constructor MainPlayer()
      ensures fresh(physics) && physics.Valid() && fresh(physics.forces.Values)
      ensures physics.position == Vec2(70.0, 0.0) && physics.motion == Zero
      ensures physics.ForceValues() == map[Gravity := Zero, Jump := Zero]
      ensures physics.height == 1.0 && physics.width == PlayerWidth && !physics.grounded
      ensures walkingState == Standing
      ensures walkingAnimationFrame == 0 && walkingAnimationFrames == VibeFrames
      ensures !movingLeft && !movingRight
      ensures stance == ZeroStance && walkingStanceFrom == ZeroStance && walkingStanceTo == ZeroStance
    {
      physics := new PhysicsComponent.Initial();
      stance, walkingStanceFrom, walkingStanceTo := ZeroStance, ZeroStance, ZeroStance;
      walkingAnimationFrame, walkingAnimationFrames := 0, VibeFrames;
      movingLeft, movingRight := false, false;
      walkingState := Standing;
    }
  }

  /** What ChangeWalkState does to a player: the new state, target and
      duration, a blend restarted at frame 0 from the displayed stance. The
      displayed stance itself is not touched. */
  twostate predicate WalkStateChanged(p: Player, state: AnimationType, to: Stance, frames: int)
    reads p
  {
    && p.walkingState == state
    && p.walkingStanceTo == to
    && p.walkingAnimationFrames == frames
    && p.walkingStanceFrom == old(p.stance)
    && p.walkingAnimationFrame == 0
    && p.stance == old(p.stance)
  }

  /** Start a new blend toward `newStance`; a duration of 0 is accepted. */
  method ChangeWalkState(p: Player, state: AnimationType, newStance: Stance, frames: int)
    modifies p
    ensures WalkStateChanged(p, state, newStance, frames)
    ensures p.movingLeft == old(p.movingLeft) && p.movingRight == old(p.movingRight)
  {
    p.walkingState := state;
    p.walkingStanceTo := newStance;
    p.walkingAnimationFrames := frames;
    p.walkingStanceFrom := p.stance;
    p.walkingAnimationFrame := 0;
  }
}
