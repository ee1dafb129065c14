// The force integrator, the clamp to the place, and the grid queries that
// decide whether a component is standing on something and whether it may
// walk left or right.

module Physics {
  import opened Core

  /** The place edges, inset by half a screen so the camera never shows
      outside the place. */
  const RightBorder: real := PlaceWidth - (0.5 * ScreenWidth / PixelYardRatio)
  const LeftBorder: real := 0.5 * ScreenWidth / PixelYardRatio

  /** The tolerance band within which a thing beside a component blocks it. */
  const BlockingGap: real := 0.1

  /** Downward acceleration added to an airborne gravity force every step. */
  const GravityStep: Vec2 := Vec2(0.0, -0.03)

  /** Every force entry keeps this fraction of itself every step. */
  const Damping: real := 0.8

  // ---------------------------------------------------------------------------
  // Walking left and right

  /** The cells scanned for a blocker on the right: the component's own cell
      and the next one to the right. */
  function RightNeighbours(grid: Grid, p: Footprint): (things: seq<ThingInstance>)
    ensures forall t :: t in things <==>
      t in Cell(grid, Coordinate(Trunc(p.position.x), Trunc(p.position.y)))
      || t in Cell(grid, Coordinate(Trunc(p.position.x) + 1, Trunc(p.position.y)))
  {
    var cx, cy := Trunc(p.position.x), Trunc(p.position.y);
    Cell(grid, Coordinate(cx, cy)) + Cell(grid, Coordinate(cx + 1, cy))
  }

  /** The cells scanned for a blocker on the left: the component's own cell
      and the next one to the left. */
  function LeftNeighbours(grid: Grid, p: Footprint): (things: seq<ThingInstance>)
    ensures forall t :: t in things <==>
      t in Cell(grid, Coordinate(Trunc(p.position.x), Trunc(p.position.y)))
      || t in Cell(grid, Coordinate(Trunc(p.position.x) - 1, Trunc(p.position.y)))
  {
    var cx, cy := Trunc(p.position.x), Trunc(p.position.y);
    Cell(grid, Coordinate(cx, cy)) + Cell(grid, Coordinate(cx - 1, cy))
  }

  /** The vertical spans [y - height, y] of the two overlap (closed). */
  predicate VerticalOverlap(t: Footprint, p: Footprint)
  {
    t.position.y >= p.position.y - p.height && p.position.y >= t.position.y - t.height
  }

  /** A solid or right-slanted thing starting less than the gap to the right
      of the component, at its height. */
  predicate BlocksRight(table: ObstructionTable, thing: ThingInstance, p: Footprint)
  {
    var ot := ObstructionOf(table, thing.thingType);
    && (ot == Some(RightSlant45) || ot == Some(Obstructive))
    && thing.physics.position.x > p.position.x + p.width
    && thing.physics.position.x - (p.position.x + p.width) < BlockingGap
    && VerticalOverlap(thing.physics, p)
  }

  /** The leftward test as the source writes it: a solid or left-slanted thing
      whose right edge is right of the component's left edge, at its height. */
  predicate BlocksLeft(table: ObstructionTable, thing: ThingInstance, p: Footprint)
  {
    var ot := ObstructionOf(table, thing.thingType);
    && (ot == Some(LeftSlant45) || ot == Some(Obstructive))
    && thing.physics.position.x + thing.physics.width > p.position.x
    && p.position.x - (thing.physics.position.x + thing.physics.width) < BlockingGap
    && VerticalOverlap(thing.physics, p)
  }

  /** A thing type missing from the obstruction table never blocks. */
  lemma UnlistedThingsNeverBlock(table: ObstructionTable, thing: ThingInstance, p: Footprint)
    requires thing.thingType !in table
    ensures !BlocksRight(table, thing, p) && !BlocksLeft(table, thing, p)
  {
  }

  /** The component may walk right unless a thing in the two scanned cells
      blocks it, and then only while its right side is left of the border. */
  method CanMoveRight(grid: Grid, table: ObstructionTable, p: PhysicsComponent) returns (ok: bool)
    ensures ok <==>
      (forall t :: t in RightNeighbours(grid, p.Body()) ==> !BlocksRight(table, t, p.Body()))
      && p.position.x + p.width < RightBorder
  {
    var body := p.Body();
    var things := RightNeighbours(grid, body);
    var i := 0;
    while i < |things|
      invariant 0 <= i <= |things|
      invariant forall j :: 0 <= j < i ==> !BlocksRight(table, things[j], body)
    {
      if BlocksRight(table, things[i], body) {
        return false;
      }
      i := i + 1;
    }
    return p.position.x + p.width < RightBorder;
  }

  /** The component may walk left unless a thing in the two scanned cells
      blocks it (as the source tests it), and then only while it is right of
      the left border. */
  method CanMoveLeft(grid: Grid, table: ObstructionTable, p: PhysicsComponent) returns (ok: bool)
    ensures ok <==>
      (forall t :: t in LeftNeighbours(grid, p.Body()) ==> !BlocksLeft(table, t, p.Body()))
      && p.position.x > LeftBorder
  {
    var body := p.Body();
    var things := LeftNeighbours(grid, body);
    var i := 0;
    while i < |things|
      invariant 0 <= i <= |things|
      invariant forall j :: 0 <= j < i ==> !BlocksLeft(table, things[j], body)
    {
      if BlocksLeft(table, things[i], body) {
        return false;
      }
      i := i + 1;
    }
    return p.position.x > LeftBorder;
  }

  /** The source's leftward test accepts a solid thing lying wholly to the
      RIGHT of the component, so such a thing stops it walking left. */
  lemma BlocksLeftAcceptsThingOnTheRight()
    ensures var table: ObstructionTable := map[1 := Obstructive];
            var player := Footprint(Vec2(10.0, 0.0), PlayerWidth, 1.0);
            var log := ThingInstance(1, Footprint(Vec2(10.5, 0.0), 0.3, 0.3));
            && player.position.x + player.width < log.physics.position.x
            && BlocksLeft(table, log, player)
            && !BlocksLeftMirrored(table, log, player)
  {
  }

  /** ... and lets through a solid thing touching the component's left side,
      which the mirrored test stops. */
  lemma BlocksLeftIgnoresThingOnTheLeft()
    ensures var table: ObstructionTable := map[1 := Obstructive];
            var player := Footprint(Vec2(10.0, 0.0), PlayerWidth, 1.0);
            var log := ThingInstance(1, Footprint(Vec2(9.65, 0.0), 0.3, 0.3));
            && 0.0 < player.position.x - (log.physics.position.x + log.physics.width) < BlockingGap
            && !BlocksLeft(table, log, player)
            && BlocksLeftMirrored(table, log, player)
  {
  }

  /** The leftward test as the mirror image of the rightward one: a solid or
      left-slanted thing ending less than the gap to the left of the
      component, at its height. */
  predicate BlocksLeftMirrored(table: ObstructionTable, thing: ThingInstance, p: Footprint)
  {
    var ot := ObstructionOf(table, thing.thingType);
    && (ot == Some(LeftSlant45) || ot == Some(Obstructive))
    && thing.physics.position.x + thing.physics.width < p.position.x
    && p.position.x - (thing.physics.position.x + thing.physics.width) < BlockingGap
    && VerticalOverlap(thing.physics, p)
  }

  /** The leftward walk test with the mirrored blocker test. */
  method CanMoveLeftMirrored(grid: Grid, table: ObstructionTable, p: PhysicsComponent) returns (ok: bool)
    ensures ok <==>
      (forall t :: t in LeftNeighbours(grid, p.Body()) ==> !BlocksLeftMirrored(table, t, p.Body()))
      && p.position.x > LeftBorder
  {
    var body := p.Body();
    var things := LeftNeighbours(grid, body);
    var i := 0;
    while i < |things|
      invariant 0 <= i <= |things|
      invariant forall j :: 0 <= j < i ==> !BlocksLeftMirrored(table, things[j], body)
    {
      if BlocksLeftMirrored(table, things[i], body) {
        return false;
      }
      i := i + 1;
    }
    return p.position.x > LeftBorder;
  }

  /** The mirrored test is the rightward test reflected in the component's
      vertical axis: a thing blocks on the left exactly when its reflection
      blocks on the right, with the slant directions exchanged. */
  lemma MirroredLeftIsReflectedRight(table: ObstructionTable, thing: ThingInstance, p: Footprint)
    ensures BlocksLeftMirrored(table, thing, p) <==>
      BlocksRight(ReflectedTable(table), Reflect(thing, p), p)
  {
  }

  /** A slant's direction as seen in a mirror. */
  function ReflectObstruction(o: ObstructionType): ObstructionType
  {
    match o
    case LeftSlant45 => RightSlant45
    case RightSlant45 => LeftSlant45
    case other => other
  }

  function ReflectedTable(table: ObstructionTable): ObstructionTable
  {
    map t | t in table :: ReflectObstruction(table[t])
  }

  /** A thing reflected in the vertical axis through the middle of `p`. */
  function Reflect(thing: ThingInstance, p: Footprint): ThingInstance
  {
    var axis2 := 2.0 * p.position.x + p.width;
    var t := thing.physics;
    thing.(physics := t.(position := t.position.(x := axis2 - (t.position.x + t.width))))
  }

  /** Walking right adds the walk speed to the motion and nothing else. */
  method MoveRight(p: PhysicsComponent)
    modifies p
    ensures p.motion == Vec2(old(p.motion.x) + PlayerWalkSpeed, old(p.motion.y))
    ensures p.position == old(p.position) && p.forces == old(p.forces)
    ensures p.width == old(p.width) && p.height == old(p.height) && p.grounded == old(p.grounded)
  {
    p.motion := p.motion.Plus(Vec2(PlayerWalkSpeed, 0.0));
  }

  /** Walking left subtracts the walk speed from the motion and nothing else. */
  method MoveLeft(p: PhysicsComponent)
    modifies p
    ensures p.motion == Vec2(old(p.motion.x) - PlayerWalkSpeed, old(p.motion.y))
    ensures p.position == old(p.position) && p.forces == old(p.forces)
    ensures p.width == old(p.width) && p.height == old(p.height) && p.grounded == old(p.grounded)
  {
    p.motion := p.motion.Plus(Vec2(-PlayerWalkSpeed, 0.0));
  }

  // ---------------------------------------------------------------------------
  // Grounding

  /** The four cells searched for support, in the order the source appends
      them. The fourth is keyed by the component's y (not x) plus one, as the
      source writes it. */
  function GroundCandidates(grid: Grid, p: Footprint): (things: seq<ThingInstance>)
    ensures forall t :: t in things <==>
      var cx, cy := Trunc(p.position.x), Trunc(p.position.y);
      || t in Cell(grid, Coordinate(cx, cy)) || t in Cell(grid, Coordinate(cx, cy - 1))
      || t in Cell(grid, Coordinate(cx + 1, cy)) || t in Cell(grid, Coordinate(cy + 1, cy - 1))
  {
    var cx, cy := Trunc(p.position.x), Trunc(p.position.y);
    Cell(grid, Coordinate(cx, cy)) + Cell(grid, Coordinate(cx, cy - 1))
      + Cell(grid, Coordinate(cx + 1, cy)) + Cell(grid, Coordinate(cy + 1, cy - 1))
  }

  /** A thing can support the component when its class is not unobstructive
      (a type missing from the table counts) and it overlaps horizontally. */
  predicate Considered(table: ObstructionTable, thing: ThingInstance, p: Footprint)
  {
    && ObstructionOf(table, thing.thingType) != Some(Unobstructive)
    && !(p.position.x + p.width < thing.physics.position.x
         || thing.physics.position.x + thing.physics.width < p.position.x)
  }

  /** The height of a thing's top above the component's x: flat for a solid
      thing (and for a type missing from the table), rising to the right for
      a left slant, rising to the left for a right slant. */
  function TopAt(table: ObstructionTable, thing: ThingInstance, p: Footprint): (top: real)
    ensures ObstructionOf(table, thing.thingType) !in {Some(LeftSlant45), Some(RightSlant45)} ==>
      top == thing.physics.position.y + thing.physics.height
  {
    var t := thing.physics;
    var ot := ObstructionOf(table, thing.thingType);
    if ot == Some(LeftSlant45) then t.position.y + (p.position.x - t.position.x)
    else if ot == Some(RightSlant45) then t.position.y + (t.position.x - (p.position.x + p.width))
    else t.position.y + t.height
  }

  /** The right-slant top as the source writes it never rises above the
      thing's base for a thing the query considers: the overlap test puts
      the thing's left edge at or left of the component's right side, so the
      added term is never positive. */
  lemma RightSlantNeverRises(table: ObstructionTable, thing: ThingInstance, p: Footprint)
    requires ObstructionOf(table, thing.thingType) == Some(RightSlant45)
    requires Considered(table, thing, p)
    ensures TopAt(table, thing, p) <= thing.physics.position.y
  {
  }

  /** A one-yard ramp at (10, 0) rising to the left, and a component of
      height 1 whose feet are at 0.5 over its left part: as written the ramp
      is ignored (its top is below 0), the corrected top holds it up. */
  lemma RightSlantRampIgnored()
    ensures var table: ObstructionTable := map[2 := RightSlant45];
            var ramp := ThingInstance(2, Footprint(Vec2(10.0, 0.0), 1.0, 1.0));
            var player := Footprint(Vec2(10.2, 0.5), PlayerWidth, 1.0);
            && Considered(table, ramp, player)
            && TopAt(table, ramp, player) < 0.0
            && TopAtCorrected(table, ramp, player) >= player.position.y
            && TopAt(ReflectedTable(table), Reflect(ramp, player), player) != TopAt(table, ramp, player)
  {
  }

  /** The top with the right slant measured from the thing's right edge, so
      that it rises from the thing's base at its right edge to base plus
      width at its left edge, the mirror image of the left slant. */
  function TopAtCorrected(table: ObstructionTable, thing: ThingInstance, p: Footprint): (top: real)
    ensures ObstructionOf(table, thing.thingType) != Some(RightSlant45) ==> top == TopAt(table, thing, p)
    ensures ObstructionOf(table, thing.thingType) == Some(RightSlant45) && Considered(table, thing, p) ==>
      thing.physics.position.y - p.width <= top <= thing.physics.position.y + thing.physics.width
  {
    var t := thing.physics;
    if ObstructionOf(table, thing.thingType) == Some(RightSlant45)
    then t.position.y + (t.position.x + t.width - (p.position.x + p.width))
    else TopAt(table, thing, p)
  }

  /** The corrected top is symmetric under reflection in the component's
      vertical axis with the slants exchanged: the thing is considered
      exactly when its reflection is, and has the same top there. */
  lemma CorrectedTopIsMirrorSymmetric(table: ObstructionTable, thing: ThingInstance, p: Footprint)
    ensures Considered(table, thing, p) <==> Considered(ReflectedTable(table), Reflect(thing, p), p)
    ensures TopAtCorrected(table, thing, p) == TopAtCorrected(ReflectedTable(table), Reflect(thing, p), p)
  {
    var ot := ObstructionOf(table, thing.thingType);
    assert ObstructionOf(ReflectedTable(table), thing.thingType) ==
      if ot.Some? then Some(ReflectObstruction(ot.value)) else None;
  }

  /** The running maximum of the considered tops, starting from -1. */
  function MaxTop(things: seq<ThingInstance>, table: ObstructionTable, p: Footprint): real
  {
    if things == [] then -1.0
    else
      var m := MaxTop(things[..|things| - 1], table, p);
      var last := things[|things| - 1];
      if Considered(table, last, p) && TopAt(table, last, p) > m then TopAt(table, last, p) else m
  }

  /** MaxTop is the largest considered top, or -1 when every considered top
      is at most -1. */
  lemma {:induction false} MaxTopIsMaximum(things: seq<ThingInstance>, table: ObstructionTable, p: Footprint)
    ensures MaxTop(things, table, p) >= -1.0
    ensures forall i :: 0 <= i < |things| && Considered(table, things[i], p) ==>
      TopAt(table, things[i], p) <= MaxTop(things, table, p)
    ensures MaxTop(things, table, p) == -1.0 ||
      exists i :: 0 <= i < |things| && Considered(table, things[i], p) &&
        TopAt(table, things[i], p) == MaxTop(things, table, p)
  {
    if things != [] {
      var init := things[..|things| - 1];
      MaxTopIsMaximum(init, table, p);
      assert forall i :: 0 <= i < |init| ==> init[i] == things[i];
      var m := MaxTop(init, table, p);
      if m != -1.0 && MaxTop(things, table, p) == m {
        var i :| 0 <= i < |init| && Considered(table, init[i], p) && TopAt(table, init[i], p) == m;
        assert things[i] == init[i];
      }
    }
  }

  /** What the grounding query answers: whether the component stands on
      something, and the height of what it stands on. */
  function GroundQuery(grid: Grid, table: ObstructionTable, p: Footprint): (bool, real)
  {
    var things := GroundCandidates(grid, p);
    if |things| == 0 then (p.position.y <= GroundY + 0.01, GroundY)
    else
      var top := MaxTop(things, table, p);
      if top < 0.0 then (p.position.y <= GroundY + 0.01, GroundY)
      else (top >= p.position.y, top)
  }

  /** With no considered thing whose top is at least 0, the component stands
      on the ground line; otherwise the ground is the highest considered top,
      and the component stands on it exactly when some considered top is at
      or above its base. */
  lemma GroundQueryMeaning(grid: Grid, table: ObstructionTable, p: Footprint)
    ensures var things := GroundCandidates(grid, p);
      (forall i :: 0 <= i < |things| && Considered(table, things[i], p) ==> TopAt(table, things[i], p) < 0.0)
      ==> GroundQuery(grid, table, p) == (p.position.y <= GroundY + 0.01, GroundY)
    ensures var things := GroundCandidates(grid, p);
      (exists i :: 0 <= i < |things| && Considered(table, things[i], p) && TopAt(table, things[i], p) >= 0.0)
      ==> && (forall i :: 0 <= i < |things| && Considered(table, things[i], p) ==>
                TopAt(table, things[i], p) <= GroundQuery(grid, table, p).1)
          && (exists i :: 0 <= i < |things| && Considered(table, things[i], p) &&
                TopAt(table, things[i], p) == GroundQuery(grid, table, p).1)
          && (GroundQuery(grid, table, p).0 <==>
                exists i :: 0 <= i < |things| && Considered(table, things[i], p) &&
                  TopAt(table, things[i], p) >= p.position.y)
  {
    MaxTopIsMaximum(GroundCandidates(grid, p), table, p);
  }

  /** Reads the grid around the feet and reports grounding and ground height. */
  method Grounded(grid: Grid, table: ObstructionTable, p: Footprint) returns (grounded: bool, groundY: real)
    ensures (grounded, groundY) == GroundQuery(grid, table, p)
  {
    var things := GroundCandidates(grid, p);
    if |things| == 0 {
      return p.position.y <= GroundY + 0.01, GroundY;
    }
    var top := -1.0;
    var i := 0;
    while i < |things|
      invariant 0 <= i <= |things|
      invariant top == MaxTop(things[..i], table, p)
    {
      assert things[..i + 1][..i] == things[..i];
      var thing := things[i];
      if Considered(table, thing, p) {
        var thingTop := TopAt(table, thing, p);
        if thingTop > top {
          top := thingTop;
        }
      }
      i := i + 1;
    }
    assert things[..i] == things;
    if top < 0.0 {
      return p.position.y <= GroundY + 0.01, GroundY;
    }
    return top >= p.position.y, top;
  }

  /** The considered things and their tops depend on the component's x and
      width only, not on its y. */
  lemma {:induction false} MaxTopIgnoresY(things: seq<ThingInstance>, table: ObstructionTable, p: Footprint, y: real)
    ensures MaxTop(things, table, p.(position := p.position.(y := y))) == MaxTop(things, table, p)
  {
    if things != [] {
      MaxTopIgnoresY(things[..|things| - 1], table, p, y);
    }
  }

  /** Snapping a grounded component onto its ground height keeps it grounded
      at that height, provided the snap leaves it in the same row of cells
      (the cells searched depend on the truncated y). */
  lemma GroundedSnapStable(grid: Grid, table: ObstructionTable, p: Footprint)
    requires GroundQuery(grid, table, p).0
    requires Trunc(GroundQuery(grid, table, p).1) == Trunc(p.position.y)
    ensures var snapped := p.(position := p.position.(y := GroundQuery(grid, table, p).1));
      GroundQuery(grid, table, snapped) == GroundQuery(grid, table, p)
  {
    var g := GroundQuery(grid, table, p).1;
    var snapped := p.(position := p.position.(y := g));
    assert GroundCandidates(grid, snapped) == GroundCandidates(grid, p);
    MaxTopIgnoresY(GroundCandidates(grid, p), table, p, g);
  }

  // ---------------------------------------------------------------------------
  // Keeping a component inside the place

  /** The x that the clamp leaves: first pulled left so the right side is at
      the right border, then pushed right to the left border. */
  function ClampX(x: real, width: real): (r: real)
    ensures r >= LeftBorder
    ensures width <= RightBorder - LeftBorder ==> r + width <= RightBorder
    ensures LeftBorder <= x && x + width <= RightBorder ==> r == x
  {
    var pulled := if x + width > RightBorder then RightBorder - width else x;
    if pulled < LeftBorder then LeftBorder else pulled
  }

  /** The position and grounded flag after confinement of a component at
      `position`: x clamped, then grounded at the clamped x and snapped onto
      the ground height when grounded. */
  function Confined(grid: Grid, table: ObstructionTable, position: Vec2, width: real, height: real): (Vec2, bool)
  {
    var x := ClampX(position.x, width);
    var q := GroundQuery(grid, table, Footprint(Vec2(x, position.y), width, height));
    (Vec2(x, if q.0 then q.1 else position.y), q.0)
  }

  /** Confining twice is confining once, as long as a snap onto the ground
      keeps the component in its row of cells. */
  lemma ConfineIdempotent(grid: Grid, table: ObstructionTable, position: Vec2, width: real, height: real)
    requires 0.0 <= width <= RightBorder - LeftBorder
    requires Confined(grid, table, position, width, height).1 ==>
      Trunc(Confined(grid, table, position, width, height).0.y) == Trunc(position.y)
    ensures var c := Confined(grid, table, position, width, height);
      Confined(grid, table, c.0, width, height) == c
  {
    var x := ClampX(position.x, width);
    assert ClampX(x, width) == x;
    var body := Footprint(Vec2(x, position.y), width, height);
    if GroundQuery(grid, table, body).0 {
      GroundedSnapStable(grid, table, body);
    }
  }

  method ConfineToPlace(p: PhysicsComponent, grid: Grid, table: ObstructionTable)
    modifies p
    ensures (p.position, p.grounded) == Confined(grid, table, old(p.position), p.width, p.height)
    ensures p.motion == old(p.motion) && p.forces == old(p.forces)
    ensures p.width == old(p.width) && p.height == old(p.height)
  {
    var rightEdge := RightBorder;
    if p.position.x + p.width > rightEdge {
      p.position := p.position.(x := rightEdge - p.width);
    }
    var leftEdge := LeftBorder;
    if p.position.x < leftEdge {
      p.position := p.position.(x := leftEdge);
    }
    var groundY;
    p.grounded, groundY := Grounded(grid, table, p.Body());
    if p.grounded {
      p.position := p.position.(y := groundY);
    }
  }

  // ---------------------------------------------------------------------------
  // Integration

  /** One step of a force entry: gravity gains the downward step while
      airborne and is cleared while grounded; every entry is then damped. */
  function DampedForce(k: ForceType, v: Vec2, grounded: bool): Vec2
  {
    if k != Gravity then Vec2(v.x * Damping, v.y * Damping)
    else if grounded then Zero
    else Vec2((v.x + GravityStep.x) * Damping, (v.y + GravityStep.y) * Damping)
  }

  function DampedForces(forces: map<ForceType, Vec2>, grounded: bool): (r: map<ForceType, Vec2>)
    ensures r.Keys == forces.Keys
  {
    map k | k in forces :: DampedForce(k, forces[k], grounded)
  }

  /** The position reached by adding the motion and the (updated) forces
      present, in the order gravity, jump, knockback. */
  function Integrated(position: Vec2, motion: Vec2, forces: map<ForceType, Vec2>): Vec2
  {
    position.Plus(Impelled(motion, forces))
  }

  /** The motion with every entry present added, gravity first. */
  function Impelled(motion: Vec2, forces: map<ForceType, Vec2>): Vec2
  {
    WithEntry(WithEntry(WithEntry(motion, forces, Gravity), forces, Jump), forces, Knockback)
  }

  /** The motion with the entry of kind `k` added, when there is one. */
  function WithEntry(motion: Vec2, forces: map<ForceType, Vec2>, k: ForceType): Vec2
  {
    if k in forces then motion.Plus(forces[k]) else motion
  }

  lemma DampedEntry(forces: map<ForceType, Vec2>, grounded: bool, k: ForceType)
    ensures (k in DampedForces(forces, grounded)) == (k in forces)
    ensures k in forces ==> DampedForces(forces, grounded)[k] == DampedForce(k, forces[k], grounded)
  {
  }

  /** A damped entry after `n` steps without any new input. */
  function Decayed(v: Vec2, n: nat): Vec2
  {
    if n == 0 then v else Decayed(v, n - 1).Times(Damping)
  }

  /** A jump or knockback entry shrinks geometrically: after n steps it is
      0.8^n times what it was. */
  lemma {:induction false} DecayedIsDampedRepeatedly(k: ForceType, v: Vec2, n: nat)
    requires k != Gravity
    ensures DampedForce(k, Decayed(v, n), false) == Decayed(v, n + 1)
    ensures DampedForce(k, Decayed(v, n), true) == Decayed(v, n + 1)
  {
  }

  /** The jump impulse (0, 0.5) stays below 1e-6 from the 60th step on. */
  lemma JumpImpulseDecays(v: Vec2, n: nat)
    requires v == Vec2(0.0, 0.5) && n >= 60
    ensures 0.0 < Decayed(v, n).y < 0.000001
    ensures Decayed(v, n).x == 0.0
  {
    DecayedScales(v, n);
    PowerBound();
    DampingPowerShrinks(60, n);
  }

  lemma {:induction false} DampingPowerShrinks(m: nat, n: nat)
    requires m <= n
    ensures 0.0 < DampingPower(n) <= DampingPower(m)
  {
    if m < n {
      DampingPowerShrinks(m, n - 1);
    } else {
      DampingPowerPositive(n);
    }
  }

  lemma {:induction false} DampingPowerPositive(n: nat)
    ensures 0.0 < DampingPower(n)
  {
    if n > 0 {
      DampingPowerPositive(n - 1);
    }
  }

  /** 0.8 to the power n. */
  function DampingPower(n: nat): real
  {
    if n == 0 then 1.0 else DampingPower(n - 1) * Damping
  }

  lemma {:induction false} DecayedScales(v: Vec2, n: nat)
    ensures Decayed(v, n) == Vec2(v.x * DampingPower(n), v.y * DampingPower(n))
  {
    if n > 0 {
      DecayedScales(v, n - 1);
    }
  }

  lemma {:induction false} DampingPowerAdds(a: nat, b: nat)
    ensures DampingPower(a + b) == DampingPower(a) * DampingPower(b)
  {
    if b > 0 {
      DampingPowerAdds(a, b - 1);
    }
  }

  lemma PowerBound()
    ensures 0.0 < DampingPower(60) < 0.000002
  {
    assert DampingPower(1) == 0.8;
    assert DampingPower(2) == 0.64;
    assert DampingPower(3) == 0.512;
    assert DampingPower(4) == 0.4096;
    DampingPowerAdds(4, 4);
    assert DampingPower(8) == 0.16777216;
    DampingPowerAdds(8, 8);
    assert DampingPower(16) == 0.0281474976710656;
    DampingPowerAdds(16, 16);
    assert DampingPower(32) < 0.000793;
    DampingPowerAdds(32, 16);
    assert DampingPower(48) < 0.0000224;
    DampingPowerAdds(48, 8);
    assert DampingPower(56) < 0.00000376;
    DampingPowerAdds(56, 4);
  }

  /** Damps one force entry in place and returns its new value. */
  method StepForce(forces: map<ForceType, Vector2>, k: ForceType, grounded: bool) returns (v: Vec2)
    requires k in forces
    modifies forces[k]
    ensures v == forces[k].Value() == DampedForce(k, old(forces[k].Value()), grounded)
  {
    var force := forces[k];
    ghost var v0 := force.Value();
    if k == Gravity {
      if !grounded {
        force.Add(GravityStep);
        assert force.Value() == v0.Plus(GravityStep);
      } else {
        force.Scale(0.0);
        assert force.Value() == Zero == v0.Times(0.0);
      }
    }
    ghost var v1 := force.Value();
    assert v1 == if k != Gravity then v0 else if grounded then v0.Times(0.0) else v0.Plus(GravityStep);
    force.Scale(Damping);
    assert force.Value() == v1.Times(Damping);
    v := force.Value();
  }

  /** Damps the force entry of kind `k`, when there is one, and adds its new
      value to `motion`. */
  method ApplyForce(forces: map<ForceType, Vector2>, k: ForceType, grounded: bool, motion: Vec2)
    returns (m: Vec2)
    modifies if k in forces then {forces[k]} else {}
    ensures k in forces ==> forces[k].Value() == DampedForce(k, old(forces[k].Value()), grounded)
    ensures m == if k in forces then motion.Plus(DampedForce(k, old(forces[k].Value()), grounded)) else motion
  {
    m := motion;
    if k in forces {
      var v := StepForce(forces, k, grounded);
      m := m.Plus(v);
    }
  }

  /** The force pass of one step: every entry is damped in place, in the
      order gravity, jump, knockback, and added to the motion. */
  method ApplyForces(forces: map<ForceType, Vector2>, grounded: bool, motion: Vec2) returns (m: Vec2)
    requires DistinctCells(forces)
    modifies forces.Values
    ensures CellValues(forces) == DampedForces(old(CellValues(forces)), grounded)
    ensures m == Impelled(motion, DampedForces(old(CellValues(forces)), grounded))
  {
    ghost var before := CellValues(forces);
    ghost var after := DampedForces(before, grounded);
    DampedEntry(before, grounded, Gravity);
    DampedEntry(before, grounded, Jump);
    DampedEntry(before, grounded, Knockback);
    m := ApplyForce(forces, Gravity, grounded, motion);
    assert m == WithEntry(motion, after, Gravity);
    assert Jump in forces ==> forces[Jump].Value() == before[Jump];
    assert Knockback in forces ==> forces[Knockback].Value() == before[Knockback];
    ghost var m1 := m;
    m := ApplyForce(forces, Jump, grounded, m);
    assert m == WithEntry(m1, after, Jump);
    assert Gravity in forces ==> forces[Gravity].Value() == after[Gravity];
    assert Knockback in forces ==> forces[Knockback].Value() == before[Knockback];
    ghost var m2 := m;
    m := ApplyForce(forces, Knockback, grounded, m);
    assert m == WithEntry(m2, after, Knockback);
    assert Gravity in forces ==> forces[Gravity].Value() == after[Gravity];
    assert Jump in forces ==> forces[Jump].Value() == after[Jump];
    assert forall k :: k in forces ==> forces[k].Value() == after[k];
  }

  /** The integration half of a step: damp every force entry in place, add
      them to the motion, apply the motion and clear it. */
  method Integrate(p: PhysicsComponent)
    requires p.Valid()
    modifies p, p.forces.Values
    ensures p.forces == old(p.forces)
    ensures CellValues(p.forces) == DampedForces(old(CellValues(p.forces)), old(p.grounded))
    ensures p.position == Integrated(old(p.position), old(p.motion), CellValues(p.forces))
    ensures p.motion == Zero
    ensures p.grounded == old(p.grounded) && p.width == old(p.width) && p.height == old(p.height)
  {
    var motion := ApplyForces(p.forces, p.grounded, p.motion);
    p.position := p.position.Plus(motion);
    p.motion := Zero;  // scaling the motion by 0
  }

  /** One integration step: damp every force entry in place and add it to the
      motion, apply the motion, clear it, then confine to the place. */
  method Move(p: PhysicsComponent, grid: Grid, table: ObstructionTable)
    requires p.Valid()
    modifies p, p.forces.Values
    ensures p.Valid() && p.forces == old(p.forces)
    ensures CellValues(p.forces) == DampedForces(old(CellValues(p.forces)), old(p.grounded))
    ensures p.motion == Zero
    ensures (p.position, p.grounded) ==
      Confined(grid, table, Integrated(old(p.position), old(p.motion), CellValues(p.forces)),
               p.width, p.height)
    ensures p.width == old(p.width) && p.height == old(p.height)
  {
    Integrate(p);
    ghost var values := CellValues(p.forces);
    ConfineToPlace(p, grid, table);
    assert CellValues(p.forces) == values;
  }

  // ---------------------------------------------------------------------------
  // Collision

  /** Box test between two components, each spanning [x, x + width] by
      [y - height, y]. */
  function CollisionDetected(c1: Footprint, c2: Footprint): bool
  {
    && c1.position.x <= c2.position.x + c2.width
    && c1.position.x + c1.width >= c2.position.x
    && c1.position.y >= c2.position.y - c2.height
    && c1.position.y - c1.height <= c2.position.y
  }

  ghost predicate InBox(c: Footprint, x: real, y: real)
  {
    c.position.x <= x <= c.position.x + c.width && c.position.y - c.height <= y <= c.position.y
  }

  /** For boxes of non-negative size the test holds exactly when the two
      boxes share a point; it is therefore symmetric. */
  lemma CollisionMeansSharedPoint(c1: Footprint, c2: Footprint)
    requires c1.width >= 0.0 && c1.height >= 0.0 && c2.width >= 0.0 && c2.height >= 0.0
    ensures CollisionDetected(c1, c2) <==> exists x, y :: InBox(c1, x, y) && InBox(c2, x, y)
    ensures CollisionDetected(c1, c2) == CollisionDetected(c2, c1)
  {
    if CollisionDetected(c1, c2) {
      var x := if c1.position.x < c2.position.x then c2.position.x else c1.position.x;
      var y := if c1.position.y < c2.position.y then c1.position.y else c2.position.y;
      assert InBox(c1, x, y) && InBox(c2, x, y);
    }
  }
}
