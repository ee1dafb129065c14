/** The player's animation transitions. Each transition is one method that
    rewrites the player's blend state (and, for the stop transitions, the
    shared walk poses); where a transition chooses between targets, the
    choice is a function proved to have the properties the animation relies
    on: the target faces the right way, and the start-up continuation table
    takes it further. */
module PlayerMoves {
  import opened Core
  import opened Stances

  // ---------------------------------------------------------------------------
  // Targets chosen by the transitions

  /** Where releasing the right key leads: walking left when the left key is
      still held, otherwise standing facing right. */
  function StopRightTarget(movingLeft: bool, walkLeft1: Stance): (r: (AnimationType, Stance))
    ensures r.0 == WalkingLeft <==> movingLeft
    ensures r.0 == Standing <==> !movingLeft
    ensures !movingLeft ==> r.1.direction == Right
  {
    if movingLeft then (WalkingLeft, walkLeft1) else (Standing, RestRight1)
  }

  /** Where releasing the left key leads: walking right when the right key is
      still held, otherwise standing facing left. */
  function StopLeftTarget(movingRight: bool, walkRight1: Stance): (r: (AnimationType, Stance))
    ensures r.0 == WalkingRight <==> movingRight
    ensures r.0 == Standing <==> !movingRight
    ensures !movingRight ==> r.1.direction == Left
  {
    if movingRight then (WalkingRight, walkRight1) else (Standing, RestLeft1)
  }

  /** The take-off pose: a leap when walking the way the player faces, a jump
      on the spot otherwise. Anything that does not face right counts as
      facing left. */
  function JumpTarget(facing: Direction, state: AnimationType): (r: (AnimationType, Stance))
    ensures r.1.direction == (if facing == Right then Right else Left)
    ensures (r.0 == LeapingRight || r.0 == LeapingLeft) <==>
      (facing == Right && state == WalkingRight) || (facing != Right && state == WalkingLeft)
    ensures r.0 in {JumpingRight, LeapingRight} <==> facing == Right
  {
    if facing == Right then
      if state == WalkingRight then (LeapingRight, LeapRight) else (JumpingRight, JumpRight1)
    else
      if state == WalkingLeft then (LeapingLeft, LeapLeft) else (JumpingLeft, JumpLeft1)
  }

  /** Where a landing leads: walking left or right when a key is held (left
      first), otherwise standing the way the jump faced; nothing when the
      jump faced no direction. */
  function EndJumpTarget(movingLeft: bool, movingRight: bool, facing: Direction,
                         walkLeft1: Stance, walkRight1: Stance): (r: Option<(AnimationType, Stance)>)
    ensures r.None? <==> !movingLeft && !movingRight && facing == NoDirection
    ensures movingLeft ==> r == Some((WalkingLeft, walkLeft1))
    ensures !movingLeft && movingRight ==> r == Some((WalkingRight, walkRight1))
    ensures r.Some? && r.value.0 == Standing ==> r.value.1.direction == facing
  {
    if movingLeft then Some((WalkingLeft, walkLeft1))
    else if movingRight then Some((WalkingRight, walkRight1))
    else match facing
      case Right => Some((Standing, RestRight1))
      case Left => Some((Standing, RestLeft1))
      case NoDirection => None
  }

  // ---------------------------------------------------------------------------
  // Properties of the targets against the start-up table

  /** The walk poses as they can be after any number of stop transitions:
      each pair is the original pair or the original pair swapped. */
  ghost predicate SwappedPoses(walkRight1: Stance, walkRight2: Stance, walkLeft1: Stance, walkLeft2: Stance)
  {
    && (walkRight1, walkRight2) in {(WalkRight1, WalkRight2), (WalkRight2, WalkRight1)}
    && (walkLeft1, walkLeft2) in {(WalkLeft1, WalkLeft2), (WalkLeft2, WalkLeft1)}
  }

  /** Every take-off pose is followed by the matching jump 2, then jump 3,
      after which the table has no edge. */
  lemma JumpTargetLeadsToApex(facing: Direction, state: AnimationType)
    ensures var s := JumpTarget(facing, state).1;
      var apex := if facing == Right then JumpRight2 else JumpLeft2;
      var landing := if facing == Right then JumpRight3 else JumpLeft3;
      && Continuation(InitialTable(), s) == (apex, JumpTransitionFrames)
      && Continuation(InitialTable(), apex) == (landing, JumpTimeFrames)
      && Continuation(InitialTable(), landing) == (landing, 0)
  {
    InitialJumpChain();
  }

  /** After a landing or a released key the next lookup always finds an edge
      with a positive duration back into a walk or breathing loop, however
      the walk poses have been swapped. */
  lemma EndJumpTargetContinues(movingLeft: bool, movingRight: bool, facing: Direction,
                               walkRight1: Stance, walkRight2: Stance, walkLeft1: Stance, walkLeft2: Stance)
    requires SwappedPoses(walkRight1, walkRight2, walkLeft1, walkLeft2)
    ensures var r := EndJumpTarget(movingLeft, movingRight, facing, walkLeft1, walkRight1);
      r.Some? ==> Continuation(InitialTable(), r.value.1).1 in {StepFrames, VibeFrames}
  {
    InitialRestLoops();
    WalkCycleSurvivesSwaps(walkRight1, walkRight2, walkLeft1, walkLeft2);
  }

  /** Releasing a walk key always leads into a loop of the start-up table. */
  lemma StopTargetsContinue(movingLeft: bool, movingRight: bool,
                            walkRight1: Stance, walkRight2: Stance, walkLeft1: Stance, walkLeft2: Stance)
    requires SwappedPoses(walkRight1, walkRight2, walkLeft1, walkLeft2)
    ensures Continuation(InitialTable(), StopRightTarget(movingLeft, walkLeft1).1).1 in {StepFrames, VibeFrames}
    ensures Continuation(InitialTable(), StopLeftTarget(movingRight, walkRight1).1).1 in {StepFrames, VibeFrames}
  {
    InitialRestLoops();
    WalkCycleSurvivesSwaps(walkRight1, walkRight2, walkLeft1, walkLeft2);
  }

  /** A stop transition swaps one pair of walk poses; either swap keeps the
      poses among the start-up pair and its swap, so a second stop on the
      same side puts them back. */
  lemma SwapKeepsSwappedPoses(walkRight1: Stance, walkRight2: Stance, walkLeft1: Stance, walkLeft2: Stance)
    requires SwappedPoses(walkRight1, walkRight2, walkLeft1, walkLeft2)
    ensures SwappedPoses(walkRight2, walkRight1, walkLeft1, walkLeft2)
    ensures SwappedPoses(walkRight1, walkRight2, walkLeft2, walkLeft1)
  {
  }

  // ---------------------------------------------------------------------------
  // The transitions

  /** The right key is released: blend toward the stop target, clear the
      intent to walk right and swap the two right walk poses, so that the
      next walk starts with the other leg. */
  method StopMovingRight(p: Player, poses: WalkPoses)
    modifies p, poses
    ensures var t := StopRightTarget(old(p.movingLeft), old(poses.walkLeft1));
      WalkStateChanged(p, t.0, t.1, WalkTransitionFrames)
    ensures !p.movingRight && p.movingLeft == old(p.movingLeft)
    ensures poses.walkRight1 == old(poses.walkRight2) && poses.walkRight2 == old(poses.walkRight1)
    ensures poses.walkLeft1 == old(poses.walkLeft1) && poses.walkLeft2 == old(poses.walkLeft2)
  {
    if p.movingLeft {
      ChangeWalkState(p, WalkingLeft, poses.walkLeft1, WalkTransitionFrames);
    } else {
      ChangeWalkState(p, Standing, RestRight1, WalkTransitionFrames);
    }
    p.movingRight := false;
    var tmp := poses.walkRight1;
    poses.walkRight1 := poses.walkRight2;
    poses.walkRight2 := tmp;
  }

  /** The left key is released: the mirror image of StopMovingRight. */
  method StopMovingLeft(p: Player, poses: WalkPoses)
    modifies p, poses
    ensures var t := StopLeftTarget(old(p.movingRight), old(poses.walkRight1));
      WalkStateChanged(p, t.0, t.1, WalkTransitionFrames)
    ensures !p.movingLeft && p.movingRight == old(p.movingRight)
    ensures poses.walkLeft1 == old(poses.walkLeft2) && poses.walkLeft2 == old(poses.walkLeft1)
    ensures poses.walkRight1 == old(poses.walkRight1) && poses.walkRight2 == old(poses.walkRight2)
  {
    if p.movingRight {
      ChangeWalkState(p, WalkingRight, poses.walkRight1, WalkTransitionFrames);
    } else {
      ChangeWalkState(p, Standing, RestLeft1, WalkTransitionFrames);
    }
    p.movingLeft := false;
    var tmp := poses.walkLeft1;
    poses.walkLeft1 := poses.walkLeft2;
    poses.walkLeft2 := tmp;
  }

  /** A blend has finished: start the next one, toward the continuation of
      the stance just reached, in the same walking state. */
  method ContinueStance(p: Player, table: ContinuationTable)
    modifies p
    ensures var c := Continuation(table.entries, old(p.walkingStanceTo));
      WalkStateChanged(p, old(p.walkingState), c.0, c.1)
    ensures p.movingLeft == old(p.movingLeft) && p.movingRight == old(p.movingRight)
  {
    var next, frames := GetContinuation(table.entries, p.walkingStanceTo);
    ChangeWalkState(p, p.walkingState, next, frames);
  }

  /** The jump key is pressed: blend toward the take-off pose. */
  method StartJump(p: Player)
    modifies p
    ensures var t := JumpTarget(old(p.stance.direction), old(p.walkingState));
      WalkStateChanged(p, t.0, t.1, JumpTransitionFrames)
    ensures p.movingLeft == old(p.movingLeft) && p.movingRight == old(p.movingRight)
  {
    if p.stance.direction == Right {
      if p.walkingState == WalkingRight {
        ChangeWalkState(p, LeapingRight, LeapRight, JumpTransitionFrames);
      } else {
        ChangeWalkState(p, JumpingRight, JumpRight1, JumpTransitionFrames);
      }
    } else {
      if p.walkingState == WalkingLeft {
        ChangeWalkState(p, LeapingLeft, LeapLeft, JumpTransitionFrames);
      } else {
        ChangeWalkState(p, JumpingLeft, JumpLeft1, JumpTransitionFrames);
      }
    }
  }

  /** The take-off moment: the jump entry becomes a fresh cell holding the
      upward impulse (0, 0.5); every other entry keeps its cell and value. */
  method ActualJump(p: Player)
    requires p.physics.Valid()
    modifies p.physics
    ensures p.physics.Valid() && Jump in p.physics.forces
    ensures fresh(p.physics.forces[Jump])
    ensures p.physics.forces == old(p.physics.forces)[Jump := p.physics.forces[Jump]]
    ensures p.physics.ForceValues() == old(p.physics.ForceValues())[Jump := Vec2(0.0, 0.5)]
    ensures p.physics.position == old(p.physics.position) && p.physics.motion == old(p.physics.motion)
    ensures p.physics.grounded == old(p.physics.grounded)
    ensures p.physics.width == old(p.physics.width) && p.physics.height == old(p.physics.height)
  {
    var impulse := new Vector2(0.0, 0.5);
    p.physics.forces := p.physics.forces[Jump := impulse];
  }

  /** The landing: blend toward the landing target with the jump transition
      duration; with no key held and a target facing no direction, nothing
      changes. */
  method EndJump(p: Player, poses: WalkPoses)
    modifies p
    ensures match EndJumpTarget(old(p.movingLeft), old(p.movingRight), old(p.walkingStanceTo.direction),
                                poses.walkLeft1, poses.walkRight1)
      case None => unchanged(p)
      case Some(t) => WalkStateChanged(p, t.0, t.1, JumpTransitionFrames)
    ensures p.movingLeft == old(p.movingLeft) && p.movingRight == old(p.movingRight)
  {
    if p.movingLeft {
      ChangeWalkState(p, WalkingLeft, poses.walkLeft1, JumpTransitionFrames);
    } else if p.movingRight {
      ChangeWalkState(p, WalkingRight, poses.walkRight1, JumpTransitionFrames);
    } else if p.walkingStanceTo.direction == Right {
      ChangeWalkState(p, Standing, RestRight1, JumpTransitionFrames);
    } else if p.walkingStanceTo.direction == Left {
      ChangeWalkState(p, Standing, RestLeft1, JumpTransitionFrames);
    }
  }

  /** One frame of the current blend: the displayed stance becomes the blend
      of source and target at the current frame. At frame 0 that is the
      source (facing the target's way); at the last frame it is the target. */
  method UpdateStance(p: Player)
    requires p.walkingAnimationFrames > 0
    modifies p
    ensures p.walkingStanceFrom == old(p.walkingStanceFrom) && p.walkingStanceTo == old(p.walkingStanceTo)
    ensures p.walkingAnimationFrame == old(p.walkingAnimationFrame)
    ensures p.walkingAnimationFrames == old(p.walkingAnimationFrames)
    ensures p.stance == ShiftStance(p.walkingStanceFrom, p.walkingStanceTo,
                                    p.walkingAnimationFrame, p.walkingAnimationFrames)
    ensures p.walkingAnimationFrame == 0 ==>
      p.stance == p.walkingStanceFrom.(direction := p.walkingStanceTo.direction)
    ensures p.walkingAnimationFrame == p.walkingAnimationFrames ==> p.stance == p.walkingStanceTo
    ensures p.walkingState == old(p.walkingState)
    ensures p.movingLeft == old(p.movingLeft) && p.movingRight == old(p.movingRight)
  {
    p.stance := ShiftStance(p.walkingStanceFrom, p.walkingStanceTo, p.walkingAnimationFrame, p.walkingAnimationFrames);
    if p.walkingAnimationFrame == 0 {
      ShiftStanceAtStart(p.walkingStanceFrom, p.walkingStanceTo, p.walkingAnimationFrames);
    }
    if p.walkingAnimationFrame == p.walkingAnimationFrames {
      ShiftStanceAtEnd(p.walkingStanceFrom, p.walkingStanceTo, p.walkingAnimationFrames);
    }
  }
}
