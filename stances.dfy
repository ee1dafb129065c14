// The named poses of the character and the continuation table built from
// them at start-up: idle-breathing loops, walk-step loops and the jump chain.

module Stances {
  import opened Core

  /** Go's math.Pi as a float64. */
  const Pi: real := 3.141592653589793

  const RestRight1: Stance :=
    Stance(
      rightUpperArm := -Pi / 16.0,
      leftUpperArm := Pi / 16.0,
      direction := Right,
      rightUpperLeg := 0.0,
      leftUpperLeg := 0.0,
      head := 0.0,
      torso := 0.0,
      rightLowerArm := 0.0,
      rightLowerLeg := 0.0,
      rightFoot := 0.0,
      leftLowerArm := 0.0,
      leftLowerLeg := 0.0,
      leftFoot := 0.0,
      weapon := 0.0)

  const RestRight2: Stance :=
    Stance(
      rightUpperArm := -Pi / 20.0,
      leftUpperArm := Pi / 20.0,
      direction := Right,
      rightUpperLeg := 0.0,
      leftUpperLeg := 0.0,
      head := 0.0,
      torso := 0.0,
      rightLowerArm := 0.0,
      rightLowerLeg := 0.0,
      rightFoot := 0.0,
      leftLowerArm := 0.0,
      leftLowerLeg := 0.0,
      leftFoot := 0.0,
      weapon := 0.0)

  const RestLeft1: Stance :=
    Stance(
      rightUpperArm := -Pi / 16.0,
      leftUpperArm := Pi / 16.0,
      direction := Left,
      rightUpperLeg := 0.0,
      leftUpperLeg := 0.0,
      head := 0.0,
      torso := 0.0,
      rightLowerArm := 0.0,
      rightLowerLeg := 0.0,
      rightFoot := 0.0,
      leftLowerArm := 0.0,
      leftLowerLeg := 0.0,
      leftFoot := 0.0,
      weapon := 0.0)

  const RestLeft2: Stance :=
    Stance(
      rightUpperArm := -Pi / 20.0,
      leftUpperArm := Pi / 20.0,
      direction := Left,
      rightUpperLeg := 0.0,
      leftUpperLeg := 0.0,
      head := 0.0,
      torso := 0.0,
      rightLowerArm := 0.0,
      rightLowerLeg := 0.0,
      rightFoot := 0.0,
      leftLowerArm := 0.0,
      leftLowerLeg := 0.0,
      leftFoot := 0.0,
      weapon := 0.0)

  const WalkRight1: Stance :=
    Stance(
      rightUpperArm := Pi / 6.0,
      leftUpperArm := -Pi / 6.0,
      rightUpperLeg := -Pi / 6.0,
      leftUpperLeg := Pi / 6.0,
      direction := Right,
      head := 0.0,
      torso := 0.0,
      rightLowerArm := -Pi / 20.0,
      rightLowerLeg := Pi / 20.0,
      rightFoot := 0.0,
      leftLowerArm := -Pi / 20.0,
      leftLowerLeg := 0.0,
      leftFoot := 0.0,
      weapon := 0.0)

  const WalkRight2: Stance :=
    Stance(
      rightUpperArm := -Pi / 6.0,
      leftUpperArm := Pi / 6.0,
      rightUpperLeg := Pi / 6.0,
      leftUpperLeg := -Pi / 6.0,
      direction := Right,
      head := 0.0,
      torso := 0.0,
      rightLowerArm := -Pi / 20.0,
      rightLowerLeg := 0.0,
      rightFoot := 0.0,
      leftLowerArm := -Pi / 20.0,
      leftLowerLeg := Pi / 20.0,
      leftFoot := 0.0,
      weapon := 0.0)

  const WalkLeft1: Stance :=
    Stance(
      rightUpperArm := Pi / 6.0,
      leftUpperArm := -Pi / 6.0,
      rightUpperLeg := -Pi / 6.0,
      leftUpperLeg := Pi / 6.0,
      direction := Left,
      head := 0.0,
      torso := 0.0,
      rightLowerArm := Pi / 20.0,
      rightLowerLeg := -Pi / 20.0,
      rightFoot := 0.0,
      leftLowerArm := Pi / 20.0,
      leftLowerLeg := 0.0,
      leftFoot := 0.0,
      weapon := 0.0)

  const WalkLeft2: Stance :=
    Stance(
      rightUpperArm := -Pi / 6.0,
      leftUpperArm := Pi / 6.0,
      rightUpperLeg := Pi / 6.0,
      leftUpperLeg := -Pi / 6.0,
      direction := Left,
      head := 0.0,
      torso := 0.0,
      rightLowerArm := Pi / 20.0,
      rightLowerLeg := 0.0,
      rightFoot := 0.0,
      leftLowerArm := Pi / 20.0,
      leftLowerLeg := -Pi / 20.0,
      leftFoot := 0.0,
      weapon := 0.0)

  const JumpRight1: Stance :=
    Stance(
      rightUpperArm := Pi / 20.0,
      leftUpperArm := Pi / 8.0,
      rightUpperLeg := -Pi / 4.0,
      leftUpperLeg := -Pi / 4.0,
      direction := Right,
      head := 0.0,
      torso := Pi / 10.0,
      rightLowerArm := -Pi / 3.0,
      rightLowerLeg := Pi / 6.0,
      rightFoot := 0.0,
      leftLowerArm := -Pi / 3.0,
      leftLowerLeg := Pi / 6.0,
      leftFoot := 0.0,
      weapon := 0.0)

  const JumpRight2: Stance :=
    Stance(
      rightUpperArm := -Pi / 10.0,
      leftUpperArm := Pi / 5.0,
      rightUpperLeg := -Pi / 10.0,
      leftUpperLeg := -Pi / 15.0,
      direction := Right,
      head := 0.0,
      torso := 0.0,
      rightLowerArm := -Pi / 5.0,
      rightLowerLeg := Pi / 5.0,
      rightFoot := 0.0,
      leftLowerArm := -Pi / 5.0,
      leftLowerLeg := Pi / 5.0,
      leftFoot := 0.0,
      weapon := 0.0)

  const JumpRight3: Stance :=
    Stance(
      rightUpperArm := Pi / 20.0,
      leftUpperArm := Pi / 8.0,
      rightUpperLeg := -Pi / 4.0,
      leftUpperLeg := -Pi / 4.0,
      direction := Right,
      head := Pi / 20.0,
      torso := Pi / 10.0,
      rightLowerArm := -Pi / 3.0,
      rightLowerLeg := Pi / 6.0,
      rightFoot := 0.0,
      leftLowerArm := -Pi / 3.0,
      leftLowerLeg := Pi / 6.0,
      leftFoot := 0.0,
      weapon := 0.0)

  const JumpLeft1: Stance :=
    Stance(
      rightUpperArm := Pi / 20.0,
      leftUpperArm := Pi / 8.0,
      rightUpperLeg := Pi / 4.0,
      leftUpperLeg := Pi / 4.0,
      direction := Left,
      head := 0.0,
      torso := -Pi / 10.0,
      rightLowerArm := Pi / 3.0,
      rightLowerLeg := -Pi / 6.0,
      rightFoot := 0.0,
      leftLowerArm := Pi / 3.0,
      leftLowerLeg := -Pi / 6.0,
      leftFoot := 0.0,
      weapon := 0.0)

  const JumpLeft2: Stance :=
    Stance(
      rightUpperArm := -Pi / 10.0,
      leftUpperArm := Pi / 5.0,
      rightUpperLeg := Pi / 10.0,
      leftUpperLeg := Pi / 15.0,
      direction := Left,
      head := 0.0,
      torso := 0.0,
      rightLowerArm := Pi / 5.0,
      rightLowerLeg := -Pi / 5.0,
      rightFoot := 0.0,
      leftLowerArm := Pi / 5.0,
      leftLowerLeg := -Pi / 5.0,
      leftFoot := 0.0,
      weapon := 0.0)

  const JumpLeft3: Stance :=
    Stance(
      rightUpperArm := Pi / 20.0,
      leftUpperArm := Pi / 8.0,
      rightUpperLeg := Pi / 4.0,
      leftUpperLeg := Pi / 4.0,
      direction := Left,
      head := -Pi / 20.0,
      torso := -Pi / 10.0,
      rightLowerArm := Pi / 3.0,
      rightLowerLeg := -Pi / 6.0,
      rightFoot := 0.0,
      leftLowerArm := Pi / 3.0,
      leftLowerLeg := -Pi / 6.0,
      leftFoot := 0.0,
      weapon := 0.0)

  const LeapRight: Stance :=
    Stance(
      rightUpperArm := -Pi / 3.0,
      leftUpperArm := Pi / 3.0,
      leftUpperLeg := -Pi / 2.0,
      rightUpperLeg := Pi / 4.0,
      direction := Right,
      head := 0.0,
      torso := 0.0,
      rightLowerArm := -Pi / 3.0,
      leftLowerLeg := Pi / 6.0,
      rightFoot := 0.0,
      leftLowerArm := -Pi / 3.0,
      rightLowerLeg := Pi / 6.0,
      leftFoot := 0.0,
      weapon := 0.0)

  const LeapLeft: Stance :=
    Stance(
      rightUpperArm := -Pi / 3.0,
      leftUpperArm := Pi / 3.0,
      leftUpperLeg := Pi / 2.0,
      rightUpperLeg := -Pi / 4.0,
      direction := Left,
      head := 0.0,
      torso := 0.0,
      rightLowerArm := Pi / 3.0,
      leftLowerLeg := -Pi / 6.0,
      rightFoot := 0.0,
      leftLowerArm := Pi / 3.0,
      rightLowerLeg := -Pi / 6.0,
      leftFoot := 0.0,
      weapon := 0.0)

  /** The four walk poses, the only stances that change after start-up: the
      stop-moving transitions swap them pairwise. */
  class WalkPoses {
    var walkRight1: Stance
    var walkRight2: Stance
    var walkLeft1: Stance
    var walkLeft2: Stance

    constructor ()
      ensures walkRight1 == WalkRight1 && walkRight2 == WalkRight2
      ensures walkLeft1 == WalkLeft1 && walkLeft2 == WalkLeft2
    {
      walkRight1, walkRight2 := WalkRight1, WalkRight2;
      walkLeft1, walkLeft2 := WalkLeft1, WalkLeft2;
    }
  }

  /** Appends one edge to the table. */
  method CreateStanceContinuation(table: ContinuationTable, s1: Stance, s2: Stance, f: int)
    modifies table
    ensures table.entries == old(table.entries) + [StanceContinuation(s1, s2, f)]
  {
    table.entries := table.entries + [StanceContinuation(s1, s2, f)];
  }

  /** The fourteen edges added at start-up, in order, given the walk poses in
      force at that moment. */
  function StartupContinuations(walkLeft1: Stance, walkRight1: Stance, walkLeft2: Stance, walkRight2: Stance)
    : seq<StanceContinuation>
  {
    [ StanceContinuation(RestLeft1, RestLeft2, VibeFrames),
      StanceContinuation(RestRight1, RestRight2, VibeFrames),
      StanceContinuation(RestLeft2, RestLeft1, VibeFrames),
      StanceContinuation(RestRight2, RestRight1, VibeFrames),
      StanceContinuation(JumpLeft1, JumpLeft2, JumpTransitionFrames),
      StanceContinuation(JumpRight1, JumpRight2, JumpTransitionFrames),
      StanceContinuation(JumpLeft2, JumpLeft3, JumpTimeFrames),
      StanceContinuation(JumpRight2, JumpRight3, JumpTimeFrames),
      StanceContinuation(LeapLeft, JumpLeft2, JumpTransitionFrames),
      StanceContinuation(LeapRight, JumpRight2, JumpTransitionFrames),
      StanceContinuation(walkLeft1, walkLeft2, StepFrames),
      StanceContinuation(walkRight1, walkRight2, StepFrames),
      StanceContinuation(walkLeft2, walkLeft1, StepFrames),
      StanceContinuation(walkRight2, walkRight1, StepFrames) ]
  }

  /** Builds the start-up edges, in order, from the walk poses in force. */
  method CreateStanceContinuations(table: ContinuationTable, poses: WalkPoses)
    modifies table
    ensures table.entries == old(table.entries)
      + StartupContinuations(poses.walkLeft1, poses.walkRight1, poses.walkLeft2, poses.walkRight2)
  {
    var walkLeft1, walkRight1, walkLeft2, walkRight2 :=
      poses.walkLeft1, poses.walkRight1, poses.walkLeft2, poses.walkRight2;
    CreateStanceContinuation(table, RestLeft1, RestLeft2, VibeFrames);
    CreateStanceContinuation(table, RestRight1, RestRight2, VibeFrames);
    CreateStanceContinuation(table, RestLeft2, RestLeft1, VibeFrames);
    CreateStanceContinuation(table, RestRight2, RestRight1, VibeFrames);
    CreateStanceContinuation(table, JumpLeft1, JumpLeft2, JumpTransitionFrames);
    CreateStanceContinuation(table, JumpRight1, JumpRight2, JumpTransitionFrames);
    CreateStanceContinuation(table, JumpLeft2, JumpLeft3, JumpTimeFrames);
    CreateStanceContinuation(table, JumpRight2, JumpRight3, JumpTimeFrames);
    CreateStanceContinuation(table, LeapLeft, JumpLeft2, JumpTransitionFrames);
    CreateStanceContinuation(table, LeapRight, JumpRight2, JumpTransitionFrames);
    CreateStanceContinuation(table, walkLeft1, walkLeft2, StepFrames);
    CreateStanceContinuation(table, walkRight1, walkRight2, StepFrames);
    CreateStanceContinuation(table, walkLeft2, walkLeft1, StepFrames);
    CreateStanceContinuation(table, walkRight2, walkRight1, StepFrames);
  }

  /** The table as built at start-up, before any walk pose has been swapped. */
  function InitialTable(): seq<StanceContinuation>
  {
    StartupContinuations(WalkLeft1, WalkRight1, WalkLeft2, WalkRight2)
  }

  /** Fourteen edges, each with a positive duration from the frame constants,
      each keeping the facing of its start. */
  lemma InitialTableShape()
    ensures |InitialTable()| == 14
    ensures forall e :: e in InitialTable() ==>
      e.frames in {VibeFrames, JumpTransitionFrames, JumpTimeFrames, StepFrames} && e.frames > 0
    ensures forall e :: e in InitialTable() ==> e.start.direction == e.continuation.direction
  {
  }

  /** No two edges start from the same pose, so the first-match lookup never
      depends on the order of the edges. */
  lemma InitialStartsDistinct()
    ensures forall i, j :: 0 <= i < j < |InitialTable()| ==> InitialTable()[i].start != InitialTable()[j].start
  {
  }

  /** In a table whose starts are pairwise distinct, looking up an edge's
      start yields that edge. */
  lemma {:induction false} LookupFindsOwnEntry(table: seq<StanceContinuation>, i: int)
    requires forall j, k :: 0 <= j < k < |table| ==> table[j].start != table[k].start
    requires 0 <= i < |table|
    ensures Continuation(table, table[i].start) == (table[i].continuation, table[i].frames)
  {
    ContinuationIsFirstMatch(table, table[i].start, i);
  }

  /** Looking up the start of edge `i` of the start-up table yields edge `i`. */
  lemma InitialLookup(i: int)
    requires 0 <= i < |InitialTable()|
    ensures Continuation(InitialTable(), InitialTable()[i].start)
         == (InitialTable()[i].continuation, InitialTable()[i].frames)
  {
    InitialStartsDistinct();
    LookupFindsOwnEntry(InitialTable(), i);
  }

  /** The breathing loops are two-cycles in each direction. */
  lemma InitialRestLoops()
    ensures Continuation(InitialTable(), RestRight1) == (RestRight2, VibeFrames)
    ensures Continuation(InitialTable(), RestRight2) == (RestRight1, VibeFrames)
    ensures Continuation(InitialTable(), RestLeft1) == (RestLeft2, VibeFrames)
    ensures Continuation(InitialTable(), RestLeft2) == (RestLeft1, VibeFrames)
  {
    InitialLookup(0);
    InitialLookup(1);
    InitialLookup(2);
    InitialLookup(3);
  }

  /** The walk loops are two-cycles in each direction. */
  lemma InitialWalkLoops()
    ensures Continuation(InitialTable(), WalkRight1) == (WalkRight2, StepFrames)
    ensures Continuation(InitialTable(), WalkRight2) == (WalkRight1, StepFrames)
    ensures Continuation(InitialTable(), WalkLeft1) == (WalkLeft2, StepFrames)
    ensures Continuation(InitialTable(), WalkLeft2) == (WalkLeft1, StepFrames)
  {
    InitialLookup(10);
    InitialLookup(11);
    InitialLookup(12);
    InitialLookup(13);
  }

  /** Jump 1 and the leap lead to jump 2, jump 2 to jump 3, and jump 3 has
      no edge: its lookup yields itself with 0 frames. */
  lemma InitialJumpChain()
    ensures Continuation(InitialTable(), JumpRight1) == (JumpRight2, JumpTransitionFrames)
    ensures Continuation(InitialTable(), JumpRight2) == (JumpRight3, JumpTimeFrames)
    ensures Continuation(InitialTable(), LeapRight) == (JumpRight2, JumpTransitionFrames)
    ensures Continuation(InitialTable(), JumpLeft1) == (JumpLeft2, JumpTransitionFrames)
    ensures Continuation(InitialTable(), JumpLeft2) == (JumpLeft3, JumpTimeFrames)
    ensures Continuation(InitialTable(), LeapLeft) == (JumpLeft2, JumpTransitionFrames)
    ensures Continuation(InitialTable(), JumpRight3) == (JumpRight3, 0)
    ensures Continuation(InitialTable(), JumpLeft3) == (JumpLeft3, 0)
  {
    InitialLookup(4);
    InitialLookup(5);
    InitialLookup(6);
    InitialLookup(7);
    InitialLookup(8);
    InitialLookup(9);
    InitialJumpRight3Terminal();
    InitialJumpLeft3Terminal();
  }

  lemma InitialJumpRight3Terminal()
    ensures Continuation(InitialTable(), JumpRight3) == (JumpRight3, 0)
  {
    assert forall e :: e in InitialTable() ==> e.start != JumpRight3;
    ContinuationWhenUnmatched(InitialTable(), JumpRight3);
  }

  lemma InitialJumpLeft3Terminal()
    ensures Continuation(InitialTable(), JumpLeft3) == (JumpLeft3, 0)
  {
    assert forall e :: e in InitialTable() ==> e.start != JumpLeft3;
    ContinuationWhenUnmatched(InitialTable(), JumpLeft3);
  }

  /** However often the walk poses have been swapped, the start-up table
      still leads from the current first walk pose to the current second one
      and back: the table holds copies, not references. */
  lemma WalkCycleSurvivesSwaps(walkRight1: Stance, walkRight2: Stance, walkLeft1: Stance, walkLeft2: Stance)
    requires (walkRight1, walkRight2) in {(WalkRight1, WalkRight2), (WalkRight2, WalkRight1)}
    requires (walkLeft1, walkLeft2) in {(WalkLeft1, WalkLeft2), (WalkLeft2, WalkLeft1)}
    ensures Continuation(InitialTable(), walkRight1) == (walkRight2, StepFrames)
    ensures Continuation(InitialTable(), walkRight2) == (walkRight1, StepFrames)
    ensures Continuation(InitialTable(), walkLeft1) == (walkLeft2, StepFrames)
    ensures Continuation(InitialTable(), walkLeft2) == (walkLeft1, StepFrames)
  {
    InitialWalkLoops();
  }
}
