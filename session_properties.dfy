/**
 Properties of a whole tracking session: a sequence of frames processed in
 order for one exercise, starting from any state.
 */
module SessionProperties {
  import opened ExerciseRules

  /** Processing frames in two batches is processing them in one. */
  lemma {:induction false} AfterFramesAppend(e: ExerciseType, s: TrackerState, fs: seq<Frame>, gs: seq<Frame>)
    ensures AfterFrames(e, s, fs + gs) == AfterFrames(e, AfterFrames(e, s, fs), gs)
    decreases |gs|
  {
    if |gs| > 0 {
      var n := |gs| - 1;
      assert (fs + gs)[..|fs + gs| - 1] == fs + gs[..n];
      AfterFramesAppend(e, s, fs, gs[..n]);
    } else {
      assert fs + gs == fs;
    }
  }

  /** Along a session the counter is non-decreasing: a longer prefix has counted
      at least as much as a shorter one. */
  lemma PrefixMonotone(e: ExerciseType, s: TrackerState, fs: seq<Frame>, i: nat, j: nat)
    requires i <= j <= |fs|
    ensures AfterFrames(e, s, fs[..i]).counter <= AfterFrames(e, s, fs[..j]).counter
  {
    assert fs[..j] == fs[..i] + fs[i..j];
    AfterFramesAppend(e, s, fs[..i], fs[i..j]);
  }

  /** Frames without a detected pose leave the state exactly as it was. */
  lemma {:induction false} NoPoseFramesNoOp(e: ExerciseType, s: TrackerState, fs: seq<Frame>)
    requires forall k :: 0 <= k < |fs| ==> fs[k] == NoPose
    ensures AfterFrames(e, s, fs) == s
  {
    if |fs| > 0 {
      NoPoseFramesNoOp(e, s, fs[..|fs| - 1]);
    }
  }

  /** Feeding only arm-region angles never counts, and leaves the armed label. */
  lemma {:induction false} ArmOnlyNeverCounts(e: ExerciseType, s: TrackerState, fs: seq<Frame>)
    requires forall k :: 0 <= k < |fs| ==> Arms(e, fs[k])
    ensures AfterFrames(e, s, fs).counter == s.counter
    ensures |fs| > 0 ==> AfterFrames(e, s, fs).stage == Some(ArmedLabel(e))
  {
    if |fs| > 0 {
      var n := |fs| - 1;
      ArmOnlyNeverCounts(e, s, fs[..n]);
      ArmStep(e, AfterFrames(e, s, fs[..n]), fs[n].angle);
    }
  }

  /** Starting unarmed, the stage can hold the armed label only after an arming
      frame, and the counter can rise only after an arming frame followed later
      by a firing frame. */
  lemma {:induction false} RepNeedsArmThenFire(e: ExerciseType, s: TrackerState, fs: seq<Frame>)
    requires s.stage != Some(ArmedLabel(e))
    ensures AfterFrames(e, s, fs).stage == Some(ArmedLabel(e)) ==>
      exists i :: 0 <= i < |fs| && Arms(e, fs[i])
    ensures AfterFrames(e, s, fs).counter > s.counter ==>
      exists i, j :: 0 <= i < j < |fs| && Arms(e, fs[i]) && Fires(e, fs[j])
  {
    if |fs| > 0 {
      var n := |fs| - 1;
      var prefix := fs[..n];
      RepNeedsArmThenFire(e, s, prefix);
      var p := AfterFrames(e, s, prefix);
      var r := AfterFrames(e, s, fs);
      assert r == AfterFrame(e, p, fs[n]);
      if r.stage == Some(ArmedLabel(e)) {
        if Arms(e, fs[n]) {
          assert Arms(e, fs[n]);
        } else {
          if fs[n].Pose? {
            ArmedAfterStep(e, p, fs[n].angle);
          }
          var i :| 0 <= i < n && Arms(e, prefix[i]);
          assert fs[i] == prefix[i];
        }
      }
      if r.counter > s.counter {
        if p.counter > s.counter {
          var i, j :| 0 <= i < j < n && Arms(e, prefix[i]) && Fires(e, prefix[j]);
          assert fs[i] == prefix[i] && fs[j] == prefix[j];
        } else {
          assert fs[n].Pose?;
          StepCounts(e, p, fs[n].angle);
          var i :| 0 <= i < n && Arms(e, prefix[i]);
          assert fs[i] == prefix[i] && Fires(e, fs[n]);
        }
      }
    }
  }

  /** From an armed state, the stage is still armed at the end of a session
      unless a repetition was counted along the way. */
  lemma {:induction false} ArmedStaysArmed(e: ExerciseType, s: TrackerState, fs: seq<Frame>)
    requires s.stage == Some(ArmedLabel(e))
    ensures AfterFrames(e, s, fs).stage == Some(ArmedLabel(e)) || AfterFrames(e, s, fs).counter > s.counter
  {
    if |fs| > 0 {
      var n := |fs| - 1;
      var p := AfterFrames(e, s, fs[..n]);
      ArmedStaysArmed(e, s, fs[..n]);
      if fs[n].Pose? {
        StepCounts(e, p, fs[n].angle);
        ArmedAfterStep(e, p, fs[n].angle);
      }
    }
  }

  /** After an arming frame the stage stays armed until a repetition is counted
      after that frame. */
  lemma ArmedAfterArm(e: ExerciseType, s: TrackerState, fs: seq<Frame>, i: nat)
    requires i < |fs| && Arms(e, fs[i])
    ensures AfterFrames(e, s, fs).stage == Some(ArmedLabel(e))
         || AfterFrames(e, s, fs).counter > AfterFrames(e, s, fs[..i + 1]).counter
  {
    var upTo := fs[..i + 1];
    assert upTo[..i] == fs[..i];
    ArmStep(e, AfterFrames(e, s, fs[..i]), fs[i].angle);
    var armed := AfterFrames(e, s, upTo);
    ArmedStaysArmed(e, armed, fs[i + 1..]);
    assert fs == upTo + fs[i + 1..];
    AfterFramesAppend(e, s, upTo, fs[i + 1..]);
  }

  /** An arming frame followed later by a firing frame counts at least one repetition. */
  lemma ArmThenFireCounts(e: ExerciseType, s: TrackerState, fs: seq<Frame>, i: nat, j: nat)
    requires i < j < |fs| && Arms(e, fs[i]) && Fires(e, fs[j])
    ensures AfterFrames(e, s, fs).counter > s.counter
  {
    var before := fs[..j];
    ArmedAfterArm(e, s, before, i);
    var p := AfterFrames(e, s, before);
    assert before[..i + 1] == fs[..i + 1];
    assert fs[..j + 1][..j] == before;
    StepCounts(e, p, fs[j].angle);
    PrefixMonotone(e, s, fs, j + 1, |fs|);
    assert fs[..|fs|] == fs;
  }

  /** Starting unarmed (in particular from a fresh tracker), a session counts a
      repetition if and only if some arming frame is later followed by a firing frame. */
  lemma RepIffArmThenFire(e: ExerciseType, s: TrackerState, fs: seq<Frame>)
    requires s.stage != Some(ArmedLabel(e))
    ensures AfterFrames(e, s, fs).counter > s.counter <==>
      exists i, j :: 0 <= i < j < |fs| && Arms(e, fs[i]) && Fires(e, fs[j])
  {
    RepNeedsArmThenFire(e, s, fs);
    if exists i, j :: 0 <= i < j < |fs| && Arms(e, fs[i]) && Fires(e, fs[j]) {
      var i, j :| 0 <= i < j < |fs| && Arms(e, fs[i]) && Fires(e, fs[j]);
      ArmThenFireCounts(e, s, fs, i, j);
    }
  }

  // ---- Worked sessions --------------------------------------------------------

  /** Push-ups at 170, 175, 80, 85, 165, 70 degrees: two repetitions, ending down. */
  lemma PushupSession()
    ensures AfterFrames(Pushup, Initial(),
      [Pose(Degrees(170.0)), Pose(Degrees(175.0)), Pose(Degrees(80.0)),
       Pose(Degrees(85.0)), Pose(Degrees(165.0)), Pose(Degrees(70.0))])
      == TrackerState(2, Some(Down))
  {
    var fs := [Pose(Degrees(170.0)), Pose(Degrees(175.0)), Pose(Degrees(80.0)),
               Pose(Degrees(85.0)), Pose(Degrees(165.0)), Pose(Degrees(70.0))];
    assert AfterFrames(Pushup, Initial(), fs[..1]) == TrackerState(0, Some(Up));
    assert AfterFrames(Pushup, Initial(), fs[..2]) == TrackerState(0, Some(Up));
    assert fs[..3][..2] == fs[..2];
    assert AfterFrames(Pushup, Initial(), fs[..3]) == TrackerState(1, Some(Down));
    assert fs[..4][..3] == fs[..3];
    assert AfterFrames(Pushup, Initial(), fs[..4]) == TrackerState(1, Some(Down));
    assert fs[..5][..4] == fs[..4];
    assert AfterFrames(Pushup, Initial(), fs[..5]) == TrackerState(1, Some(Up));
    assert fs[..6] == fs;
  }

  /** Dumbbell lifts at 20, 160, 25, 155 degrees: two repetitions, ending up. */
  lemma DumbbellSession()
    ensures AfterFrames(Dumbbell, Initial(),
      [Pose(Degrees(20.0)), Pose(Degrees(160.0)), Pose(Degrees(25.0)), Pose(Degrees(155.0))])
      == TrackerState(2, Some(Up))
  {
    var fs := [Pose(Degrees(20.0)), Pose(Degrees(160.0)), Pose(Degrees(25.0)), Pose(Degrees(155.0))];
    assert AfterFrames(Dumbbell, Initial(), fs[..1]) == TrackerState(0, Some(Down));
    assert AfterFrames(Dumbbell, Initial(), fs[..2]) == TrackerState(1, Some(Up));
    assert fs[..3][..2] == fs[..2];
    assert AfterFrames(Dumbbell, Initial(), fs[..3]) == TrackerState(1, Some(Down));
    assert fs[..4] == fs;
  }

  /** A first frame without a pose is skipped; push-ups at 170 then 80 degrees
      then count one repetition. */
  lemma MissingPoseSession()
    ensures AfterFrames(Pushup, Initial(), [NoPose, Pose(Degrees(170.0)), Pose(Degrees(80.0))])
      == TrackerState(1, Some(Down))
  {
    var fs := [NoPose, Pose(Degrees(170.0)), Pose(Degrees(80.0))];
    assert AfterFrames(Pushup, Initial(), fs[..1]) == Initial();
    assert AfterFrames(Pushup, Initial(), fs[..2]) == TrackerState(0, Some(Up));
    assert fs[..3] == fs;
  }
}
