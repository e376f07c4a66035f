/**
 The exercise tracker object: a repetition counter and a stage label that its
 tracking methods update in place, one frame at a time.
 */
module Tracker {
  import opened ExerciseRules

  class ExerciseTracker {
    var counter: nat
    var stage: Option<Label>

    /** The tracker's state as a value, for stating what the methods do. */
    function State(): TrackerState
      reads this
    {
      TrackerState(counter, stage)
    }

    /** A fresh tracker has counted nothing and has no stage. */
    constructor ()
      ensures State() == Initial()
    {
      counter := 0;
      stage := None;
    }

    method TrackPushup(angle: Angle)
      modifies this
      ensures State() == NextState(Pushup, old(State()), angle)
    {
      if GreaterThan(angle, 160.0) {
        stage := Some(Up);
      }
      if LessThan(angle, 90.0) && stage == Some(Up) {
        stage := Some(Down);
        counter := counter + 1;
      }
    }

    method TrackDumbbell(angle: Angle)
      modifies this
      ensures State() == NextState(Dumbbell, old(State()), angle)
    {
      if LessThan(angle, 30.0) {
        stage := Some(Down);
      }
      if GreaterThan(angle, 150.0) && stage == Some(Down) {
        stage := Some(Up);
        counter := counter + 1;
      }
    }

    method TrackBicepCurl(angle: Angle)
      modifies this
      ensures State() == NextState(BicepCurl, old(State()), angle)
    {
      if GreaterThan(angle, 160.0) {
        stage := Some(Down);
      }
      if LessThan(angle, 50.0) && stage == Some(Down) {
        stage := Some(Up);
        counter := counter + 1;
      }
    }

    method TrackTricepExtension(angle: Angle)
      modifies this
      ensures State() == NextState(TricepExtension, old(State()), angle)
    {
      if LessThan(angle, 30.0) {
        stage := Some(Up);
      }
      if GreaterThan(angle, 150.0) && stage == Some(Up) {
        stage := Some(Down);
        counter := counter + 1;
      }
    }

    /** One frame: the exercise's rule runs only when a pose was detected; the
        counter never decreases and rises by at most one. */
    method ProcessFrame(frame: Frame, exercise: ExerciseType)
      modifies this
      ensures State() == AfterFrame(exercise, old(State()), frame)
      ensures old(counter) <= counter <= old(counter) + 1
      ensures frame.NoPose? ==> State() == old(State())
    {
      if frame.Pose? {
        match exercise {
          case Pushup => TrackPushup(frame.angle);
          case Dumbbell => TrackDumbbell(frame.angle);
          case BicepCurl => TrackBicepCurl(frame.angle);
          case TricepExtension => TrackTricepExtension(frame.angle);
        }
        StepCounts(exercise, old(State()), frame.angle);
      }
    }

    /** The values the overlay shows: the exercise name, the repetitions, the
        total weight (dumbbell lifts only) and the stage, "N/A" while unset. */
    method UpdateDisplay(exercise: ExerciseType) returns (name: string, reps: nat, weight: Option<nat>, stageText: string)
      ensures name == Name(exercise) && reps == counter
      ensures weight == TotalWeight(exercise, counter)
      ensures stageText == StageText(stage)
    {
      name := Name(exercise);
      reps := counter;
      weight := TotalWeight(exercise, counter);
      stageText := StageText(stage);
    }

    /** The capture loop: frames are processed in order for one exercise. */
    method RunSession(exercise: ExerciseType, frames: seq<Frame>)
      modifies this
      ensures State() == AfterFrames(exercise, old(State()), frames)
      ensures old(counter) <= counter <= old(counter) + |frames|
    {
      var i := 0;
      while i < |frames|
        invariant 0 <= i <= |frames|
        invariant State() == AfterFrames(exercise, old(State()), frames[..i])
      {
        assert frames[..i + 1][..i] == frames[..i];
        ProcessFrame(frames[i], exercise);
        i := i + 1;
      }
      assert frames[..|frames|] == frames;
    }
  }
}
