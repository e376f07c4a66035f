/**
 The per-frame repetition rules of the exercise tracker, stated as pure
 functions over the tracker's two pieces of state: the repetition counter and
 the shared stage label. The class in module Tracker is proved to follow them.
 */
module ExerciseRules {

  datatype Option<+T> = None | Some(value: T)

  /** The four supported exercises. */
  datatype ExerciseType = Pushup | Dumbbell | BicepCurl | TricepExtension

  /** The stage labels the tracker stores; the same two strings serve every exercise. */
  datatype Label = Up | Down

  /** A joint angle in degrees as the angle computation returns it; NaN is the
      not-a-number float, which compares false against every threshold. */
  datatype Angle = Degrees(deg: real) | NaN

  /** The tracker's mutable state: a repetition count and an optional stage. */
  datatype TrackerState = TrackerState(counter: nat, stage: Option<Label>)

  /** What the pose estimator yields for one frame: no pose, or a pose from which
      the exercise's joint angle was computed. */
  datatype Frame = NoPose | Pose(angle: Angle)

  /** The state of a freshly constructed tracker. */
  function Initial(): (s: TrackerState)
    ensures s.counter == 0 && s.stage.None?
  {
    TrackerState(0, None)
  }

  /** The display name of each exercise. */
  function Name(e: ExerciseType): (name: string)
    ensures |name| > 0
  {
    match e
    case Pushup => "Push-up"
    case Dumbbell => "Dumbbell Lift"
    case BicepCurl => "Bicep Curl"
    case TricepExtension => "Tricep Extension"
  }

  lemma NamesDistinct(e1: ExerciseType, e2: ExerciseType)
    ensures Name(e1) == Name(e2) <==> e1 == e2
  {
  }

  /** Calories burned per minute of each exercise, a fixed table. */
  function CaloriesPerMinute(e: ExerciseType): (rate: nat)
    ensures 5 <= rate <= 8
    ensures rate == 8 <==> e == Pushup
  {
    match e
    case Pushup => 8
    case Dumbbell => 6
    case BicepCurl => 5
    case TricepExtension => 5
  }

  /** `angle > t` on floats: false for NaN. */
  predicate GreaterThan(a: Angle, t: real)
  {
    match a
    case Degrees(d) => d > t
    case NaN => false
  }

  /** `angle < t` on floats: false for NaN. */
  predicate LessThan(a: Angle, t: real)
  {
    match a
    case Degrees(d) => d < t
    case NaN => false
  }

  /** The angles that arm a repetition of exercise e. */
  predicate InArmRegion(e: ExerciseType, a: Angle)
  {
    match e
    case Pushup => GreaterThan(a, 160.0)
    case Dumbbell => LessThan(a, 30.0)
    case BicepCurl => GreaterThan(a, 160.0)
    case TricepExtension => LessThan(a, 30.0)
  }

  /** The angles that complete (fire) a repetition of exercise e when armed. */
  predicate InFireRegion(e: ExerciseType, a: Angle)
  {
    match e
    case Pushup => LessThan(a, 90.0)
    case Dumbbell => GreaterThan(a, 150.0)
    case BicepCurl => LessThan(a, 50.0)
    case TricepExtension => GreaterThan(a, 150.0)
  }

  /** The defined angles that neither arm nor fire, boundaries included. */
  predicate InDeadBand(e: ExerciseType, d: real)
  {
    match e
    case Pushup => 90.0 <= d <= 160.0
    case Dumbbell => 30.0 <= d <= 150.0
    case BicepCurl => 50.0 <= d <= 160.0
    case TricepExtension => 30.0 <= d <= 150.0
  }

  /** The label an arm-region angle stores. */
  function ArmedLabel(e: ExerciseType): (l: Label)
  {
    match e
    case Pushup => Up
    case Dumbbell => Down
    case BicepCurl => Down
    case TricepExtension => Up
  }

  /** The label a counted repetition stores; never the armed label. */
  function FiredLabel(e: ExerciseType): (l: Label)
    ensures l != ArmedLabel(e)
  {
    match e
    case Pushup => Down
    case Dumbbell => Up
    case BicepCurl => Up
    case TricepExtension => Down
  }

  /** One tracking rule applied to one angle: first the arm test, which sets
      the armed label whatever the stage was, then the fire test, which counts
      a repetition only if the stage now holds the armed label. The counter
      rises by at most one; a counted step stores the fired label, and a step
      that counts nothing leaves the stage alone or stores the armed label. */
  function NextState(e: ExerciseType, s: TrackerState, a: Angle): (r: TrackerState)
    ensures r.counter == s.counter || r.counter == s.counter + 1
    ensures r.counter == s.counter + 1 ==> r.stage == Some(FiredLabel(e))
    ensures r.counter == s.counter ==> r.stage == s.stage || r.stage == Some(ArmedLabel(e))
  {
    var armed := if InArmRegion(e, a) then s.(stage := Some(ArmedLabel(e))) else s;
    if InFireRegion(e, a) && armed.stage == Some(ArmedLabel(e))
    then TrackerState(armed.counter + 1, Some(FiredLabel(e)))
    else armed
  }

  /** One frame: the rule runs only when a pose was detected, so a frame
      without a pose changes nothing. */
  function AfterFrame(e: ExerciseType, s: TrackerState, f: Frame): (r: TrackerState)
    ensures f.NoPose? ==> r == s
    ensures s.counter <= r.counter <= s.counter + 1
  {
    match f
    case NoPose => s
    case Pose(a) => NextState(e, s, a)
  }

  /** A session: the frames are processed in order, the last one last. Over
      any session the counter never decreases and rises by at most one per frame. */
  function AfterFrames(e: ExerciseType, s: TrackerState, fs: seq<Frame>): (r: TrackerState)
    ensures s.counter <= r.counter <= s.counter + |fs|
  {
    if |fs| == 0 then s
    else AfterFrame(e, AfterFrames(e, s, fs[..|fs| - 1]), fs[|fs| - 1])
  }

  /** The frames that arm, and those that fire, a repetition of exercise e. */
  predicate Arms(e: ExerciseType, f: Frame)
  {
    f.Pose? && InArmRegion(e, f.angle)
  }

  predicate Fires(e: ExerciseType, f: Frame)
  {
    f.Pose? && InFireRegion(e, f.angle)
  }

  // ---- Display values -------------------------------------------------------

  /** The text of a stored label. */
  function LabelText(l: Label): (text: string)
    ensures text != "N/A"
  {
    match l
    case Up => "up"
    case Down => "down"
  }

  /** The stage as displayed: the label's text, or "N/A" while no stage is set. */
  function StageText(stage: Option<Label>): (text: string)
    ensures text == "N/A" <==> stage.None?
  {
    match stage
    case None => "N/A"
    case Some(l) => LabelText(l)
  }

  lemma StageTextDistinguishes(st1: Option<Label>, st2: Option<Label>)
    ensures StageText(st1) == StageText(st2) <==> st1 == st2
  {
  }

  /** The total weight shown for dumbbell lifts: 10 kg per repetition; no other
      exercise shows one. */
  function TotalWeight(e: ExerciseType, counter: nat): (w: Option<nat>)
    ensures w.Some? <==> e == Dumbbell
    ensures w.Some? ==> w.value % 10 == 0 && w.value / 10 == counter
  {
    if e == Dumbbell then Some(counter * 10) else None
  }

  // ---- Properties of one step -----------------------------------------------

  /** No angle both arms and fires, and every defined angle is in exactly one of
      the arm region, the fire region and the dead band. */
  lemma RegionsPartition(e: ExerciseType, d: real)
    ensures !(InArmRegion(e, Degrees(d)) && InFireRegion(e, Degrees(d)))
    ensures InDeadBand(e, d) <==> !InArmRegion(e, Degrees(d)) && !InFireRegion(e, Degrees(d))
  {
  }

  /** The counter rises by one exactly when the stage held the armed label and
      the angle is in the fire region; it otherwise stays put. A counted step
      leaves the fired label. */
  lemma StepCounts(e: ExerciseType, s: TrackerState, a: Angle)
    ensures var r := NextState(e, s, a);
      && (r.counter == s.counter + 1 <==> s.stage == Some(ArmedLabel(e)) && InFireRegion(e, a))
      && (r.counter == s.counter || r.counter == s.counter + 1)
      && (r.counter == s.counter + 1 ==> r.stage == Some(FiredLabel(e)))
  {
  }

  /** An arm-region angle stores the armed label whatever the stage was, and
      leaves the counter alone. */
  lemma ArmStep(e: ExerciseType, s: TrackerState, a: Angle)
    requires InArmRegion(e, a)
    ensures NextState(e, s, a) == TrackerState(s.counter, Some(ArmedLabel(e)))
  {
  }

  /** The stage holds the armed label after a step exactly when the angle armed,
      or the stage was armed and the angle did not fire. */
  lemma ArmedAfterStep(e: ExerciseType, s: TrackerState, a: Angle)
    ensures NextState(e, s, a).stage == Some(ArmedLabel(e))
        <==> InArmRegion(e, a) || (s.stage == Some(ArmedLabel(e)) && !InFireRegion(e, a))
  {
  }

  /** A fire-region angle counts nothing unless the stage was armed; in
      particular not while no stage is set. */
  lemma UnarmedFireNoCount(e: ExerciseType, s: TrackerState, a: Angle)
    requires s.stage != Some(ArmedLabel(e))
    requires InFireRegion(e, a)
    ensures NextState(e, s, a) == s
  {
  }

  /** Dead-band angles (the boundaries 90/160, 30/150 and 50/160 included) and
      the NaN angle change nothing. */
  lemma DeadBandNoOp(e: ExerciseType, s: TrackerState, d: real)
    requires InDeadBand(e, d)
    ensures NextState(e, s, Degrees(d)) == s
  {
  }

  lemma NaNNoOp(e: ExerciseType, s: TrackerState)
    ensures NextState(e, s, NaN) == s
  {
  }

  /** A frame with no detected pose changes nothing. */
  lemma NoPoseNoOp(e: ExerciseType, s: TrackerState)
    ensures AfterFrame(e, s, NoPose) == s
  {
  }

  /** The stage is shared by all exercises and its labels are literal, so a
      push-up arm followed by a tricep-extension fire region counts a tricep rep. */
  lemma StageCarriesAcrossExercises()
    ensures NextState(TricepExtension, NextState(Pushup, Initial(), Degrees(170.0)), Degrees(160.0))
         == TrackerState(1, Some(Down))
  {
  }
}
