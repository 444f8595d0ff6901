/**
 A fitness-tracker module: three kinds of workout (running, sports walking,
 swimming) turn raw sensor readings into a distance in kilometres, a mean
 speed in km/h and the kilocalories spent, and a dispatcher builds the right
 kind of workout from a three-letter code and a positional list of readings.

 The class hierarchy of the original (a base `Training` and three subclasses)
 is a closed datatype: the base is not one of its variants, so the base's
 "calories not implemented" case cannot arise. Every quantity is an exact
 `real`; the original computes in binary floating point.
 */
module Homework {

  // ---------------------------------------------------------------------
  // Constants of the base training (homework.py:25-27)
  // ---------------------------------------------------------------------

  /** Length of one step, in metres. */
  const LEN_STEP: real := 0.65
  const M_IN_KM: real := 1000.0
  /** Minutes in one hour (named HOURS_IN_MINUTES in the original). */
  const MINUTES_IN_HOUR: real := 60.0

  // Running (homework.py:61-62)
  const CALORIES_MEAN_SPEED_MULTIPLIER: real := 18.0
  const CALORIES_MEAN_SPEED_SHIFT: real := 1.79

  // Sports walking (homework.py:74-77)
  const WALKING_WEIGHT_MULTIPLIER: real := 0.035
  const WALKING_SPEED_HEIGHT_MULTIPLIER: real := 0.029
  /** Factor from km/h to m/s, as the original rounds it. */
  const KMH_IN_MSEC: real := 0.278
  const CM_IN_M: real := 100.0

  // Swimming (homework.py:98-100)
  /** Length of one stroke, in metres: swimming's override of LEN_STEP. */
  const SWIMMING_LEN_STEP: real := 1.38
  const SWIMMING_SPEED_SHIFT: real := 1.1
  const SWIMMING_WEIGHT_MULTIPLIER: real := 2.0

  // ---------------------------------------------------------------------
  // Data model
  // ---------------------------------------------------------------------

  /**
   One recorded workout, with its constructor's fields in declaration order:
   action is the number of steps or strokes, duration is in hours, weight in
   kilograms, height in centimetres, lengthPool in metres and countPool the
   number of pool lengths swum.
   */
  datatype Workout =
    | Running(action: real, duration: real, weight: real)
    | SportsWalking(action: real, duration: real, weight: real, height: real)
    | Swimming(action: real, duration: real, weight: real, lengthPool: real, countPool: real)

  /** The summary record a workout reports (the message text is not modelled). */
  datatype InfoMessage = InfoMessage(
    trainingType: string, duration: real, distance: real, speed: real, calories: real)

  /** The classes the dispatcher's table maps codes to. */
  datatype Kind = SwimmingKind | RunningKind | WalkingKind

  datatype Error =
    | UnknownWorkoutType(code: string)
      /** Constructing a class from a list of the wrong length. */
    | ArityMismatch(code: string, expected: nat, given: nat)

  datatype Option<T> = None | Some(value: T)

  datatype Result<T> = Ok(value: T) | Err(error: Error)

  /**
   The workouts whose derived quantities the original can compute without a
   division by zero: every mean speed divides by the duration, and walking's
   calories also divide by the height.
   */
  predicate Computable(w: Workout) {
    w.duration != 0.0 && (w.SportsWalking? ==> w.height != 0.0)
  }

  // ---------------------------------------------------------------------
  // Per-variant constants and labels
  // ---------------------------------------------------------------------

  /** The distance covered by one action, in metres. */
  function StepLength(w: Workout): (r: real)
    ensures r > 0.0
    ensures r == (if w.Swimming? then 1.38 else 0.65)
  {
    if w.Swimming? then SWIMMING_LEN_STEP else LEN_STEP
  }

  /** The class name a workout reports itself under. */
  function Label(w: Workout): (r: string)
    ensures r == "Running" <==> w.Running?
    ensures r == "SportsWalking" <==> w.SportsWalking?
    ensures r == "Swimming" <==> w.Swimming?
  {
    match w
    case Running(_, _, _) => "Running"
    case SportsWalking(_, _, _, _) => "SportsWalking"
    case Swimming(_, _, _, _, _) => "Swimming"
  }

  // ---------------------------------------------------------------------
  // Distance and mean speed
  // ---------------------------------------------------------------------

  /** Training.get_distance: the kilometres covered by `action` steps or strokes. */
  function Distance(w: Workout): (r: real)
    ensures r * M_IN_KM / StepLength(w) == w.action
    ensures w.action >= 0.0 ==> r >= 0.0
  {
    w.action * StepLength(w) / M_IN_KM
  }

  /** Training.get_mean_speed: distance over duration. */
  function BaseMeanSpeed(w: Workout): (r: real)
    requires w.duration != 0.0
    ensures r * w.duration == Distance(w)
  {
    Distance(w) / w.duration
  }

  /**
   The mean speed of a workout in km/h: the base formula for running and
   walking, and for swimming the pool length times the lengths swum, in
   kilometres, over the duration.
   */
  function MeanSpeed(w: Workout): (r: real)
    requires w.duration != 0.0
    ensures !w.Swimming? ==> r * w.duration == Distance(w)
    ensures w.Swimming? ==> r * w.duration * M_IN_KM == w.lengthPool * w.countPool
  {
    match w
    case Swimming(_, d, _, l, c) => l * c / M_IN_KM / d
    case _ => BaseMeanSpeed(w)
  }

  /** Running and walking inherit distance and speed unchanged from the base. */
  lemma RunningAndWalkingShareBase(action: real, duration: real, weight: real, height: real)
    requires duration != 0.0
    ensures Distance(Running(action, duration, weight))
         == Distance(SportsWalking(action, duration, weight, height))
    ensures MeanSpeed(Running(action, duration, weight))
         == BaseMeanSpeed(Running(action, duration, weight))
    ensures MeanSpeed(SportsWalking(action, duration, weight, height))
         == BaseMeanSpeed(SportsWalking(action, duration, weight, height))
    ensures MeanSpeed(Running(action, duration, weight))
         == MeanSpeed(SportsWalking(action, duration, weight, height))
  {
  }

  /** Swimming's mean speed is lap-based: the number of strokes does not enter it. */
  lemma SwimmingSpeedIgnoresAction(
    action: real, action': real, duration: real, weight: real, lengthPool: real, countPool: real)
    requires duration != 0.0
    ensures MeanSpeed(Swimming(action, duration, weight, lengthPool, countPool))
         == MeanSpeed(Swimming(action', duration, weight, lengthPool, countPool))
         == lengthPool * countPool / M_IN_KM / duration
  {
  }

  // ---------------------------------------------------------------------
  // Calories
  // ---------------------------------------------------------------------

  /** Walking's coefficient of action² · weight / (duration · height) once all constants are multiplied out. */
  const WALKING_ACTION_COEFFICIENT: real := 0.00000568153326

  /**
   Running.get_spent_calories. With the base mean speed substituted and the
   constants multiplied out, the calories no longer divide by the duration.
   */
  function RunningCalories(w: Workout): (r: real)
    requires w.Running? && w.duration != 0.0
    ensures r == 0.000702 * w.action * w.weight + 0.1074 * w.duration * w.weight
  {
    (CALORIES_MEAN_SPEED_MULTIPLIER * MeanSpeed(w) + CALORIES_MEAN_SPEED_SHIFT)
      * w.weight / M_IN_KM * w.duration * MINUTES_IN_HOUR
  }

  /** SportsWalking.get_spent_calories; `speed * speed` is the original's `** 2`. */
  function WalkingCalories(w: Workout): (r: real)
    requires w.SportsWalking? && w.duration != 0.0 && w.height != 0.0
    ensures r == 2.1 * w.duration * w.weight
               + WALKING_ACTION_COEFFICIENT * w.action * w.action * w.weight / (w.duration * w.height)
  {
    var speed := MeanSpeed(w) * KMH_IN_MSEC;
    (WALKING_WEIGHT_MULTIPLIER * w.weight
      + (speed * speed / (w.height / CM_IN_M)) * WALKING_SPEED_HEIGHT_MULTIPLIER * w.weight)
      * (w.duration * MINUTES_IN_HOUR)
  }

  /** Swimming.get_spent_calories, with the lap-based mean speed substituted. */
  function SwimmingCalories(w: Workout): (r: real)
    requires w.Swimming? && w.duration != 0.0
    ensures r == 0.002 * w.lengthPool * w.countPool * w.weight + 2.2 * w.duration * w.weight
  {
    (MeanSpeed(w) + SWIMMING_SPEED_SHIFT) * SWIMMING_WEIGHT_MULTIPLIER * w.weight * w.duration
  }

  /**
   Calories in closed form over the raw readings, with every mean speed
   substituted and every constant multiplied out.
   */
  function ReferenceCalories(w: Workout): (r: real)
    requires Computable(w)
  {
    match w
    case Running(a, d, m) => 0.000702 * a * m + 0.1074 * d * m
    case SportsWalking(a, d, m, h) => 2.1 * d * m + WALKING_ACTION_COEFFICIENT * a * a * m / (d * h)
    case Swimming(_, d, m, l, c) => 0.002 * l * c * m + 2.2 * d * m
  }

  /**
   The overriding get_spent_calories each variant dispatches to; whichever
   class it is, the result is the closed form.
   */
  function Calories(w: Workout): (r: real)
    requires Computable(w)
    ensures r == ReferenceCalories(w)
  {
    match w
    case Running(_, _, _) => RunningCalories(w)
    case SportsWalking(_, _, _, _) => WalkingCalories(w)
    case Swimming(_, _, _, _, _) => SwimmingCalories(w)
  }

  /** Swimming's calories, like its speed, do not depend on the number of strokes. */
  lemma SwimmingCaloriesIgnoreAction(
    action: real, action': real, duration: real, weight: real, lengthPool: real, countPool: real)
    requires duration != 0.0
    ensures SwimmingCalories(Swimming(action, duration, weight, lengthPool, countPool))
         == SwimmingCalories(Swimming(action', duration, weight, lengthPool, countPool))
  {
  }

  /** With non-negative readings and a positive duration, running burns no negative calories. */
  lemma RunningCaloriesNonNegative(w: Workout)
    requires w.Running? && w.duration > 0.0 && w.action >= 0.0 && w.weight >= 0.0
    ensures RunningCalories(w) >= 0.0
  {
  }

  /**
   Walking's calories are at least 2.1 kcal per hour and kilogram, hence
   non-negative, whenever weight is non-negative and duration and height are
   positive; the sign of `action` does not matter, since the speed is squared.
   */
  lemma WalkingCaloriesNonNegative(w: Workout)
    requires w.SportsWalking? && w.duration > 0.0 && w.height > 0.0 && w.weight >= 0.0
    ensures WalkingCalories(w) >= 2.1 * w.duration * w.weight
    ensures WalkingCalories(w) >= 0.0
  {
  }

  lemma SwimmingCaloriesNonNegative(w: Workout)
    requires w.Swimming? && w.duration > 0.0 && w.weight >= 0.0
    requires w.lengthPool >= 0.0 && w.countPool >= 0.0
    ensures SwimmingCalories(w) >= 0.0
  {
  }

  /** More steps, otherwise the same run, burn more calories (for a positive weight). */
  lemma RunningCaloriesMonotoneInAction(action: real, action': real, duration: real, weight: real)
    requires duration != 0.0 && weight > 0.0 && action < action'
    ensures RunningCalories(Running(action, duration, weight))
          < RunningCalories(Running(action', duration, weight))
  {
  }

  // ---------------------------------------------------------------------
  // The summary
  // ---------------------------------------------------------------------

  /**
   Training.show_training_info: the workout's label, its stored duration,
   and its distance, mean speed and calories.
   */
  function ShowInfo(w: Workout): (m: InfoMessage)
    requires Computable(w)
    ensures m.trainingType == Label(w) && m.duration == w.duration
    ensures m.distance * M_IN_KM == w.action * StepLength(w)
    ensures !w.Swimming? ==> m.speed * w.duration == m.distance
    ensures w.Swimming? ==> m.speed * w.duration * M_IN_KM == w.lengthPool * w.countPool
    ensures m.calories == ReferenceCalories(w)
  {
    InfoMessage(Label(w), w.duration, Distance(w), MeanSpeed(w), Calories(w))
  }

  // ---------------------------------------------------------------------
  // The dispatcher
  // ---------------------------------------------------------------------

  /**
   read_package's table from workout codes to classes, as the entries of the
   dictionary literal in their insertion order.
   */
  const TRAINING_TYPES: seq<(string, Kind)> :=
    [("SWM", SwimmingKind), ("RUN", RunningKind), ("WLK", WalkingKind)]

  /**
   Looking a code up in a table of entries: the kind of the first entry with
   that code, or None (`not in`) when no entry has it.
   */
  function Lookup(entries: seq<(string, Kind)>, code: string): (r: Option<Kind>)
    ensures r.None? <==> forall i :: 0 <= i < |entries| ==> entries[i].0 != code
    ensures r.Some? ==>
      exists i :: 0 <= i < |entries| && entries[i] == (code, r.value)
        && forall j :: 0 <= j < i ==> entries[j].0 != code
  {
    if |entries| == 0 then None
    else if entries[0].0 == code then Some(entries[0].1)
    else
      var r := Lookup(entries[1..], code);
      assert forall i :: 1 <= i < |entries| ==> entries[i] == entries[1..][i - 1];
      r
  }

  /** The table's codes are distinct, so the first entry with a code is its only one. */
  lemma TrainingTypesKeysDistinct()
    ensures forall i, j :: 0 <= i < j < |TRAINING_TYPES| ==> TRAINING_TYPES[i].0 != TRAINING_TYPES[j].0
  {
  }

  /** The number of positional parameters each class's constructor takes. */
  function Arity(k: Kind): (r: nat) {
    match k
    case RunningKind => 3
    case WalkingKind => 4
    case SwimmingKind => 5
  }

  function KindOf(w: Workout): (r: Kind) {
    match w
    case Running(_, _, _) => RunningKind
    case SportsWalking(_, _, _, _) => WalkingKind
    case Swimming(_, _, _, _, _) => SwimmingKind
  }

  /** The code read_package builds a workout of this kind from. */
  function Code(w: Workout): (r: string) {
    match w
    case Running(_, _, _) => "RUN"
    case SportsWalking(_, _, _, _) => "WLK"
    case Swimming(_, _, _, _, _) => "SWM"
  }

  /** A workout's constructor arguments, in declaration order. */
  function Fields(w: Workout): (r: seq<real>)
    ensures |r| == Arity(KindOf(w))
  {
    match w
    case Running(a, d, m) => [a, d, m]
    case SportsWalking(a, d, m, h) => [a, d, m, h]
    case Swimming(a, d, m, l, c) => [a, d, m, l, c]
  }

  /**
   Calling the class of kind `k` with `*data`: binds the readings to the
   constructor's parameters by position, and fails when their number differs.
   */
  function Construct(code: string, k: Kind, data: seq<real>): (r: Result<Workout>)
    ensures r.Ok? <==> |data| == Arity(k)
    ensures r.Ok? ==> KindOf(r.value) == k && Fields(r.value) == data
    ensures r.Err? ==> r.error == ArityMismatch(code, Arity(k), |data|)
  {
    if |data| != Arity(k) then Err(ArityMismatch(code, Arity(k), |data|))
    else
      match k
      case RunningKind => Ok(Running(data[0], data[1], data[2]))
      case WalkingKind => Ok(SportsWalking(data[0], data[1], data[2], data[3]))
      case SwimmingKind => Ok(Swimming(data[0], data[1], data[2], data[3], data[4]))
  }

  /**
   read_package: looks the code up in the table, fails on a code it does not
   hold, and otherwise constructs that class from the readings.
   */
  function ReadPackage(code: string, data: seq<real>): (r: Result<Workout>)
    ensures code !in {"SWM", "RUN", "WLK"} ==> r == Err(UnknownWorkoutType(code))
    ensures code == "RUN" ==> (r.Ok? <==> |data| == 3)
    ensures code == "WLK" ==> (r.Ok? <==> |data| == 4)
    ensures code == "SWM" ==> (r.Ok? <==> |data| == 5)
    ensures r.Err? && code in {"SWM", "RUN", "WLK"} ==>
      r.error.ArityMismatch? && r.error.code == code && r.error.given == |data|
    ensures r.Ok? ==> Code(r.value) == code && Fields(r.value) == data
  {
    match Lookup(TRAINING_TYPES, code)
    case None => Err(UnknownWorkoutType(code))
    case Some(k) => Construct(code, k, data)
  }

  /** The codes the dispatcher accepts, and the variant each one builds. */
  lemma ReadPackageDispatch(code: string, data: seq<real>)
    ensures ReadPackage(code, data).Ok? ==> code in {"SWM", "RUN", "WLK"}
    ensures ReadPackage(code, data).Ok? ==>
      (code == "SWM" <==> ReadPackage(code, data).value.Swimming?) &&
      (code == "RUN" <==> ReadPackage(code, data).value.Running?) &&
      (code == "WLK" <==> ReadPackage(code, data).value.SportsWalking?)
    ensures code !in {"SWM", "RUN", "WLK"} ==> ReadPackage(code, data) == Err(UnknownWorkoutType(code))
  {
  }

  /** Every workout is rebuilt exactly from its code and its fields. */
  lemma ReadPackageRoundTrip(w: Workout)
    ensures ReadPackage(Code(w), Fields(w)) == Ok(w)
  {
    match w
    case Running(_, _, _) =>
    case SportsWalking(_, _, _, _) =>
    case Swimming(_, _, _, _, _) =>
  }
}
