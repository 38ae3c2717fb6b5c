/**
 The workout model of the fitness tracker: one reading per workout type,
 with the distance, mean speed and calorie formulas of each type and the
 summary a workout reports about itself.

 Arithmetic is exact (`real`), not IEEE-754 floating point.
 */
module Workouts {

  /** One workout reading. Each constructor is one subclass of the base
      training class; the first three fields are the base class's. */
  datatype Workout =
    | Running(action: real, duration: real, weight: real)
    | SportsWalking(action: real, duration: real, weight: real, height: real)
    | Swimming(action: real, duration: real, weight: real, lengthPool: real, countPool: real)

  /** Summary of a finished workout (the info message). */
  datatype InfoMessage = InfoMessage(
    trainingType: string,
    duration: real,
    distance: real,
    speed: real,
    calories: real)

  // Constants of the base class.
  const LenStep: real := 0.65        // metres per step, running and walking
  const MInKm: real := 1000.0        // metres in a kilometre
  const MinInH: real := 60.0         // minutes in an hour

  // Running.
  const CaloriesMeanSpeedMultiplier: real := 18.0
  const CaloriesMeanSpeedShift: real := 1.79

  // Sports walking.
  const WeightFactor: real := 0.035       // first walking coefficient
  const SpeedHeightFactor: real := 0.029  // second walking coefficient
  const KmhInMs: real := 0.278            // km/h to m/s conversion factor
  const CmInM: real := 100.0              // centimetres in a metre

  // Swimming.
  const SwimSpeedShift: real := 1.1
  const SwimWeightMultiplier: real := 2.0
  const SwimLenStep: real := 1.38    // metres per stroke

  /** The base class's distance in km for a given step length. */
  function BaseDistance(action: real, lenStep: real): (d: real)
    ensures d * MInKm == action * lenStep
  {
    action * lenStep / MInKm
  }

  /** The base class's mean speed: distance over duration. Python raises
      ZeroDivisionError on a zero duration, so callers must exclude it. */
  function BaseMeanSpeed(distance: real, duration: real): (s: real)
    requires duration != 0.0
    ensures s * duration == distance
  {
    distance / duration
  }

  /** Metres covered by one unit of action in each workout type. */
  function StepLength(w: Workout): real
  {
    match w
    case Running(_, _, _) => LenStep
    case SportsWalking(_, _, _, _) => LenStep
    case Swimming(_, _, _, _, _) => SwimLenStep
  }

  /** Distance in km: the base formula with each type's step length. */
  function Distance(w: Workout): (d: real)
    ensures d * MInKm == w.action * StepLength(w)
    ensures w.action >= 0.0 ==> d >= 0.0
  {
    match w
    case Running(_, _, _) => BaseDistance(w.action, LenStep)
    case SportsWalking(_, _, _, _) => BaseDistance(w.action, LenStep)
    case Swimming(_, _, _, _, _) => BaseDistance(w.action, SwimLenStep)
  }

  /** Mean speed in km/h. Running and walking divide their distance by the
      duration; swimming uses pool length times lap count instead. */
  function MeanSpeed(w: Workout): (s: real)
    requires w.duration != 0.0
    ensures !w.Swimming? ==> s * w.duration == Distance(w)
    ensures w.Swimming? ==> s * w.duration * MInKm == w.lengthPool * w.countPool
  {
    match w
    case Running(_, _, _) => BaseMeanSpeed(Distance(w), w.duration)
    case SportsWalking(_, _, _, _) => BaseMeanSpeed(Distance(w), w.duration)
    case Swimming(_, _, _, lengthPool, countPool) =>
      lengthPool * countPool / MInKm / w.duration
  }

  /** Every division the summary performs has a non-zero divisor: the
      duration, and for walking also the height. */
  predicate Computable(w: Workout)
  {
    w.duration != 0.0 && (w.SportsWalking? ==> w.height != 0.0)
  }

  /** Running calories per minute at a given mean speed. */
  function RunningCaloriesPerMinute(speed: real, weight: real): real
  {
    (CaloriesMeanSpeedMultiplier * speed + CaloriesMeanSpeedShift) * weight / MInKm
  }

  /** Walking calories per minute at a given mean speed; Python raises
      ZeroDivisionError on a zero height. */
  function WalkingCaloriesPerMinute(speed: real, weight: real, height: real): real
    requires height != 0.0
  {
    var v := speed * KmhInMs;
    WeightFactor * weight + v * v / (height / CmInM) * SpeedHeightFactor * weight
  }

  /** Calories burned, by each type's own formula. For running and
      swimming the duration cancels out of the speed term, which gives the
      closed forms below. */
  function SpentCalories(w: Workout): (c: real)
    requires Computable(w)
    ensures w.Running? ==>
      c == (CaloriesMeanSpeedMultiplier * Distance(w) + CaloriesMeanSpeedShift * w.duration)
           * w.weight * MinInH / MInKm
    ensures w.Swimming? ==>
      c == (w.lengthPool * w.countPool / MInKm + SwimSpeedShift * w.duration)
           * SwimWeightMultiplier * w.weight
  {
    match w
    case Running(_, duration, weight) =>
      RunningCaloriesPerMinute(MeanSpeed(w), weight) * duration * MinInH
    case SportsWalking(_, duration, weight, height) =>
      WalkingCaloriesPerMinute(MeanSpeed(w), weight, height) * duration * MinInH
    case Swimming(_, duration, weight, _, _) =>
      (MeanSpeed(w) + SwimSpeedShift) * SwimWeightMultiplier * weight * duration
  }

  /** The same reading with a different action count. */
  function WithAction(w: Workout, a: real): (r: Workout)
    ensures r.action == a
    ensures TypeName(r) == TypeName(w) && r.duration == w.duration && r.weight == w.weight
  {
    match w
    case Running(_, duration, weight) => Running(a, duration, weight)
    case SportsWalking(_, duration, weight, height) => SportsWalking(a, duration, weight, height)
    case Swimming(_, duration, weight, lengthPool, countPool) =>
      Swimming(a, duration, weight, lengthPool, countPool)
  }

  /** The class name each workout reports in its summary. */
  function TypeName(w: Workout): string
  {
    match w
    case Running(_, _, _) => "Running"
    case SportsWalking(_, _, _, _) => "SportsWalking"
    case Swimming(_, _, _, _, _) => "Swimming"
  }

  /** The summary of a workout: its own class name, its duration, and
      exactly the values of its own distance, speed and calorie formulas. */
  function ShowTrainingInfo(w: Workout): (m: InfoMessage)
    requires Computable(w)
    ensures m.trainingType == TypeName(w)
    ensures m.duration == w.duration
    ensures m.distance == Distance(w) && m.speed == MeanSpeed(w) && m.calories == SpentCalories(w)
    ensures !w.Swimming? ==> m.speed * m.duration == m.distance
    ensures w.Swimming? ==> m.speed * m.duration * MInKm == w.lengthPool * w.countPool
  {
    InfoMessage(TypeName(w), w.duration, Distance(w), MeanSpeed(w), SpentCalories(w))
  }
}
