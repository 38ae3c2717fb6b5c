/**
 The dispatcher that turns one sensor package (a workout code and a
 positional list of numbers) into a workout reading.
 */
module Dispatch {
  import opened Wrappers
  import opened Workouts

  /** Tuple unpacking of a list of the wrong length: Python's ValueError
      ("not enough" / "too many values to unpack"). */
  datatype UnpackError = UnpackError(expected: nat, got: nat)

  const SwimmingCode: string := "SWM"
  const RunningCode: string := "RUN"
  const WalkingCode: string := "WLK"

  /** The codes the dispatcher has a branch for. */
  const KnownCodes: set<string> := {SwimmingCode, RunningCode, WalkingCode}

  /** The number of positional fields each known code unpacks. */
  function Arity(code: string): nat
    requires code in KnownCodes
  {
    if code == SwimmingCode then 5
    else if code == RunningCode then 3
    else 4
  }

  /** The code a package for this workout carries. */
  function CodeOf(w: Workout): (c: string)
    ensures c in KnownCodes
  {
    match w
    case Swimming(_, _, _, _, _) => SwimmingCode
    case Running(_, _, _) => RunningCode
    case SportsWalking(_, _, _, _) => WalkingCode
  }

  /** The positional fields of a package for this workout, in the order the
      dispatcher binds them. */
  function FieldsOf(w: Workout): (data: seq<real>)
    ensures |data| == Arity(CodeOf(w))
    ensures data[0] == w.action && data[1] == w.duration && data[2] == w.weight
  {
    match w
    case Swimming(action, duration, weight, lengthPool, countPool) =>
      [action, duration, weight, lengthPool, countPool]
    case Running(action, duration, weight) => [action, duration, weight]
    case SportsWalking(action, duration, weight, height) => [action, duration, weight, height]
  }

  /** Reads one package. The branches are tried in order SWM, RUN, WLK; a
      matching branch unpacks the list into exactly its fields (a list of
      another length raises), and a code that matches no branch yields no
      workout at all. */
  function ReadPackage(workoutType: string, data: seq<real>): (r: Result<Option<Workout>, UnpackError>)
    ensures r == Success(None) <==> workoutType !in KnownCodes
    ensures r.Failure? <==> workoutType in KnownCodes && |data| != Arity(workoutType)
    ensures r.Failure? ==> r.error == UnpackError(Arity(workoutType), |data|)
    ensures r.Success? && r.value.Some? ==>
      CodeOf(r.value.value) == workoutType && FieldsOf(r.value.value) == data
  {
    if workoutType == SwimmingCode then
      if |data| != 5 then Failure(UnpackError(5, |data|))
      else Success(Some(Swimming(data[0], data[1], data[2], data[3], data[4])))
    else if workoutType == RunningCode then
      if |data| != 3 then Failure(UnpackError(3, |data|))
      else Success(Some(Running(data[0], data[1], data[2])))
    else if workoutType == WalkingCode then
      if |data| != 4 then Failure(UnpackError(4, |data|))
      else Success(Some(SportsWalking(data[0], data[1], data[2], data[3])))
    else
      Success(None)
  }
}
