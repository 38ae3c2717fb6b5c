/** Properties of the dispatcher, and the three packages of the program's
    entry point worked through the dispatcher and the formulas. */
module DispatchFacts {
  import opened Wrappers
  import opened Workouts
  import opened Dispatch

  /** Every workout is read back from its own code and fields. */
  lemma ReadPackageRoundTrip(w: Workout)
    ensures ReadPackage(CodeOf(w), FieldsOf(w)) == Success(Some(w))
  {
  }

  /** A successfully read package fixes the workout: two packages that read
      to the same workout carry the same code and the same fields. */
  lemma ReadPackageInjective(c1: string, d1: seq<real>, c2: string, d2: seq<real>)
    requires ReadPackage(c1, d1).Success? && ReadPackage(c1, d1).value.Some?
    requires ReadPackage(c1, d1) == ReadPackage(c2, d2)
    ensures c1 == c2 && d1 == d2
  {
  }

  /** The summary names the workout type: two summaries carry the same
      name exactly when the workouts came from the same code. */
  lemma SummaryNamesCode(w1: Workout, w2: Workout)
    requires Computable(w1) && Computable(w2)
    ensures ShowTrainingInfo(w1).trainingType == ShowTrainingInfo(w2).trainingType
        <==> CodeOf(w1) == CodeOf(w2)
  {
  }

  /** The swimming package of the entry point: 720 strokes, 1 hour, 80 kg,
      a 25 m pool swum 40 times. */
  lemma EntrySwimming()
    ensures ReadPackage("SWM", [720.0, 1.0, 80.0, 25.0, 40.0])
         == Success(Some(Swimming(720.0, 1.0, 80.0, 25.0, 40.0)))
    ensures ShowTrainingInfo(Swimming(720.0, 1.0, 80.0, 25.0, 40.0))
         == InfoMessage("Swimming", 1.0, 0.9936, 1.0, 336.0)
  {
  }

  /** The running package of the entry point: 15000 steps, 1 hour, 75 kg. */
  lemma EntryRunning()
    ensures ReadPackage("RUN", [15000.0, 1.0, 75.0]) == Success(Some(Running(15000.0, 1.0, 75.0)))
    ensures ShowTrainingInfo(Running(15000.0, 1.0, 75.0))
         == InfoMessage("Running", 1.0, 9.75, 9.75, 797.805)
  {
  }

  /** The walking package of the entry point: 9000 steps, 1 hour, 75 kg,
      180 cm. */
  lemma EntryWalking()
    ensures ReadPackage("WLK", [9000.0, 1.0, 75.0, 180.0])
         == Success(Some(SportsWalking(9000.0, 1.0, 75.0, 180.0)))
    ensures ShowTrainingInfo(SportsWalking(9000.0, 1.0, 75.0, 180.0))
         == InfoMessage("SportsWalking", 1.0, 5.85, 5.85, 349.251747525)
  {
  }
}
