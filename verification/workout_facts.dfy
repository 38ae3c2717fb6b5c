/** Properties of the workout formulas that relate several readings or
    follow from the formulas only after some algebra. */
module WorkoutFacts {
  import opened Workouts

  /** The bounds under which every type's calories are non-negative: a
      positive duration, a non-negative weight, and the inputs each formula
      multiplies by without squaring them (the running action count, the
      pool length and lap count) non-negative; walking needs a positive
      height. */
  predicate CaloriesInputs(w: Workout)
  {
    && w.duration > 0.0 && w.weight >= 0.0
    && (w.Running? ==> w.action >= 0.0)
    && (w.SportsWalking? ==> w.height > 0.0)
    && (w.Swimming? ==> w.lengthPool >= 0.0 && w.countPool >= 0.0)
  }

  /** A physically meaningful reading: non-negative action count, and the
      calorie bounds above. */
  predicate Plausible(w: Workout)
  {
    w.action >= 0.0 && CaloriesInputs(w)
  }

  /** Distance is linear in the action count: splitting the actions of a
      reading between two otherwise equal readings splits the distance. */
  lemma DistanceAdditive(w: Workout, a1: real, a2: real)
    ensures Distance(WithAction(w, a1 + a2))
         == Distance(WithAction(w, a1)) + Distance(WithAction(w, a2))
  {
  }

  /** A swimming reading's speed and calories do not depend on the action
      count: two readings that differ only there report the same values. */
  lemma SwimmingIgnoresAction(w: Workout, a: real)
    requires w.Swimming? && w.duration != 0.0
    ensures MeanSpeed(WithAction(w, a)) == MeanSpeed(w)
    ensures SpentCalories(WithAction(w, a)) == SpentCalories(w)
  {
  }

  /** Every workout within the calorie bounds burns a non-negative number
      of calories; walking and swimming do so whatever the action count. */
  lemma CaloriesNonNegative(w: Workout)
    requires CaloriesInputs(w)
    ensures SpentCalories(w) >= 0.0
  {
    match w
    case Running(_, _, _) => RunningCaloriesNonNegative(w);
    case SportsWalking(_, _, _, _) => WalkingCaloriesNonNegative(w);
    case Swimming(_, _, _, _, _) => SwimmingCaloriesNonNegative(w);
  }

  /** The running case of `CaloriesNonNegative`. */
  lemma RunningCaloriesNonNegative(w: Workout)
    requires w.Running? && CaloriesInputs(w)
    ensures SpentCalories(w) >= 0.0
  {
    var k := CaloriesMeanSpeedMultiplier * Distance(w) + CaloriesMeanSpeedShift * w.duration;
    ScaleMonotone(0.0, k, w.weight);
    ScaleMonotone(0.0, k * w.weight, MinInH);
    DivMonotone(0.0, k * w.weight * MinInH, MInKm);
  }

  /** The walking case of `CaloriesNonNegative`. */
  lemma WalkingCaloriesNonNegative(w: Workout)
    requires w.SportsWalking? && CaloriesInputs(w)
    ensures SpentCalories(w) >= 0.0
  {
    var v := MeanSpeed(w) * KmhInMs;
    assert v * v >= 0.0;
    DivMonotone(0.0, v * v, w.height / CmInM);
    ScaleMonotone(0.0, v * v / (w.height / CmInM), SpeedHeightFactor);
    ScaleMonotone(0.0, v * v / (w.height / CmInM) * SpeedHeightFactor, w.weight);
    var r := WalkingCaloriesPerMinute(MeanSpeed(w), w.weight, w.height);
    ScaleMonotone(0.0, r, w.duration);
    ScaleMonotone(0.0, r * w.duration, MinInH);
  }

  /** The swimming case of `CaloriesNonNegative`. */
  lemma SwimmingCaloriesNonNegative(w: Workout)
    requires w.Swimming? && CaloriesInputs(w)
    ensures SpentCalories(w) >= 0.0
  {
    ScaleMonotone(0.0, w.lengthPool, w.countPool);
    DivMonotone(0.0, w.lengthPool * w.countPool, MInKm);
    var k := w.lengthPool * w.countPool / MInKm + SwimSpeedShift * w.duration;
    ScaleMonotone(0.0, k, SwimWeightMultiplier);
    ScaleMonotone(0.0, k * SwimWeightMultiplier, w.weight);
  }

  /** Multiplying by a non-negative factor keeps the order. */
  lemma ScaleMonotone(x: real, y: real, c: real)
    requires x <= y && c >= 0.0
    ensures x * c <= y * c
  {
  }

  /** Dividing by a positive divisor keeps the order. */
  lemma DivMonotone(x: real, y: real, c: real)
    requires x <= y && c > 0.0
    ensures x / c <= y / c
  {
  }

  /** Running and walking speed grow with the action count. */
  lemma SpeedMonotoneInAction(w: Workout, a1: real, a2: real)
    requires !w.Swimming? && w.duration > 0.0 && a1 <= a2
    ensures MeanSpeed(WithAction(w, a1)) <= MeanSpeed(WithAction(w, a2))
  {
    var w1, w2 := WithAction(w, a1), WithAction(w, a2);
    ScaleMonotone(a1, a2, LenStep);
    DivMonotone(a1 * LenStep, a2 * LenStep, MInKm);
    DivMonotone(Distance(w1), Distance(w2), w.duration);
  }

  /** Walking burns more per minute the faster one walks. */
  lemma WalkingRateMonotone(s1: real, s2: real, weight: real, height: real)
    requires 0.0 <= s1 <= s2 && weight >= 0.0 && height > 0.0
    ensures WalkingCaloriesPerMinute(s1, weight, height) <= WalkingCaloriesPerMinute(s2, weight, height)
  {
  }

  /** More actions in the same time never burn fewer calories; for
      swimming the action count makes no difference at all. */
  lemma CaloriesMonotoneInAction(w: Workout, a1: real, a2: real)
    requires Plausible(WithAction(w, a1)) && a1 <= a2
    ensures SpentCalories(WithAction(w, a1)) <= SpentCalories(WithAction(w, a2))
    ensures w.Swimming? ==> SpentCalories(WithAction(w, a1)) == SpentCalories(WithAction(w, a2))
  {
    var w1 := WithAction(w, a1);
    match w
    case Running(_, _, _) => RunningCaloriesMonotoneInAction(w1, a2);
    case SportsWalking(_, _, _, _) => WalkingCaloriesMonotoneInAction(w1, a2);
    case Swimming(_, _, _, _, _) =>
      SwimmingIgnoresAction(w1, a2);
      assert WithAction(w1, a2) == WithAction(w, a2);
  }

  /** The running case of `CaloriesMonotoneInAction`; running needs no bound
      on the action count. */
  lemma RunningCaloriesMonotoneInAction(w: Workout, a: real)
    requires w.Running? && w.duration > 0.0 && w.weight >= 0.0 && w.action <= a
    ensures SpentCalories(w) <= SpentCalories(WithAction(w, a))
  {
    var w2 := WithAction(w, a);
    ScaleMonotone(w.action, a, LenStep);
    DivMonotone(w.action * LenStep, a * LenStep, MInKm);
    var k1 := CaloriesMeanSpeedMultiplier * Distance(w) + CaloriesMeanSpeedShift * w.duration;
    var k2 := CaloriesMeanSpeedMultiplier * Distance(w2) + CaloriesMeanSpeedShift * w.duration;
    ScaleMonotone(k1, k2, w.weight);
    ScaleMonotone(k1 * w.weight, k2 * w.weight, MinInH);
    DivMonotone(k1 * w.weight * MinInH, k2 * w.weight * MinInH, MInKm);
  }

  /** The walking case of `CaloriesMonotoneInAction`. */
  lemma WalkingCaloriesMonotoneInAction(w: Workout, a: real)
    requires w.SportsWalking? && Plausible(w) && w.action <= a
    ensures SpentCalories(w) <= SpentCalories(WithAction(w, a))
  {
    var w2 := WithAction(w, a);
    SpeedMonotoneInAction(w, w.action, a);
    assert WithAction(w, w.action) == w;
    var r1 := WalkingCaloriesPerMinute(MeanSpeed(w), w.weight, w.height);
    var r2 := WalkingCaloriesPerMinute(MeanSpeed(w2), w.weight, w.height);
    WalkingRateMonotone(MeanSpeed(w), MeanSpeed(w2), w.weight, w.height);
    ScaleMonotone(r1, r2, w.duration);
    ScaleMonotone(r1 * w.duration, r2 * w.duration, MinInH);
  }

  /** More laps of the same pool in the same time never burn fewer calories. */
  lemma SwimmingCaloriesMonotoneInLaps(w: Workout, laps: real)
    requires w.Swimming? && CaloriesInputs(w) && w.countPool <= laps
    ensures SpentCalories(w) <= SpentCalories(w.(countPool := laps))
  {
    var w2 := w.(countPool := laps);
    ScaleMonotone(w.countPool, laps, w.lengthPool);
    DivMonotone(w.lengthPool * w.countPool, w.lengthPool * laps, MInKm);
    DivMonotone(w.lengthPool * w.countPool / MInKm, w.lengthPool * laps / MInKm, w.duration);
    ScaleMonotone(MeanSpeed(w) + SwimSpeedShift, MeanSpeed(w2) + SwimSpeedShift,
                  SwimWeightMultiplier * w.weight * w.duration);
  }
}
