# Workout calculator — a Dafny model

This project models a small fitness tracker. It reads a sensor package: a
workout code (`SWM`, `RUN` or `WLK`) and a positional list of numbers. From
that it builds a reading of one of three workout types (Running,
SportsWalking, Swimming). For that reading it computes the distance in km,
the mean speed in km/h and the calories burned. The result is a summary
that carries the class name and those three values.

The model is written over Dafny `real`, which is exact rational arithmetic.
It is not IEEE-754 floating point.

- `wrappers.dfy` (`Wrappers`): `Option` (Python's `None`) and `Result`
  (a value, or the exception raised).
- `workouts.dfy` (`Workouts`): the `Workout` datatype, with one constructor
  per subclass of `Training`. It also has the class constants and the
  distance, speed and calorie formulas. `ShowTrainingInfo` builds the summary
  (`InfoMessage`).
- `dispatch.dfy` (`Dispatch`): `read_package` as `ReadPackage`. Its
  partners are `CodeOf` and `FieldsOf`, which say which package a workout is
  read from.
- `workout_facts.dfy` (`WorkoutFacts`): linearity, non-negativity and
  monotonicity of the formulas.
- `dispatch_facts.dfy` (`DispatchFacts`): round trip and injectivity of the
  dispatcher. It also states what the dispatcher and the formulas give for
  the three packages of the entry point.

Python raises `ZeroDivisionError` only when a divisor is exactly zero.
Because of that, the speed and calorie functions require `duration != 0`,
and walking also requires `height != 0`. This is the predicate
`Workouts.Computable`. Lemmas about signs and monotonicity ask for
`duration > 0` and the other physical bounds in `WorkoutFacts.CaloriesInputs`
(and, where the action count matters, `WorkoutFacts.Plausible`).

Three behaviours of the code are worth stating up front:
- An unknown code matches none of the three branches. The dispatcher then
  returns `None` and does not raise, so `ReadPackage` gives `Success(None)`.
- A known code with a list of the wrong length makes tuple unpacking raise
  `ValueError`. This is modelled as `Failure(UnpackError(expected, got))`.
- The running package of the entry point (15000 steps, 1 h, 75 kg) gives
  797.805 calories in exact arithmetic (`DispatchFacts.EntryRunning`); the
  program's double-precision result is the nearest float to it.

## Model

| member | source | states |
|---|---|---|
| Workouts.BaseDistance | homework.py:40-42 | The base distance in km, multiplied by 1000 m/km, is the action count times the step length. |
| Workouts.BaseMeanSpeed | homework.py:44-46 | The base mean speed times the duration gives back the distance. It needs a non-zero duration, because Python raises on a zero divisor. |
| Workouts.Distance | homework.py:66-122 | For every type, distance × 1000 = action × that type's step length. The step length is 0.65 m for Running and SportsWalking and 1.38 m for Swimming. The distance is non-negative when the action count is. |
| Workouts.MeanSpeed | homework.py:69-126 | For Running and SportsWalking, speed × duration = distance. For Swimming, speed × duration × 1000 = pool length × lap count, whatever the action count. It needs a non-zero duration. |
| Workouts.ShowTrainingInfo | homework.py:77-135 | The summary carries the type's own class name and duration. Its distance, speed and calories are exactly the type's own formulas. Within the summary, speed × duration equals the distance (Running and SportsWalking) or the pool distance in km (Swimming). |
| Workouts.SpentCalories | homework.py:72-130 | Running calories = (18·distance + 1.79·duration)·weight·60/1000, with the duration cancelled out of the speed term. Swimming calories = (pool length·laps/1000 + 1.1·duration)·2·weight. It needs a non-zero duration, and for walking a non-zero height. |
| Dispatch.CodeOf | homework.py:140-148 | Every workout has one of the three known codes. |
| Dispatch.FieldsOf | homework.py:140-148 | A workout's package has the arity of its code, and it starts with action, duration and weight in that order. |
| Dispatch.ReadPackage | homework.py:138-148 | An unknown code gives `Success(None)`, and only an unknown code does. A known code with a list of the wrong length gives `Failure(UnpackError(arity, length))`, and that is the only failure. A read workout has exactly the given code, and its fields are the list, bound by position. |
| DispatchFacts.ReadPackageRoundTrip | homework.py:140-148 | Every workout is read back from its own code and fields. |
| DispatchFacts.ReadPackageInjective | homework.py:140-148 | Two packages that read to the same workout have the same code and the same list. |
| DispatchFacts.SummaryNamesCode | homework.py:77-80 | Two summaries carry the same type name exactly when their workouts come from the same code. |
| DispatchFacts.EntrySwimming | homework.py:160 | `SWM [720, 1, 80, 25, 40]` reads as Swimming with those fields. Its summary is distance 0.9936, speed 1 and calories 336. |
| DispatchFacts.EntryRunning | homework.py:161 | `RUN [15000, 1, 75]` reads as Running. Its summary is distance 9.75, speed 9.75 and calories 797.805. |
| DispatchFacts.EntryWalking | homework.py:162 | `WLK [9000, 1, 75, 180]` reads as SportsWalking. Its summary is distance 5.85, speed 5.85 and calories 349.251747525. |
| WorkoutFacts.DistanceAdditive | homework.py:40-42 | Distance is additive in the action count for every type. |
| WorkoutFacts.SwimmingIgnoresAction | homework.py:124-130 | Two Swimming readings that differ only in the action count have equal speed and equal calories. |
| WorkoutFacts.CaloriesNonNegative | homework.py:72-130 | Calories are non-negative for every type when the duration is positive and the weight non-negative, with the running action count, the pool length and the lap count non-negative and the walking height positive. Walking and swimming need no bound on the action count. |
| WorkoutFacts.SpeedMonotoneInAction | homework.py:44-46 | For Running and SportsWalking, more actions in the same positive duration never give a lower mean speed. |
| WorkoutFacts.WalkingRateMonotone | homework.py:100-103 | The walking calories per minute never decrease as the (non-negative) mean speed grows. |
| WorkoutFacts.CaloriesMonotoneInAction | homework.py:72-130 | More actions in the same time never burn fewer calories, for every type. For Swimming the calories are equal whatever the two action counts. |
| WorkoutFacts.SwimmingCaloriesMonotoneInLaps | homework.py:124-130 | More laps of the same pool in the same time never burn fewer calories. |

## Left out

- `InfoMessage.get_message` (homework.py:17-22): the `:.3f` fixed-point rendering is float-to-decimal formatting with rounding. Exact reals do not model it. The summary is kept as the record of its five values.
- `main` and the `__main__` loop (homework.py:151-167): these only print to the console. The three package literals are kept as the lemmas `EntrySwimming`, `EntryRunning` and `EntryWalking`.
- The base `Training.get_spent_calories` and `Training.show_training_info` (homework.py:48-56): the first returns `None` and the second passes the unevaluated bound method. `Training` is treated as abstract, and only its three subclasses are constructors of `Workout`.
- IEEE-754 rounding: all formulas are exact over `real`. Bit-exact float results and effects of operation order are not modelled. The operation order of the code is still kept in the formulas.
- Python's dynamic typing: every positional field, the action count included, is a `real`. A list holding something other than numbers is not modelled.
- The `ZeroDivisionError` raised by a zero duration, or a zero height for walking, is a precondition (`Computable`) of the speed and calorie functions. It is not a modelled error result.
