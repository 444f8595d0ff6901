# Workout calculators (hw_python_oop)

A model of `homework.py`, a fitness-tracker module. Three kinds of workout
(`Running`, `SportsWalking`, `Swimming`, subclasses of a base `Training`)
turn raw sensor readings into a distance in kilometres, a mean speed in km/h
and the kilocalories spent. `show_training_info` bundles these into an
`InfoMessage` record. `read_package` maps a three-letter code (`SWM`, `RUN`,
`WLK`) to one of the classes and builds it from a positional list of
readings.

The model is pure, as the original is: every field is set once by a
constructor, and every method is one arithmetic expression over those fields.

- `homework.dfy`, module `Homework`:
  - the per-class constants;
  - `datatype Workout` with one variant per concrete class, and the fields in
    constructor order;
  - `Distance`, `BaseMeanSpeed` (the base class's speed), `MeanSpeed` (with
    swimming's override) and the per-class calorie functions, dispatched by
    `Calories`;
  - `ShowInfo`, and `ReadPackage` over the table `TRAINING_TYPES`, the
    dictionary literal's entries in insertion order, searched by `Lookup`;
  - lemmas about all of these.
- `scenarios.dfy`, module `Scenarios`: the three sample packages of the
  demo driver and the dispatcher's two failures, worked out exactly.

Every quantity is an exact `real`, a deliberate choice. All constants of the
original are finite decimals, so the formulas hold exactly and the sample
results are equalities, not approximations.

Each calorie formula has an independent partner, `ReferenceCalories`. It
gives every variant's calories as a closed form over the raw readings, with the mean
speed substituted and all constants multiplied out:

- running: `0.000702·action·weight + 0.1074·duration·weight`;
- walking: `2.1·duration·weight + 0.00000568153326·action²·weight / (duration·height)`;
- swimming: `0.002·lengthPool·countPool·weight + 2.2·duration·weight`.

Each calorie function's contract states that it equals its closed form. The
closed forms then give the non-negativity and monotonicity lemmas.

For the running sample (15000 steps, 1 hour, 75 kg) the code's formula gives
exactly 797.805 kcal (`(18·9.75 + 1.79)·75/1000·1·60`), which
`Scenarios.RunningSample` proves.

## Model

| member | source | states |
|---|---|---|
| `Homework.StepLength` | homework.py:25 | the metres per action are positive: 0.65 per step for running and walking, and swimming's override of 1.38 per stroke (homework.py:98) |
| `Homework.Label` | homework.py:52 | the reported training type is "Running", "SportsWalking" or "Swimming" exactly when the workout is of that class |
| `Homework.Distance` | homework.py:38-40 | distance round-trips to the action count: `distance · 1000 / step length == action`; it is non-negative when action is |
| `Homework.BaseMeanSpeed` | homework.py:42-44 | the base mean speed times the duration is the distance |
| `Homework.MeanSpeed` | homework.py:113-115 | for running and walking, speed · duration == distance; for swimming, speed · duration · 1000 == pool length · pool count (the lap-based override) |
| `Homework.RunningAndWalkingShareBase` | homework.py:38-44 | running and walking with the same readings have the same distance and mean speed, both the base class's |
| `Homework.SwimmingSpeedIgnoresAction` | homework.py:113-115 | swimming's mean speed is `lengthPool · countPool / 1000 / duration` whatever the stroke count |
| `Homework.RunningCalories` | homework.py:64-69 | running calories equal `0.000702·action·weight + 0.1074·duration·weight` |
| `Homework.WalkingCalories` | homework.py:88-93 | walking calories equal `2.1·duration·weight + 0.00000568153326·action²·weight/(duration·height)` |
| `Homework.SwimmingCalories` | homework.py:117-119 | swimming calories equal `0.002·lengthPool·countPool·weight + 2.2·duration·weight` |
| `Homework.Calories` | homework.py:46-48 | the calories each concrete class computes in place of the base's unimplemented method equal the closed form `ReferenceCalories` |
| `Homework.SwimmingCaloriesIgnoreAction` | homework.py:117-119 | swimming calories do not depend on the stroke count |
| `Homework.RunningCaloriesNonNegative` | homework.py:64-69 | running calories are non-negative for non-negative action and weight and positive duration |
| `Homework.WalkingCaloriesNonNegative` | homework.py:88-93 | walking calories are at least `2.1·duration·weight`, hence non-negative, for non-negative weight and positive duration and height, whatever the sign of action |
| `Homework.SwimmingCaloriesNonNegative` | homework.py:117-119 | swimming calories are non-negative for non-negative weight, pool length and pool count and positive duration |
| `Homework.RunningCaloriesMonotoneInAction` | homework.py:64-69 | for a positive weight, more steps in the same time burn strictly more calories |
| `Homework.ShowInfo` | homework.py:50-56 | the record carries the class label and the stored duration unchanged; its distance round-trips to the action count; its speed satisfies the variant's speed relation; its calories equal the closed form |
| `Homework.Lookup` | homework.py:127-129 | an association-list search: no result exactly when no entry has the code, otherwise the kind of the first entry that has it; on a table with distinct keys, such as `TRAINING_TYPES`, this agrees with the dictionary's `in` test and subscript |
| `Homework.TrainingTypesKeysDistinct` | homework.py:124-126 | the table's three codes are distinct, so each code names one class |
| `Homework.Construct` | homework.py:129 | calling a class with `*data` succeeds exactly when the list has the constructor's arity (3, 4 or 5); the fields are then the readings in order; otherwise it fails with an arity error naming expected and given counts |
| `Homework.ReadPackage` | homework.py:122-129 | a code other than SWM, RUN and WLK fails with `UnknownWorkoutType`; RUN succeeds exactly on 3 readings, WLK on 4 and SWM on 5, and otherwise fails with `ArityMismatch` giving the count; on success the workout's code and fields are the inputs |
| `Homework.ReadPackageDispatch` | homework.py:124-128 | only SWM, RUN and WLK succeed, building Swimming, Running and SportsWalking respectively; every other code fails as unknown |
| `Homework.ReadPackageRoundTrip` | homework.py:124-129 | every workout is rebuilt exactly from its code and its fields in declaration order |
| `Scenarios.SwimmingSample` | homework.py:140 | SWM [720, 1, 80, 25, 40] gives distance 0.9936, speed 1 and 336 kcal |
| `Scenarios.RunningSample` | homework.py:141 | RUN [15000, 1, 75] gives distance and speed 9.75 and 797.805 kcal |
| `Scenarios.WalkingSample` | homework.py:142 | WLK [9000, 1, 75, 180] gives distance and speed 5.85 and 349.251747525 kcal |
| `Scenarios.UnknownCodeSample` | homework.py:127-128 | an unrecognised code, including a lower-case one, fails as unknown |
| `Scenarios.ArityMismatchSample` | homework.py:129 | a known code with too many or too few readings fails with an arity error |

## Left out

- `InfoMessage.get_message` and the `Message` template (homework.py:13-20), which render the record as text with three decimals. These are library string formatting. The record itself is modelled, and its text is not.
- `main` and the `__main__` demo loop (homework.py:132-147) only print. Their three sample packages are in `Scenarios`.
- IEEE-754 rounding of Python floats. All quantities are exact reals, on purpose.
- `self.__class__.__name__` (homework.py:52) is reflection. It is replaced by the explicit label `Label`.
- Instantiating the base `Training` directly, whose `get_spent_calories` raises `NotImplementedError` (homework.py:46-48). The base is not a variant of `Workout`, so that error cannot occur in the model.
- Division by zero. Python raises `ZeroDivisionError` when the duration (homework.py:44, 115) or the walking height (homework.py:91) is zero. The model makes these preconditions instead (`duration != 0`, and `height != 0` for walking, bundled as `Computable`), and does not model the exception.
- Python's dynamic typing: non-numeric readings, and a non-integer `action`. All readings are reals. The dispatcher's only failures are the unknown code and the wrong number of readings.
