# IVF success-rate calculator — Dafny model

This project models the computational core of the `IVFCalculator` form
component. The form collects an age range, a number of IVF cycles (a
slider from 1 to 5), whether ICSI and PGT were done, and four
medical-condition checkboxes. From these it computes a "success rate"
score.

- `scoring.dfy` (module `Scoring`): `calculateSuccessRate`. It starts
  from 50 and applies guarded adjustments to one accumulator:
  - +10 for the age label "Under 30" and −20 for "Above 43";
  - `Math.min(5, (cycles - 1) * 2)` when `cycles > 1`;
  - +10 for ICSI and +5 for PGT;
  - −5 for endometriosis and −10 for low ovarian reserve.

  It then clamps the result to [0, 100]. `CalculateSuccessRate` is the
  imperative routine with its accumulator. It is proved equal to the pure
  specification `SuccessRate`, which is built from one function per term.
  The lemmas state bounds, what each term contributes, monotonicity,
  inputs that have no effect, and that the clamp never fires.
- `conditions.dfy` (module `Conditions`): the conditions record with
  its four keys and its all-false initial value. It also holds the keyed
  update a checkbox change performs (a spread copy with one key
  overridden) and the label each checkbox shows.
- `labels.dfy` (module `Labels`): the label transform, a global regex
  replace that puts a space before each ASCII capital `A`–`Z`. Its
  partner is an inverse that drops those spaces again.

Modelling decisions:
- The age range stays a `string` compared exactly, as in the source. The
  six radio labels are the constant `AgeRanges`, and the unset value is
  `""`.
- `cycles` is an unbounded `int`. Every adjustment is an integer, so no
  width or rounding question arises.
- A checkbox's `name` is always one of the record's own keys, because the
  checkboxes are rendered from `Object.keys(conditions)`. The key is
  therefore the enumeration `ConditionKey`, and `KeyName` gives its
  property name.

Facts about the code worth knowing:
- No input reaches either clamp bound. `RawScore` is proved to lie in
  [15, 80] for every input. "Above 43" with endometriosis, low ovarian
  reserve, 1 cycle and no procedures scores 15, the minimum
  (`WorstCase`).
- That range holds for every integer `cycles`, not only for the slider's
  1..5, so `RawScore` and `ClampIsIdentity` need no precondition.
- The label transform turns the key `PCOS` into " P C O S"
  (`LabelPCOS`), because every capital gets its own space.

## Model

| member | source | states |
|---|---|---|
| Scoring.CalculateSuccessRate | src/components/IVFCalculator.jsx:31-43 | the step-by-step accumulator returns exactly the specified success rate, which lies in [0, 100] |
| Scoring.SuccessRate | src/components/IVFCalculator.jsx:31-43 | the reported score lies in [0, 100] for every input, with any string as age range and any integer as cycle count |
| Scoring.Clamp | src/components/IVFCalculator.jsx:42 | the result is in [0, 100]; it equals the input when the input is in range, and is 0 below the range and 100 above it |
| Scoring.Min | src/components/IVFCalculator.jsx:36 | `Math.min`: the result is one of the two arguments and at most both |
| Scoring.Max | src/components/IVFCalculator.jsx:42 | `Math.max`: the result is one of the two arguments and at least both |
| Scoring.AgeAdjustment | src/components/IVFCalculator.jsx:34-35 | the age term lies between −20 and +10 |
| Scoring.CycleBonus | src/components/IVFCalculator.jsx:36 | the cycle bonus lies in [0, 5] for every integer, and is 0 exactly when cycles ≤ 1 |
| Scoring.ProcedureBonus | src/components/IVFCalculator.jsx:37-38 | the procedures term lies in [0, 15] and is 0 exactly when neither ICSI nor PGT was done |
| Scoring.ConditionAdjustment | src/components/IVFCalculator.jsx:39-40 | the conditions term lies in [−15, 0] and is 0 exactly when neither endometriosis nor low ovarian reserve is ticked |
| Scoring.RawScore | src/components/IVFCalculator.jsx:32-40 | the unclamped sum lies in [15, 80] for every input |
| Scoring.AgeAdjustmentOnlyTwoLabels | src/components/IVFCalculator.jsx:34-35 | the age term is non-zero exactly for "Under 30" (+10) and "Above 43" (−20) |
| Scoring.AgeAdjustmentPerRange | src/components/IVFCalculator.jsx:17-24 | of the six offered ranges the first gives +10, the middle four give 0 and the last gives −20; the unset value gives 0 |
| Scoring.CycleBonusPerSliderValue | src/components/IVFCalculator.jsx:36 | the bonus is 0, 2, 4, 5, 5 for 1 to 5 cycles |
| Scoring.CycleBonusMonotone | src/components/IVFCalculator.jsx:36 | the cycle bonus never decreases as cycles increase |
| Scoring.ClampIsIdentity | src/components/IVFCalculator.jsx:32-42 | the reported score equals the unclamped sum, so the clamp never changes it |
| Scoring.Baseline | src/components/IVFCalculator.jsx:5-15 | the untouched form (unset age, 1 cycle, no procedures, no conditions) scores exactly 50 |
| Scoring.AgeRangeEffect | src/components/IVFCalculator.jsx:34-35 | for the whole score, "Under 30" adds exactly 10 and "Above 43" takes exactly 20 relative to the unset value, and every other age string scores as the unset value does |
| Scoring.BestCase | src/components/IVFCalculator.jsx:32-40 | "Under 30", 5 cycles, ICSI and PGT, without the two penalised conditions, scores 80, the top of the range |
| Scoring.WorstCase | src/components/IVFCalculator.jsx:32-40 | "Above 43", 1 cycle, no procedures, endometriosis and low ovarian reserve score 15 whatever the other two flags are, the bottom of the range |
| Scoring.NoOpConditions | src/components/IVFCalculator.jsx:39-40 | setting the PCOS or the male-factor flag to any value leaves the score unchanged |
| Scoring.ProceduresRaiseScore | src/components/IVFCalculator.jsx:37-38 | ICSI adds exactly 10 and PGT exactly 5; setting either to true never lowers the score |
| Scoring.ConditionsLowerScore | src/components/IVFCalculator.jsx:39-40 | endometriosis takes exactly 5 and low ovarian reserve exactly 10; setting either to true never raises the score |
| Scoring.CyclesMonotone | src/components/IVFCalculator.jsx:36 | more cycles never lower the score, and from 4 cycles on the score no longer changes |
| Conditions.Update | src/components/IVFCalculator.jsx:26-29 | after a checkbox change the named key holds `checked` and every other key holds its previous value |
| Conditions.UpdateSameValue | src/components/IVFCalculator.jsx:28 | writing back a key's current value leaves the record unchanged |
| Conditions.UpdateTwice | src/components/IVFCalculator.jsx:28 | a second change of the same key overrides the first |
| Conditions.UpdateCommutes | src/components/IVFCalculator.jsx:28 | changes of two different keys can be applied in either order |
| Conditions.Extensionality | src/components/IVFCalculator.jsx:10-15 | reading the four keys with `Get` determines the record: two records are equal exactly when they agree on every key |
| Conditions.KeyName | src/components/IVFCalculator.jsx:10-15 | every property name of the record starts with a capital letter |
| Conditions.KeyNamesDistinct | src/components/IVFCalculator.jsx:10-15 | two keys have the same property name exactly when they are the same key |
| Conditions.Label | src/components/IVFCalculator.jsx:192-205 | each checkbox label starts with a space, and dropping the spaces before capitals gives back the key's property name |
| Conditions.KeysAndInitial | src/components/IVFCalculator.jsx:10-15 | the record has exactly the four distinct keys, and every flag starts false |
| Conditions.LabelPCOS | src/components/IVFCalculator.jsx:205 | the PCOS checkbox is labelled " P C O S" |
| Conditions.LabelEndometriosis | src/components/IVFCalculator.jsx:205 | the Endometriosis checkbox is labelled " Endometriosis" |
| Conditions.LabelLowOvarianReserve | src/components/IVFCalculator.jsx:205 | the LowOvarianReserve checkbox is labelled " Low Ovarian Reserve" |
| Conditions.LabelMaleFactorInfertility | src/components/IVFCalculator.jsx:205 | the MaleFactorInfertility checkbox is labelled " Male Factor Infertility" |
| Labels.SpaceBeforeCapitals | src/components/IVFCalculator.jsx:205 | the output is one character longer per capital letter, never starts with a capital, and has a space directly before every capital |
| Labels.RoundTrip | src/components/IVFCalculator.jsx:205 | dropping each space that stands before a capital gives back the input, so no character is lost or reordered |
| Labels.NoCapitals | src/components/IVFCalculator.jsx:205 | text without capital letters is returned unchanged |
| Labels.Concatenation | src/components/IVFCalculator.jsx:205 | the transform of a concatenation is the concatenation of the transforms, as for a global replace |

## Left out

- Rendering: the JSX markup, its styling, the SVG check mark and the "Cycle"/"Cycles" pluralisation. They are presentation with no behaviour to state.
- The `capitalize` CSS class on the labels. The browser applies it, not the component.
- The React state hooks and their setters. The scorer reads the current state, which the model passes as the `Inputs` parameter. The checkbox update is the pure function handed to `setConditions`.
- Decoding the change event (`e.target.name`, `e.target.checked`). The model receives the key and the flag directly.
- `handleCalculate` and the navigation to the results view. This is a call into the routing library; only the score it passes on is modelled.
- `parseInt` on the slider value, and the `NaN` it could produce. `cycles` is a plain integer here; the slider only yields 1..5.
- Conditions.Update: the key is one of the four record keys, so the model does not cover a spread with some other property name, which would add a fifth key to the record.
