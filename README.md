# One-rep-max calculator, modelled in Dafny

The system is a single-page calculator. It estimates a lifter's
one-repetition maximum (1RM) from a lifted weight and a repetition count,
using one of three named formulas (Epley, Brzycki, Lombardi), and shows a
table of training loads at 90, 80, …, 20 percent of that estimate. The
component keeps four pieces of state: weight, reps, the selected formula's
name, and a dark-mode flag. Event handlers overwrite them, and a Reset
button restores the first three.

The model has four modules:

- `Wrappers` (wrappers.dfy): the `Option` type.
- `Formulas` (formulas.dfy): the closed lookup of formulas. It is a
  three-case datatype `FormulaName` whose keys are `Keys`. It has one
  function per formula and `Estimate` for dispatch. The lemmas cover
  literal values, linearity in the weight, monotonicity in the repetitions,
  Brzycki's sign past its pole, and where Epley and Brzycki cross (at 10
  repetitions).
- `PercentageTable` (percentage_table.dfy): the map over the fixed
  percentage list and its shape. The rows are always 8, strictly
  descending, non-increasing and bounded targets for a non-negative 1RM,
  the identity at 100, and the 1RM is recoverable from any row.
- `App` (app.dfy): the estimate for the current inputs (`Calculate1RM`),
  and the class `Calculator` with the component's fields and handlers. It
  has one method, `Render`, for what a render computes.

The arithmetic is done over Dafny `real`, so it is exact. The fixed
percentages are integers, converted to `real` in `Target`. This idealises
JavaScript doubles: no rounding, no Infinity, no NaN. Weight and
repetitions are `real`. Repetitions are `real` because the reps field is
read with `Number(...)` and may hold a fraction. The formula state is a
`string`, as in the code. `Calculate1RM` yields `None` for a name that is
not a key of the lookup. The component never holds such a name. Its
invariant `Calculator.Valid()` keeps the formula among the keys. The
constructor establishes it, every handler preserves it, and `SetFormula`
accepts only the keys, as the selector offers only those. So `Render` always
produces an estimate.

## Model

| member | source | states |
|---|---|---|
| `Formulas.NameOf` | src/App.jsx:24-28 | every formula's key is one of the lookup's keys |
| `Formulas.Lookup` | src/App.jsx:36 | `formulas[formula]`: a name finds a formula exactly when it is one of the keys, and the formula found is the one registered under that name |
| `Formulas.LookupNameOf` | src/App.jsx:24-28 | each formula is found under its own key and under no other name |
| `Formulas.KeysAreTheFormulas` | src/App.jsx:126 | the keys the selector lists (`Object.keys` of the lookup at lines 24-28) are Epley, Brzycki, Lombardi in that order, each once |
| `Formulas.EpleyEstimate` | src/App.jsx:25 | with 0 reps the estimate is the weight; for non-negative weight and reps it is never below the weight |
| `Formulas.BrzyckiEstimate` | src/App.jsx:26 | defined only for reps other than 37; with 1 rep the estimate is the weight |
| `Formulas.LombardiEstimate` | src/App.jsx:27 | the weight times a caller-supplied tenth power of reps, with nothing claimed about that power; defined for non-negative reps, and a zero weight estimates zero |
| `Formulas.Estimate` | src/App.jsx:36 | dispatch on the closed set of formulas; a zero weight estimates zero whichever formula is selected |
| `Formulas.Examples` | src/App.jsx:25-26 | Epley(100, 5) = 350/3, Brzycki(100, 5) = 112.5, Epley(100, 30) = 200 |
| `Formulas.EstimateScalesWithWeight` | src/App.jsx:24-28 | every formula is linear in the weight: k times the weight gives k times the estimate |
| `Formulas.EpleyMonotoneInReps` | src/App.jsx:25 | for a non-negative weight, more reps never lower the Epley estimate |
| `Formulas.BrzyckiMonotoneInReps` | src/App.jsx:26 | below 37 reps, more reps never lower the Brzycki estimate of a non-negative weight; from 1 rep on it is at least the weight |
| `Formulas.BrzyckiNegativePastPole` | src/App.jsx:26 | past 37 reps the unguarded Brzycki formula gives a negative estimate for a positive weight |
| `Formulas.EpleyBrzyckiGap` | src/App.jsx:25-26 | Epley minus Brzycki equals weight · (10 − reps)(reps + 3) / (30 (37 − reps)) |
| `Formulas.EpleyBrzyckiCrossing` | src/App.jsx:25-26 | for a positive weight the two formulas agree exactly at 10 (or −3) reps; Epley is higher between −3 and 10 reps, Brzycki between 10 and 37 |
| `PercentageTable.Target` | src/App.jsx:41 | the unrounded load `oneRM * p / 100`: 100 percent gives the 1RM, 0 percent gives 0, and for a non-negative 1RM a percentage from 0 to 100 gives a load between 0 and the 1RM |
| `PercentageTable.MapRows` | src/App.jsx:39-42 | the map yields one row per percentage, in order, each holding that percentage and oneRM · p / 100 |
| `PercentageTable.Table` | src/App.jsx:39-42 | the table always has 8 rows; row i holds the i-th entry of the fixed percentage list and its target `Target(oneRM, p)` |
| `PercentageTable.TablePercentagesDescend` | src/App.jsx:39 | row i has percentage 90 − 10i, so the percentages strictly descend |
| `PercentageTable.TargetMonotone` | src/App.jsx:41 | for a non-negative 1RM a smaller percentage never gives a larger target |
| `PercentageTable.TableTargetsBounded` | src/App.jsx:39-42 | for a non-negative 1RM the targets are non-increasing down the table and lie between 0 and the 1RM |
| `PercentageTable.TableOfHundred` | src/App.jsx:39-42 | for a 1RM of 100 each target equals its percentage |
| `PercentageTable.TableDeterminesOneRM` | src/App.jsx:39-42 | each row's target · 100 / percentage is the 1RM, so different estimates give different tables |
| `PercentageTable.TableScales` | src/App.jsx:39-42 | scaling the 1RM scales every target by the same factor |
| `App.Calculate1RM` | src/App.jsx:36 | an estimate exists exactly when the selected name is a key of the lookup; a zero weight estimates zero |
| `App.Calculate1RMSelects` | src/App.jsx:36 | selecting a formula by its key applies exactly that formula to the current weight and reps |
| `App.InitialEstimates` | src/App.jsx:31-36 | the starting inputs estimate 350/3; switching only the formula to Brzycki gives 112.5 |
| `App.Calculator.constructor` | src/App.jsx:31-34 | the component starts with weight 100, reps 5, formula Epley, dark mode off, and satisfies the invariant that the formula is a key |
| `App.Calculator.SetWeight` | src/App.jsx:103 | only the weight changes, to the given value; the invariant is kept |
| `App.Calculator.SetReps` | src/App.jsx:112 | only reps changes, to the given value, with no range check; the invariant is kept |
| `App.Calculator.SetFormula` | src/App.jsx:123-127 | the name comes from the selector, whose options are the lookup's keys; only the formula name changes, to that name, so the formula stays a key |
| `App.Calculator.ToggleDarkMode` | src/App.jsx:148 | dark mode is negated and the inputs, hence the estimate and table, are unchanged; the invariant is kept |
| `App.Calculator.Reset` | src/App.jsx:154-158 | weight, reps and formula return to 100, 5, Epley; dark mode is kept; the invariant holds |
| `App.Calculator.Render` | src/App.jsx:36-42 | in a valid state an estimate always exists; it is the selected formula's estimate of the current inputs, and the table (8 rows) is built from it |
| `App.ResetScenario` | src/App.jsx:148-158 | after any edits (the formula chosen among the keys) and a theme toggle, Reset shows the starting estimate 350/3 again while dark mode stays on |

## Left out

- `Formulas.LombardiEstimate`: `Math.pow(reps, 0.1)` has no counterpart over `real`. It is a caller-supplied function `tenthPower`, and nothing is claimed about its values. The member requires `reps >= 0.0`, because for negative reps the power is NaN in the code and that outcome is not modelled.
- `Formulas.Estimate`: negative reps under Lombardi, where `Math.pow` gives NaN and the code shows "NaN kg", are a precondition (also of `App.Calculate1RM` through `App.Computable`). The NaN outcome is not modelled.
- `Formulas.BrzyckiEstimate`: reps = 37, where the code divides by zero and shows Infinity or NaN, is a precondition. `App.Computable` carries it to the component level.
- IEEE-754 double behaviour in general: rounding, overflow, Infinity and NaN. All arithmetic is exact over `real`.
- The `toFixed(1)` formatting of the displayed estimate and the table targets (src/App.jsx:41, src/App.jsx:136). The targets are kept unrounded.
- The `Number(e.target.value)` parsing of the input fields (src/App.jsx:103, src/App.jsx:112). The setters take the parsed number as a parameter.
- The `min`/`max` attributes on the reps field (src/App.jsx:113-114). They are widget hints the setter does not enforce, so no reps range is an invariant of the state.
- React's re-render scheduling. `Render` stands for one synchronous render after each handler.
- Chart.js registration, chart data and options, the data-label formatter, colours and all JSX markup (src/App.jsx:1-22, src/App.jsx:44-167 outside the handlers). These are presentation.
