# Dosage calculator for oral medication mixtures

A model of the calculator page of the small-animal dosage calculator. The page takes five form inputs:

- the drug concentration [mg/ml],
- the daily dose per body weight [mg/kg],
- the animal's weight [g],
- the treatment length [days],
- the smallest daily mixture volume that a syringe measures well [ml].

From these it derives how much medication, carrier juice and mixture to prepare. The daily mixture volume is nominally a 1:1 mix of medication and juice. With a positive minimum daily dose it is rounded up to a whole number of measurable steps (`ceilToNearest`), so on exact reals the animal is never under-dosed. A negative minimum daily dose makes the page round down instead.

Two modules:

- `Rounding` (`rounding.dfy`): `Math.ceil` on exact reals, and `ceilToNearest` with its properties. With a positive step it always rounds up, by less than one step. The result is a whole number of steps, and the least such multiple that covers the input. Rounding twice changes nothing, and rounding keeps order.
- `Dosage` (`dosage.dfy`): the input and output records, the form's default values, and `Compute`, the chain of derived values. The lemmas cover the total-medication formula, the day count cancelling in the rounded quantity, volume balance, the measurable daily mix, the guaranteed mix of at least 1:1, and the worked example with the default inputs.

JavaScript numbers are modelled as exact reals. The source divides by the concentration, by the treatment length, and (inside `ceilToNearest`) by the minimum daily dose. When one of them is zero the page shows a non-finite number. `Compute` returns `NonFinite(d)` instead, where `d` is the first zero divisor along the chain. `CeilToNearest` requires a nonzero step. The source also accepts a negative step. With a negative step, `Math.ceil(num / precision) * precision` rounds down, to the multiple of the step in `(num + precision, num]`, and the model does the same.

The form layer hands the page strings once a field has been edited. The chain uses only `/`, `*` and `-`, and those coerce their operands to numbers, so the model takes the inputs as numbers.

## Model

| member | source | states |
|---|---|---|
| Rounding.Ceil | src/pages/index.tsx:56 | `Math.ceil`: the result is an integer not below `x` and less than one above it |
| Rounding.CeilIsLeast | src/pages/index.tsx:56 | `Math.ceil` gives the least integer not below `x`: every integer at or above `x` is at or above it |
| Rounding.CeilToNearest | src/pages/index.tsx:55-57 | the result is a whole number of steps; with a positive step it is at least `num` and less than `num + precision` (never rounds down); with a negative step it lies in `(num + precision, num]` |
| Rounding.CeilToNearestIsLeast | src/pages/index.tsx:56 | minimality: with a positive step, every multiple of the step that covers `num` is at least the rounded value |
| Rounding.CeilToNearestIsGreatestBelow | src/pages/index.tsx:56 | with a negative step, every multiple of the step not above `num` is at most the rounded value, so the result is the greatest such multiple |
| Rounding.CeilToNearestUnique | src/pages/index.tsx:56 | the rounded value is the only multiple of the step in `[num, num + precision)`, so it is fully characterised by the function's postconditions |
| Rounding.CeilToNearestFixesMultiples | src/pages/index.tsx:56 | a quantity that already is a whole number of steps comes back unchanged |
| Rounding.CeilToNearestIdempotent | src/pages/index.tsx:56 | rounding the rounded value again gives the same value |
| Rounding.CeilToNearestMonotone | src/pages/index.tsx:56 | with a positive step, `a <= b` implies the rounded `a` is at most the rounded `b` |
| Rounding.CeilToNearestExamples | src/pages/index.tsx:56 | with step 0.2: 0.14 rounds to 0.2, 0.2 stays 0.2, 0 stays 0 |
| Dosage.Compute | src/pages/index.tsx:76-83 | the chain yields values exactly when concentration, treatment length and minimum daily dose are all nonzero; otherwise it names the first zero divisor (concentration, then treatment length, then minimum dose) |
| Dosage.TotalMedicationFormula | src/pages/index.tsx:76-79 | the total medication is daily dose × weight × days / (concentration × 1000) |
| Dosage.RoundingInputCancels | src/pages/index.tsx:76-80 | the quantity passed to `ceilToNearest`, `(total medication × 2) / days`, is twice the daily medication volume |
| Dosage.VolumeBalance | src/pages/index.tsx:82-83 | juice plus medication equals the total mixture |
| Dosage.DailyMixIsMeasurable | src/pages/index.tsx:80 | with a positive step, the daily mixture is a whole number of steps, covers twice the daily medication, and exceeds it by less than one step |
| Dosage.DailyMixIsLeast | src/pages/index.tsx:80 | no smaller whole number of steps covers twice the daily medication |
| Dosage.AtLeastOneToOne | src/pages/index.tsx:80-83 | with a positive treatment length and step, the mixture holds at least twice the medication, the juice is at least the medication, and the juice exceeds the medication by less than one step per day |
| Dosage.DefaultsExample | src/pages/index.tsx:61-83 | the default inputs 100, 20, 350, 14, 0.2 give 0.2 ml/kg, weight factor 0.35, 0.07 ml per day, 0.98 ml of medication, rounding input 0.14, 0.2 ml of mixture per day, 2.8 ml of mixture and 1.82 ml of juice |

## Left out

- The `InputField` and `OutputField` components, the label table, the page's markup and its styling (src/pages/index.tsx:13-53, 89-134): these are rendering only.
- The form state from `useForm`, `watch` and `register` (src/pages/index.tsx:60-74): the model takes the five inputs as plain parameters.
- `handleSubmit` and `onSubmit` (src/pages/index.tsx:85-87): `onSubmit` only writes to the console.
- The three-decimal display formatting `toFixed(3)` (src/pages/index.tsx:50): presentation only.
- IEEE-754 rounding: the model computes with exact reals, and the page does not. `Math.ceil` jumps at whole numbers, so an error of one unit in the last place can push a result that should be an exact multiple a whole step higher. For example, with inputs 100, 20, 1500, 10, 0.2 the rounding input is 0.6000000000000001 in doubles. Divided by 0.2 that is 3.0000000000000004, so the page shows 0.8 ml per day and 8 ml of mixture, where the model gives 0.6 and 6. Likewise `ceilToNearest(2.1, 0.3)` is 2.4 in doubles. So the bound "less than one step above" in `Rounding.CeilToNearest` and `Dosage.DailyMixIsMeasurable`, and the results of `Rounding.CeilToNearestFixesMultiples`, `Rounding.CeilToNearestIsLeast`, `Rounding.CeilToNearestUnique`, `Rounding.CeilToNearestIdempotent` and `Dosage.DailyMixIsLeast`, hold for the exact-real model only, not for the page's floating-point results. The lower bounds (never under-dosed) are likewise proved for exact reals only, not for doubles.
- Non-numeric text in a field: JavaScript turns it into `NaN`, which the model does not represent.
- Dosage.Compute: on a zero divisor it reports only which divisor is zero. It drops the quantities that stay finite: with zero treatment days the page shows a total medication of 0.000 next to NaN in the other fields (src/pages/index.tsx:79, 126); with a zero minimum daily dose the total medication also stays finite. It also does not tell `NaN` from `Infinity`.
- Rounding.CeilToNearest: a zero step is excluded by its precondition rather than modelled as `NaN`. `Compute` never calls it with a zero step.
- A percentage of medication in the mixture, and serialising the inputs to a shareable query string: the page's code computes neither, so neither is modelled.
