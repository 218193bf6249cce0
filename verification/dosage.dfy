/** The dosage calculator: from the five form inputs to the volumes of
    medication, carrier juice and mixture to prepare for a whole treatment.

    Quantities are exact reals. A zero divisor, which makes the page show a
    non-finite number, is reported as `NonFinite` naming the first zero
    divisor along the chain of bindings.
 */
module Dosage {
  import opened Rounding

  /** The five form inputs. */
  datatype DosageInput = DosageInput(
    concentrationMgMl: real,     // drug concentration [mg/ml]
    dailyDoseMgKgw: real,        // prescribed daily dose per body weight [mg/kg]
    weightG: real,               // animal weight [g]
    treatmentLengthDays: real,   // treatment duration [days]
    minDailyDoseMl: real         // smallest daily mixture volume a syringe measures well [ml]
  )

  /** The form's default values: a 10% enrofloxacin solution for a 350 g rat. */
  const Defaults := DosageInput(100.0, 20.0, 350.0, 14.0, 0.2)

  /** The derived quantities, in the order the page binds them. */
  datatype DosageOutput = DosageOutput(
    dailyDoseMlKgw: real,                    // medication volume per kg and day [ml]
    weightFactor: real,                      // weight in kg
    dailyDoseNormalizedWeightMl: real,       // medication volume per day [ml]
    totalTreatmentAmountMedicationMl: real,  // medication over the treatment [ml]
    dailyFruitJuiceMixMl: real,              // mixture per day, a whole number of measurable steps [ml]
    totalFruitJuiceSolutionMl: real,         // mixture over the treatment [ml]
    totalFruitJuiceAmountMl: real            // juice over the treatment [ml]
  )

  /** The inputs the chain divides by. */
  datatype Divisor = Concentration | TreatmentLength | MinDailyDose

  datatype Outcome = Computed(out: DosageOutput) | NonFinite(zero: Divisor)

  /** The derived-value chain of the calculator page. */
  function Compute(i: DosageInput): (r: Outcome)
    ensures r.Computed? <==>
      i.concentrationMgMl != 0.0 && i.treatmentLengthDays != 0.0 && i.minDailyDoseMl != 0.0
    ensures r == NonFinite(Concentration) <==> i.concentrationMgMl == 0.0
    ensures r == NonFinite(TreatmentLength) <==>
      i.concentrationMgMl != 0.0 && i.treatmentLengthDays == 0.0
    ensures r == NonFinite(MinDailyDose) <==>
      i.concentrationMgMl != 0.0 && i.treatmentLengthDays != 0.0 && i.minDailyDoseMl == 0.0
  {
    if i.concentrationMgMl == 0.0 then NonFinite(Concentration)
    else
      var dailyDoseMlKgw := i.dailyDoseMgKgw / i.concentrationMgMl;
      var weightFactor := i.weightG / 1000.0;
      var dailyDoseNormalizedWeightMl := dailyDoseMlKgw * weightFactor;
      var totalMedication := dailyDoseNormalizedWeightMl * i.treatmentLengthDays;
      if i.treatmentLengthDays == 0.0 then NonFinite(TreatmentLength)
      else if i.minDailyDoseMl == 0.0 then NonFinite(MinDailyDose)
      else
        var dailyMix := CeilToNearest((totalMedication * 2.0) / i.treatmentLengthDays, i.minDailyDoseMl);
        var totalSolution := dailyMix * i.treatmentLengthDays;
        var totalJuice := totalSolution - totalMedication;
        Computed(DosageOutput(dailyDoseMlKgw, weightFactor, dailyDoseNormalizedWeightMl,
                              totalMedication, dailyMix, totalSolution, totalJuice))
  }

  /** The total medication is the daily dose per kg converted to ml, times
      the weight in kg, times the number of days. */
  lemma TotalMedicationFormula(i: DosageInput)
    requires Compute(i).Computed?
    ensures Compute(i).out.totalTreatmentAmountMedicationMl ==
      i.dailyDoseMgKgw * i.weightG * i.treatmentLengthDays / (i.concentrationMgMl * 1000.0)
  {
  }

  /** The day count cancels in the quantity that is rounded: it is twice
      the medication volume per day. */
  lemma RoundingInputCancels(i: DosageInput)
    requires Compute(i).Computed?
    ensures (Compute(i).out.totalTreatmentAmountMedicationMl * 2.0) / i.treatmentLengthDays ==
      2.0 * Compute(i).out.dailyDoseNormalizedWeightMl
  {
  }

  /** Volume balance: medication and juice make up the whole mixture. */
  lemma VolumeBalance(i: DosageInput)
    requires Compute(i).Computed?
    ensures Compute(i).out.totalFruitJuiceAmountMl + Compute(i).out.totalTreatmentAmountMedicationMl
      == Compute(i).out.totalFruitJuiceSolutionMl
  {
  }

  /** With a positive measurable step, the daily mixture is a whole number
      of steps that covers twice the daily medication volume (a 1:1 mix)
      and exceeds it by less than one step. */
  lemma DailyMixIsMeasurable(i: DosageInput)
    requires Compute(i).Computed?
    requires i.minDailyDoseMl > 0.0
    ensures IsMultipleOf(Compute(i).out.dailyFruitJuiceMixMl, i.minDailyDoseMl)
    ensures 2.0 * Compute(i).out.dailyDoseNormalizedWeightMl <= Compute(i).out.dailyFruitJuiceMixMl
    ensures Compute(i).out.dailyFruitJuiceMixMl <
      2.0 * Compute(i).out.dailyDoseNormalizedWeightMl + i.minDailyDoseMl
  {
    RoundingInputCancels(i);
  }

  /** No smaller measurable daily mixture covers a 1:1 mix: every whole
      number of steps that does is at least the computed daily mixture. */
  lemma DailyMixIsLeast(i: DosageInput, m: real)
    requires Compute(i).Computed?
    requires i.minDailyDoseMl > 0.0
    requires IsMultipleOf(m, i.minDailyDoseMl)
    requires 2.0 * Compute(i).out.dailyDoseNormalizedWeightMl <= m
    ensures Compute(i).out.dailyFruitJuiceMixMl <= m
  {
    var o := Compute(i).out;
    RoundingInputCancels(i);
    CeilToNearestIsLeast((o.totalTreatmentAmountMedicationMl * 2.0) / i.treatmentLengthDays,
                         i.minDailyDoseMl, m);
  }

  /** At least a 1:1 mix: over a positive number of days, the mixture holds
      at least twice the medication, so at least as much juice as
      medication; and the juice exceeds the medication by less than one
      measurable step per day. */
  lemma AtLeastOneToOne(i: DosageInput)
    requires Compute(i).Computed?
    requires i.treatmentLengthDays > 0.0 && i.minDailyDoseMl > 0.0
    ensures Compute(i).out.totalFruitJuiceSolutionMl >= 2.0 * Compute(i).out.totalTreatmentAmountMedicationMl
    ensures Compute(i).out.totalFruitJuiceAmountMl >= Compute(i).out.totalTreatmentAmountMedicationMl
    ensures Compute(i).out.totalFruitJuiceAmountMl <
      Compute(i).out.totalTreatmentAmountMedicationMl + i.minDailyDoseMl * i.treatmentLengthDays
  {
    DailyMixIsMeasurable(i);
  }

  /** The form's default inputs give 0.98 ml of medication, a rounding
      input of 0.14 ml, 0.2 ml of mixture per day, 2.8 ml of mixture and
      1.82 ml of juice. */
  lemma DefaultsExample()
    ensures Compute(Defaults) == Computed(DosageOutput(0.2, 0.35, 0.07, 0.98, 0.2, 2.8, 1.82))
    ensures (Compute(Defaults).out.totalTreatmentAmountMedicationMl * 2.0) / Defaults.treatmentLengthDays == 0.14
  {
  }
}
