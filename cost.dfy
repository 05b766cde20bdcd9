/** `calculate_defect_cost_impact` of the report-analysis agent
    (agent/app/Report_analysis_agent/tools.py): the units affected in a batch
    and the money lost on them, by scrapping or by rework. The `:,.2f`
    rendering of the loss is a parameter. */
module CostImpact {
  import opened Common

  /** The action, affected units and estimated loss the tool reports. */
  datatype Estimate = Estimate(action: string, affectedUnits: int, totalLoss: real)

  const ScrapAction: string := "SCRAP (Total Loss)"
  const ReworkAction: string := "REWORK"

  /** `affected_units = int(batch_size * defect_rate)`, then the loss at the
      unit cost when scrapped and at the rework cost otherwise. */
  function CostEstimate(batchSize: int, defectRate: real, unitCost: real,
                        reworkCostPerUnit: real := 0.0, isScrap: bool := true): (e: Estimate)
    ensures e.action == (if isScrap then ScrapAction else ReworkAction)
    ensures var expected := batchSize as real * defectRate;
      0.0 <= expected ==> e.affectedUnits as real <= expected < e.affectedUnits as real + 1.0
  {
    var affectedUnits := Trunc(batchSize as real * defectRate);
    if isScrap then Estimate(ScrapAction, affectedUnits, affectedUnits as real * unitCost)
    else Estimate(ReworkAction, affectedUnits, affectedUnits as real * reworkCostPerUnit)
  }

  /** The text the tool returns; `money` renders the loss with `:,.2f`. */
  function CalculateDefectCostImpact(money: real -> string, batchSize: int, defectRate: real, unitCost: real,
                                     reworkCostPerUnit: real := 0.0, isScrap: bool := true): (r: string)
    ensures var e := CostEstimate(batchSize, defectRate, unitCost, reworkCostPerUnit, isScrap);
      && "Action: " + (if isScrap then ScrapAction else ReworkAction) <= r
      && r[|"Action: " + e.action|..] == ", Affected: " + IntToString(e.affectedUnits) + ", Est. Loss: $" + money(e.totalLoss)
  {
    var e := CostEstimate(batchSize, defectRate, unitCost, reworkCostPerUnit, isScrap);
    var head := "Action: " + e.action;
    var tail := ", Affected: " + IntToString(e.affectedUnits) + ", Est. Loss: $" + money(e.totalLoss);
    assert head <= head + tail && (head + tail)[|head|..] == tail;
    head + tail
  }

  /** For a batch and a rate in [0, 1] as documented, the affected units lie
      between 0 and the batch size. */
  lemma AffectedUnitsWithinBatch(batchSize: int, defectRate: real)
    requires batchSize >= 0 && 0.0 <= defectRate <= 1.0
    ensures 0 <= Trunc(batchSize as real * defectRate) <= batchSize
  {
    var b := batchSize as real;
    MulMonotone(b, defectRate, 1.0);
    MulMonotone(b, 0.0, defectRate);
    var p := b * defectRate;
    assert 0.0 <= p <= b;
    TruncMonotonic(p, b);
    TruncOfInteger(batchSize);
  }

  /** For a batch and a rate in [0, 1] as documented, the affected units lie
      between 0 and the batch size, and with a non-negative cost so does the
      loss between 0 and the cost of the whole batch. */
  lemma AffectedWithinBatch(batchSize: int, defectRate: real, unitCost: real, reworkCostPerUnit: real, isScrap: bool)
    requires batchSize >= 0 && 0.0 <= defectRate <= 1.0
    requires unitCost >= 0.0 && reworkCostPerUnit >= 0.0
    ensures var e := CostEstimate(batchSize, defectRate, unitCost, reworkCostPerUnit, isScrap);
      var cost := if isScrap then unitCost else reworkCostPerUnit;
      && 0 <= e.affectedUnits <= batchSize
      && 0.0 <= e.totalLoss <= batchSize as real * cost
  {
    AffectedUnitsWithinBatch(batchSize, defectRate);
    var n := Trunc(batchSize as real * defectRate);
    var cost := if isScrap then unitCost else reworkCostPerUnit;
    assert 0.0 <= n as real <= batchSize as real;
    MulMonotone(cost, n as real, batchSize as real);
    MulMonotone(cost, 0.0, n as real);
    assert CostEstimate(batchSize, defectRate, unitCost, reworkCostPerUnit, isScrap).totalLoss == n as real * cost;
  }

  /** `int()` truncates toward zero: a negative rate of -0.15 on 10 units
      gives -1 affected unit, where flooring would give -2. */
  lemma NegativeRateTruncatesTowardZero()
    ensures CostEstimate(10, -0.15, 1.0).affectedUnits == -1
  {
  }

  lemma MulMonotone(a: real, x: real, y: real)
    requires 0.0 <= a && x <= y
    ensures a * x <= a * y && x * a <= y * a
  {
    assert a * y - a * x == a * (y - x);
  }

  /** A larger rate never lowers the affected units, for a non-negative batch. */
  lemma AffectedMonotoneInRate(batchSize: int, rate1: real, rate2: real)
    requires batchSize >= 0 && rate1 <= rate2
    ensures Trunc(batchSize as real * rate1) <= Trunc(batchSize as real * rate2)
  {
    MulMonotone(batchSize as real, rate1, rate2);
    TruncMonotonic(batchSize as real * rate1, batchSize as real * rate2);
  }

  /** A larger rate never lowers the loss, for a non-negative batch and cost. */
  lemma LossMonotoneInRate(batchSize: int, rate1: real, rate2: real, unitCost: real, reworkCostPerUnit: real, isScrap: bool)
    requires batchSize >= 0 && rate1 <= rate2
    requires unitCost >= 0.0 && reworkCostPerUnit >= 0.0
    ensures CostEstimate(batchSize, rate1, unitCost, reworkCostPerUnit, isScrap).totalLoss
         <= CostEstimate(batchSize, rate2, unitCost, reworkCostPerUnit, isScrap).totalLoss
  {
    AffectedMonotoneInRate(batchSize, rate1, rate2);
    var n1 := CostEstimate(batchSize, rate1, unitCost, reworkCostPerUnit, isScrap).affectedUnits;
    var n2 := CostEstimate(batchSize, rate2, unitCost, reworkCostPerUnit, isScrap).affectedUnits;
    MulMonotone(if isScrap then unitCost else reworkCostPerUnit, n1 as real, n2 as real);
  }

  /** Left at its defaults the tool scraps, and rework without a rework cost
      reports no loss, whatever the unit cost. */
  lemma Defaults(batchSize: int, defectRate: real, unitCost: real)
    ensures CostEstimate(batchSize, defectRate, unitCost).action == ScrapAction
    ensures CostEstimate(batchSize, defectRate, unitCost)
         == CostEstimate(batchSize, defectRate, unitCost, 0.0, true)
    ensures CostEstimate(batchSize, defectRate, unitCost, isScrap := false).action == ReworkAction
    ensures CostEstimate(batchSize, defectRate, unitCost, isScrap := false).totalLoss == 0.0
  {
  }

  /** A batch of 1000 with 5% defects at 20 per unit loses 1000 when scrapped
      and 250 when reworked at 5 per unit. */
  lemma WorkedExample()
    ensures CostEstimate(1000, 0.05, 20.0) == Estimate(ScrapAction, 50, 1000.0)
    ensures CostEstimate(1000, 0.05, 20.0, 5.0, false) == Estimate(ReworkAction, 50, 250.0)
  {
    TruncOfInteger(50);
    assert 1000 as real * 0.05 == 50 as real;
  }
}
