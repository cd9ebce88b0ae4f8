/**
 * Position sizing for a prop-firm account: 40% of the daily loss limit is
 * risked per trade, split into whole contracts of the chosen instrument.
 */
module PropFirm {
  import opened Wrappers

  /** The share of the daily loss limit risked on one trade. */
  const RiskShare: real := 0.40

  datatype Risk = Risk(
    contracts: int,
    riskPerTrade: real,
    maxTrades: int,
    remainingAfterOneLoss: real,
    profit5ptMove: real,
    profit10ptMove: real,
    pointValue: real,
    instrument: string)

  /** A zero stop distance makes the sizing divide by zero, which raises in the source. */
  datatype RiskError = DivisionByZero

  /** Conversion of a real to an integer by truncation toward zero. */
  function Trunc(x: real): (n: int)
    ensures x >= 0.0 ==> n as real <= x < n as real + 1.0
    ensures x < 0.0 ==> n as real - 1.0 < x <= n as real
  {
    if x >= 0.0 then x.Floor else -((-x).Floor)
  }

  /** Dollars per point: 50 for the full-size contract "ES", 5 for anything else. */
  function PointValue(instrument: string): (v: real)
    ensures v == 50.0 <==> instrument == "ES"
    ensures v == 5.0 <==> instrument != "ES"
  {
    if instrument == "ES" then 50.0 else 5.0
  }

  /**
   * The sizing of one trade. Contracts are the risk budget divided by the
   * dollar risk of one contract, truncated toward zero; the reported risk is
   * what those whole contracts actually put at stake.
   */
  function PropFirmRisk(dailyLimit: real, stopPoints: real, instrument: string := "ES"): (r: Result<Risk, RiskError>)
    ensures r.Failure? <==> stopPoints == 0.0
    ensures r.Success? ==>
      && r.value.pointValue == PointValue(instrument)
      && r.value.instrument == instrument
      && r.value.maxTrades == 2
      && r.value.contracts == Trunc(RiskShare * dailyLimit / (stopPoints * r.value.pointValue))
      && r.value.riskPerTrade == r.value.contracts as real * stopPoints * r.value.pointValue
      && r.value.remainingAfterOneLoss == dailyLimit - r.value.riskPerTrade
      && r.value.profit10ptMove == 2.0 * r.value.profit5ptMove
    ensures r.Success? && dailyLimit >= 0.0 && stopPoints > 0.0 ==>
      && r.value.contracts >= 0
      && r.value.riskPerTrade <= RiskShare * dailyLimit
      && RiskShare * dailyLimit < r.value.riskPerTrade + stopPoints * r.value.pointValue
  {
    if stopPoints == 0.0 then Failure(DivisionByZero)
    else
      var pointValue := PointValue(instrument);
      var budget := dailyLimit * RiskShare;
      var perContract := stopPoints * pointValue;
      var contracts := Trunc(budget / perContract);
      var actualRisk := contracts as real * stopPoints * pointValue;
      BudgetSplit(budget, perContract, contracts);
      Success(Risk(
        contracts,
        actualRisk,
        2,
        dailyLimit - actualRisk,
        contracts as real * 5.0 * pointValue,
        contracts as real * 10.0 * pointValue,
        pointValue,
        instrument))
  }

  /** Whole contracts of a non-negative budget fit within it, and one more would not. */
  lemma BudgetSplit(budget: real, perContract: real, contracts: int)
    requires perContract != 0.0 && contracts == Trunc(budget / perContract)
    ensures budget >= 0.0 && perContract > 0.0 ==>
      0 <= contracts && contracts as real * perContract <= budget < (contracts as real + 1.0) * perContract
  {
    if budget >= 0.0 && perContract > 0.0 {
      var q := budget / perContract;
      assert budget == q * perContract;
      assert contracts as real <= q < contracts as real + 1.0;
      assert contracts as real * perContract <= q * perContract;
      var gap := contracts as real + 1.0 - q;
      assert gap > 0.0;
      assert gap * perContract > 0.0;
      assert (contracts as real + 1.0) * perContract - q * perContract == gap * perContract;
      assert q * perContract < (contracts as real + 1.0) * perContract;
      assert budget < (contracts as real + 1.0) * perContract;
    }
  }

  /** A larger daily limit never buys fewer contracts. */
  lemma ContractsMonotoneInLimit(limit1: real, limit2: real, stopPoints: real, instrument: string)
    requires 0.0 <= limit1 <= limit2 && stopPoints > 0.0
    ensures PropFirmRisk(limit1, stopPoints, instrument).value.contracts <= PropFirmRisk(limit2, stopPoints, instrument).value.contracts
  {
    var per := stopPoints * PointValue(instrument);
    var q1, q2 := RiskShare * limit1 / per, RiskShare * limit2 / per;
    assert q1 <= q2 by {
      assert q2 - q1 == RiskShare * (limit2 - limit1) / per;
    }
    FloorMonotone(q1, q2);
  }

  lemma FloorMonotone(x: real, y: real)
    requires 0.0 <= x <= y
    ensures x.Floor <= y.Floor
  {
  }
}
