/**
 * The policy impact simulator: two sliders (deregulation, interest rate)
 * drive three linear metrics, each clamped to [0, 100], and a colour band
 * per metric.
 */
module Policy {

  /** Clamps a metric into the displayed range 0..100. */
  function Clamp(x: real): (r: real)
    ensures 0.0 <= r <= 100.0
    ensures 0.0 <= x <= 100.0 ==> r == x
    ensures x < 0.0 ==> r == 0.0
    ensures x > 100.0 ==> r == 100.0
  {
    var lower := if x >= 0.0 then x else 0.0;
    if lower <= 100.0 then lower else 100.0
  }

  /** Clamping twice is clamping once. */
  lemma ClampIdempotent(x: real)
    ensures Clamp(Clamp(x)) == Clamp(x)
  {
  }

  /** Clamping is monotone. */
  lemma ClampMonotone(x: real, y: real)
    requires x <= y
    ensures Clamp(x) <= Clamp(y)
  {
  }

  /** Raw bank profit: 0.8 per point of deregulation plus 0.5 per point of rate. */
  function RawProfit(deregulation: int, interestRate: int): real
  {
    deregulation as real * 0.8 + interestRate as real * 0.5
  }

  /** Raw consumer risk: 0.9 per point of deregulation plus 0.3 per point of rate. */
  function RawRisk(deregulation: int, interestRate: int): real
  {
    deregulation as real * 0.9 + interestRate as real * 0.3
  }

  /** Raw market stability: 100 less 0.6 per point of deregulation and 0.4 per point of rate. */
  function RawStability(deregulation: int, interestRate: int): real
  {
    100.0 - (deregulation as real * 0.6 + interestRate as real * 0.4)
  }

  /** The three published metrics. */
  datatype Metrics = Metrics(bankProfit: real, consumerRisk: real, marketStability: real)

  /** What the effect publishes; every metric lies in [0, 100]. */
  function Publish(deregulation: int, interestRate: int): (m: Metrics)
    ensures 0.0 <= m.bankProfit <= 100.0
    ensures 0.0 <= m.consumerRisk <= 100.0
    ensures 0.0 <= m.marketStability <= 100.0
  {
    Metrics(Clamp(RawProfit(deregulation, interestRate)),
            Clamp(RawRisk(deregulation, interestRate)),
            Clamp(RawStability(deregulation, interestRate)))
  }

  predicate InSliderRange(deregulation: int, interestRate: int)
  {
    0 <= deregulation <= 100 && 0 <= interestRate <= 100
  }

  /**
   * On the slider ranges stability never needs the clamp, while profit
   * (up to 130) and risk (up to 120) are cut to 100.
   */
  lemma ClampNeededOnlyAbove(deregulation: int, interestRate: int)
    requires InSliderRange(deregulation, interestRate)
    ensures Publish(deregulation, interestRate).marketStability == RawStability(deregulation, interestRate)
    ensures 0.0 <= RawProfit(deregulation, interestRate) <= 130.0
    ensures 0.0 <= RawRisk(deregulation, interestRate) <= 120.0
    ensures RawProfit(100, 100) == 130.0 && Publish(100, 100).bankProfit == 100.0
    ensures RawRisk(100, 100) == 120.0 && Publish(100, 100).consumerRisk == 100.0
  {
  }

  /**
   * Raising either slider never lowers profit or risk and never raises
   * stability.
   */
  lemma PublishMonotone(d1: int, r1: int, d2: int, r2: int)
    requires d1 <= d2 && r1 <= r2
    ensures Publish(d1, r1).bankProfit <= Publish(d2, r2).bankProfit
    ensures Publish(d1, r1).consumerRisk <= Publish(d2, r2).consumerRisk
    ensures Publish(d1, r1).marketStability >= Publish(d2, r2).marketStability
  {
    ClampMonotone(RawProfit(d1, r1), RawProfit(d2, r2));
    ClampMonotone(RawRisk(d1, r1), RawRisk(d2, r2));
    ClampMonotone(RawStability(d2, r2), RawStability(d1, r1));
  }

  /** The starting sliders (50, 50) publish 65, 60 and 50. */
  lemma InitialMetrics()
    ensures Publish(50, 50) == Metrics(65.0, 60.0, 50.0)
  {
  }

  datatype BarColor = Green | Yellow | Red

  /** `getColor`: above 70, above 40, else; `isGoodHigh` decides whether high is green or red. */
  function GetColor(value: real, isGoodHigh: bool): (c: BarColor)
    ensures c == Yellow <==> 40.0 < value <= 70.0
    ensures isGoodHigh ==> (c == Green <==> value > 70.0)
    ensures !isGoodHigh ==> (c == Red <==> value > 70.0)
  {
    if isGoodHigh then
      (if value > 70.0 then Green else if value > 40.0 then Yellow else Red)
    else
      (if value > 70.0 then Red else if value > 40.0 then Yellow else Green)
  }

  function SwapGreenRed(c: BarColor): BarColor
  {
    match c
    case Green => Red
    case Red => Green
    case Yellow => Yellow
  }

  /** The two polarities differ exactly by swapping green and red. */
  lemma ColorPolarity(value: real)
    ensures GetColor(value, false) == SwapGreenRed(GetColor(value, true))
  {
  }

  /** The component's state. */
  class PolicySimulator {
    var deregulation: int
    var interestRate: int
    var bankProfit: real
    var consumerRisk: real
    var marketStability: real

    function Published(): Metrics
      reads this
    {
      Metrics(bankProfit, consumerRisk, marketStability)
    }

    /** The state as first rendered: every metric at its 50 placeholder. */
    constructor ()
      ensures deregulation == 50 && interestRate == 50
      ensures Published() == Metrics(50.0, 50.0, 50.0)
    {
      deregulation, interestRate := 50, 50;
      bankProfit, consumerRisk, marketStability := 50.0, 50.0, 50.0;
    }

    /** The effect: compute the three raw metrics and publish them clamped. */
    method Recompute()
      modifies this
      ensures deregulation == old(deregulation) && interestRate == old(interestRate)
      ensures Published() == Publish(deregulation, interestRate)
    {
      var newProfit := deregulation as real * 0.8 + interestRate as real * 0.5;
      var newRisk := deregulation as real * 0.9 + interestRate as real * 0.3;
      var newStability := 100.0 - (deregulation as real * 0.6 + interestRate as real * 0.4);
      bankProfit := Clamp(newProfit);
      consumerRisk := Clamp(newRisk);
      marketStability := Clamp(newStability);
    }

    method SetDeregulation(v: int)
      requires 0 <= v <= 100
      modifies this
      ensures deregulation == v && interestRate == old(interestRate)
      ensures Published() == Publish(deregulation, interestRate)
    {
      deregulation := v;
      Recompute();
    }

    method SetInterestRate(v: int)
      requires 0 <= v <= 100
      modifies this
      ensures interestRate == v && deregulation == old(deregulation)
      ensures Published() == Publish(deregulation, interestRate)
    {
      interestRate := v;
      Recompute();
    }
  }
}
