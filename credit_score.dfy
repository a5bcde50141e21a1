/**
 * The credit-score simulator: five slider inputs, a clamped weighted sum
 * from a base of 300, rounded to an integer score and put in a rating band.
 * Arithmetic is exact (`real`); `Math.round` is floor(x + 1/2).
 */
module CreditScore {

  /** The five slider values. */
  datatype Factors = Factors(
    paymentHistory: int,  // on-time payments, 0..100 %
    utilization: int,     // credit utilization, 0..100 %
    creditAge: int,       // average age, 0..25 years
    totalAccounts: int,   // 0..30
    inquiries: int)       // hard inquiries, 0..10

  /** The ranges the five range inputs allow. */
  predicate InSliderRange(f: Factors)
  {
    && 0 <= f.paymentHistory <= 100
    && 0 <= f.utilization <= 100
    && 0 <= f.creditAge <= 25
    && 0 <= f.totalAccounts <= 30
    && 0 <= f.inquiries <= 10
  }

  /** The state the sliders start in. */
  const InitialFactors := Factors(100, 10, 5, 5, 0)

  function Min(a: real, b: real): real { if a <= b then a else b }
  function Max(a: real, b: real): real { if a >= b then a else b }

  /** Payment history: up to 192.5 points, linear in the percentage. */
  function PaymentPart(paymentHistory: int): (r: real)
    ensures 0 <= paymentHistory <= 100 ==> 0.0 <= r <= 192.5
  {
    (paymentHistory as real / 100.0) * 192.5
  }

  /** Utilization: 165 points at 0 %, falling 1.65 per percent, never negative. */
  function UtilizationPart(utilization: int): (r: real)
    ensures r >= 0.0
    ensures utilization >= 0 ==> r <= 165.0
    ensures utilization >= 100 ==> r == 0.0
  {
    Max(0.0, 165.0 - utilization as real * 1.65)
  }

  /** Credit age: 3.3 points per year, capped at 82.5. */
  function AgePart(creditAge: int): (r: real)
    ensures r <= 82.5
    ensures creditAge >= 0 ==> r >= 0.0
    ensures creditAge >= 25 ==> r == 82.5
  {
    Min(82.5, (creditAge as real / 25.0) * 82.5)
  }

  /** Total accounts: 2.75 points per account, capped at 55 from 20 accounts on. */
  function AccountsPart(totalAccounts: int): (r: real)
    ensures r <= 55.0
    ensures totalAccounts >= 0 ==> r >= 0.0
    ensures totalAccounts >= 20 ==> r == 55.0
  {
    Min(55.0, (totalAccounts as real / 20.0) * 55.0)
  }

  /** Inquiries: 55 points at none, 5.5 fewer per inquiry, none from 10 on. */
  function InquiriesPart(inquiries: int): (r: real)
    ensures r >= 0.0
    ensures inquiries >= 0 ==> r <= 55.0
    ensures inquiries >= 10 ==> r == 0.0
  {
    Max(0.0, 55.0 - inquiries as real * 5.5)
  }

  /** The unrounded score. */
  function RawScore(f: Factors): (r: real)
    ensures InSliderRange(f) ==> 300.0 <= r <= 850.0
  {
    300.0 + PaymentPart(f.paymentHistory) + UtilizationPart(f.utilization)
    + AgePart(f.creditAge) + AccountsPart(f.totalAccounts) + InquiriesPart(f.inquiries)
  }

  /** `Math.round`: the nearest integer, halves rounded up. */
  function Round(x: real): (n: int)
    ensures x - 0.5 < n as real <= x + 0.5
  {
    (x + 0.5).Floor
  }

  /** Rounding is monotone. */
  lemma RoundMonotone(x: real, y: real)
    requires x <= y
    ensures Round(x) <= Round(y)
  {
  }

  /** Rounding leaves an integer alone. */
  lemma RoundInteger(n: int)
    ensures Round(n as real) == n
  {
  }

  /** The displayed score. */
  function Score(f: Factors): (s: int)
    ensures InSliderRange(f) ==> 300 <= s <= 850
  {
    Round(RawScore(f))
  }

  /** Every slider setting gives a score between 300 and 850. */
  lemma ScoreInRange(f: Factors)
    requires InSliderRange(f)
    ensures 300 <= Score(f) <= 850
  {
    assert 300.0 <= RawScore(f) <= 850.0;
    RoundMonotone(300.0, RawScore(f));
    RoundMonotone(RawScore(f), 850.0);
    RoundInteger(300);
    RoundInteger(850);
  }

  /**
   * g is at least as good as f: no less payment history, credit age and
   * accounts; no more utilization and inquiries.
   */
  predicate AtLeastAsGood(f: Factors, g: Factors)
  {
    && f.paymentHistory <= g.paymentHistory
    && f.utilization >= g.utilization
    && f.creditAge <= g.creditAge
    && f.totalAccounts <= g.totalAccounts
    && f.inquiries >= g.inquiries
  }

  /**
   * The score is non-decreasing in payment history, credit age and total
   * accounts and non-increasing in utilization and inquiries.
   */
  lemma ScoreMonotone(f: Factors, g: Factors)
    requires AtLeastAsGood(f, g)
    ensures Score(f) <= Score(g)
  {
    assert RawScore(f) <= RawScore(g);
    RoundMonotone(RawScore(f), RawScore(g));
  }

  /** The best settings reach 850 (any account count from 20 on), the worst 300. */
  lemma ScoreExtremes(accounts: int)
    requires accounts >= 20
    ensures Score(Factors(100, 0, 25, accounts, 0)) == 850
    ensures Score(Factors(0, 100, 0, 0, 10)) == 300
  {
    RoundInteger(850);
    RoundInteger(300);
  }

  /** The rating bands. */
  datatype Rating = Exceptional | VeryGood | Good | Fair | Poor {

    /** No band is called "Excellent", the label shown before the first computation. */
    function Label(): (s: string)
      ensures s != "Excellent"
    {
      match this
      case Exceptional => "Exceptional"
      case VeryGood => "Very Good"
      case Good => "Good"
      case Fair => "Fair"
      case Poor => "Poor"
    }

    /**
     * A text-colour class (the gauge bar swaps its "text-" prefix for "bg-"),
     * never the placeholder "text-green-500" shown before the first computation.
     */
    function ColorClass(): (c: string)
      ensures |c| > 5 && c[..5] == "text-"
      ensures c != "text-green-500"
    {
      match this
      case Exceptional => "text-emerald-400"
      case VeryGood => "text-green-400"
      case Good => "text-blue-400"
      case Fair => "text-yellow-400"
      case Poor => "text-red-400"
    }

    /** Position in the order Poor < Fair < Good < Very Good < Exceptional. */
    function Rank(): nat
    {
      match this
      case Poor => 0
      case Fair => 1
      case Good => 2
      case VeryGood => 3
      case Exceptional => 4
    }
  }

  /** Exactly one band per score: 800+, 740-799, 670-739, 580-669, below 580. */
  function RatingFor(score: int): (r: Rating)
    ensures r == Exceptional <==> score >= 800
    ensures r == VeryGood <==> 740 <= score < 800
    ensures r == Good <==> 670 <= score < 740
    ensures r == Fair <==> 580 <= score < 670
    ensures r == Poor <==> score < 580
  {
    if score >= 800 then Exceptional
    else if score >= 740 then VeryGood
    else if score >= 670 then Good
    else if score >= 580 then Fair
    else Poor
  }

  /** A higher score never gets a lower band. */
  lemma RatingMonotone(s: int, t: int)
    requires s <= t
    ensures RatingFor(s).Rank() <= RatingFor(t).Rank()
  {
  }

  /** The placeholder label "Excellent" is not the label of any band. */
  lemma ExcellentIsNoBand(r: Rating)
    ensures r.Label() != "Excellent"
  {
    assert "Excellent"[1] == 'x';
  }

  /** The starting sliders compute to 726, "Good" (not the 750 placeholder). */
  lemma InitialScore()
    ensures RawScore(InitialFactors) == 726.25
    ensures Score(InitialFactors) == 726
    ensures RatingFor(Score(InitialFactors)) == Good
  {
  }

  /** The width of the progress bar, in percent. */
  function ProgressPercent(score: int): (pct: real)
    ensures 300 <= score <= 850 ==> 0.0 <= pct <= 100.0
    ensures score == 300 ==> pct == 0.0
    ensures score == 850 ==> pct == 100.0
    ensures score < 300 ==> pct < 0.0
  {
    ((score - 300) as real / 550.0) * 100.0
  }

  /** For every slider setting the bar is between empty and full. */
  lemma ProgressPercentInRange(f: Factors)
    requires InSliderRange(f)
    ensures 0.0 <= ProgressPercent(Score(f)) <= 100.0
  {
    ScoreInRange(f);
  }

  /** The component's state: the sliders and what the effect last wrote. */
  class CreditScoreSimulator {
    var paymentHistory: int
    var utilization: int
    var creditAge: int
    var totalAccounts: int
    var inquiries: int
    var score: int
    var rating: string
    var color: string

    function Inputs(): Factors
      reads this
    {
      Factors(paymentHistory, utilization, creditAge, totalAccounts, inquiries)
    }

    /** The state as first rendered, before the effect has run. */
    constructor ()
      ensures Valid() && Inputs() == InitialFactors
      ensures score == 750 && rating == "Excellent" && color == "text-green-500"
    {
      paymentHistory, utilization, creditAge, totalAccounts, inquiries := 100, 10, 5, 5, 0;
      score, rating, color := 750, "Excellent", "text-green-500";
    }

    /** The effect: accumulate the parts, round, then pick the band. */
    method Recompute()
      modifies this
      ensures Inputs() == old(Inputs())
      ensures score == Score(Inputs())
      ensures rating == RatingFor(score).Label() && color == RatingFor(score).ColorClass()
    {
      var calculated := 300.0;
      calculated := calculated + PaymentPart(paymentHistory);
      calculated := calculated + UtilizationPart(utilization);
      calculated := calculated + AgePart(creditAge);
      calculated := calculated + AccountsPart(totalAccounts);
      calculated := calculated + InquiriesPart(inquiries);
      var finalScore := Round(calculated);
      score := finalScore;
      if finalScore >= 800 {
        rating, color := "Exceptional", "text-emerald-400";
      } else if finalScore >= 740 {
        rating, color := "Very Good", "text-green-400";
      } else if finalScore >= 670 {
        rating, color := "Good", "text-blue-400";
      } else if finalScore >= 580 {
        rating, color := "Fair", "text-yellow-400";
      } else {
        rating, color := "Poor", "text-red-400";
      }
    }

    /** The sliders can only hold values in their ranges. */
    ghost predicate Valid()
      reads this
    {
      InSliderRange(Inputs())
    }

    // Each setter moves one slider; the effect then runs again.

    method SetPaymentHistory(v: int)
      requires Valid() && 0 <= v <= 100
      modifies this
      ensures Valid() && Inputs() == old(Inputs()).(paymentHistory := v)
      ensures score == Score(Inputs()) && 300 <= score <= 850
      ensures rating == RatingFor(score).Label() && color == RatingFor(score).ColorClass()
    {
      paymentHistory := v;
      Recompute();
      ScoreInRange(Inputs());
    }

    method SetUtilization(v: int)
      requires Valid() && 0 <= v <= 100
      modifies this
      ensures Valid() && Inputs() == old(Inputs()).(utilization := v)
      ensures score == Score(Inputs()) && 300 <= score <= 850
      ensures rating == RatingFor(score).Label() && color == RatingFor(score).ColorClass()
    {
      utilization := v;
      Recompute();
      ScoreInRange(Inputs());
    }

    method SetCreditAge(v: int)
      requires Valid() && 0 <= v <= 25
      modifies this
      ensures Valid() && Inputs() == old(Inputs()).(creditAge := v)
      ensures score == Score(Inputs()) && 300 <= score <= 850
      ensures rating == RatingFor(score).Label() && color == RatingFor(score).ColorClass()
    {
      creditAge := v;
      Recompute();
      ScoreInRange(Inputs());
    }

    method SetTotalAccounts(v: int)
      requires Valid() && 0 <= v <= 30
      modifies this
      ensures Valid() && Inputs() == old(Inputs()).(totalAccounts := v)
      ensures score == Score(Inputs()) && 300 <= score <= 850
      ensures rating == RatingFor(score).Label() && color == RatingFor(score).ColorClass()
    {
      totalAccounts := v;
      Recompute();
      ScoreInRange(Inputs());
    }

    method SetInquiries(v: int)
      requires Valid() && 0 <= v <= 10
      modifies this
      ensures Valid() && Inputs() == old(Inputs()).(inquiries := v)
      ensures score == Score(Inputs()) && 300 <= score <= 850
      ensures rating == RatingFor(score).Label() && color == RatingFor(score).ColorClass()
    {
      inquiries := v;
      Recompute();
      ScoreInRange(Inputs());
    }
  }
}
