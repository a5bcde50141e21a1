/**
 * The risk assessment lab: the user rates four risks from 1 to 5, the
 * average is classified into a risk level, and after "Run Analysis" the
 * ratings are frozen and compared with the case study's expert ratings.
 */
module RiskLab {
  import opened Wrappers

  datatype Risk = Risk(id: string, title: string, description: string, expertRating: int, insight: string)

  const Cyber := Risk("cyber", "Cybersecurity Threats",
      "Risk of data breaches and quantum attacks on cloud infrastructure.", 5,
      "High Risk: As Capital One expands cloud infrastructure, the attack surface grows. The essay highlights the critical need for 'Quantum-Resistant Cybersecurity' and zero-trust frameworks.")
  const Regulatory := Risk("regulatory", "Deregulation Impact",
      "Reduced federal oversight leading to potential predatory practices.", 4,
      "High Risk: Trump-era deregulation weakens the CFPB. While this aids innovation, it shifts the burden of consumer protection entirely to internal bank governance.")
  const AiEthics := Risk("ai_ethics", "AI Bias & Ethics",
      "Algorithmic discrimination in automated lending decisions.", 4,
      "High Risk: Automated lending can inadvertently perpetuate bias. The essay emphasizes the need for 'fairness audits' and 'explainable AI' to mitigate this.")
  const Operational := Risk("operational", "Operational Resilience",
      "System failures due to rapid digital transformation speed.", 3,
      "Moderate Risk: Capital One was an early cloud adopter (2015), giving them a mature infrastructure compared to competitors, though rapid updates always carry stability risks.")

  /** The four risks, in display order. */
  const Risks: seq<Risk> := [Cyber, Regulatory, AiEthics, Operational]

  /** The ids of the risks, in table order. */
  const RiskIds: seq<string> := ["cyber", "regulatory", "ai_ethics", "operational"]

  predicate IsRiskId(id: string)
  {
    id in RiskIds
  }

  /** A ratings record keyed by exactly the four risk ids. */
  predicate HasRiskKeys(ratings: map<string, int>)
  {
    ratings.Keys == set id | id in RiskIds
  }

  /** Every rating is one of the buttons 1..5. */
  predicate RatingsInRange(ratings: map<string, int>)
  {
    forall id :: id in ratings ==> 1 <= ratings[id] <= 5
  }

  /** The ratings the lab starts with: 3 for every risk. */
  const InitialRatings: map<string, int> :=
    map["cyber" := 3, "regulatory" := 3, "ai_ethics" := 3, "operational" := 3]

  /** The expert ratings record, built by folding the risks into a map from id to expert rating. */
  function CollectExpertRatings(risks: seq<Risk>): (m: map<string, int>)
    ensures forall id :: id in m <==> exists k :: 0 <= k < |risks| && risks[k].id == id
  {
    if risks == [] then map[]
    else
      var last := risks[|risks| - 1];
      var m := CollectExpertRatings(risks[..|risks| - 1]);
      assert forall k :: 0 <= k < |risks| - 1 ==> risks[..|risks| - 1][k] == risks[k];
      m[last.id := last.expertRating]
  }

  /** The sum of the ratings of the given ids. */
  function SumOver(ratings: map<string, int>, ids: seq<string>): int
    requires forall k :: 0 <= k < |ids| ==> ids[k] in ratings
  {
    if ids == [] then 0 else ratings[ids[0]] + SumOver(ratings, ids[1..])
  }

  /**
   * `calculateScore`: the sum of the ratings divided by the number of risks.
   * Every record the lab builds holds exactly the four risk ids, so the sum
   * of its values is the sum over the ids.
   */
  function CalculateScore(ratings: map<string, int>): (avg: real)
    requires HasRiskKeys(ratings)
    ensures avg * |Risks| as real == SumOver(ratings, RiskIds) as real
    ensures RatingsInRange(ratings) ==> 1.0 <= avg <= 5.0
  {
    var sum := SumOver(ratings, RiskIds);
    assert RatingsInRange(ratings) ==> |RiskIds| <= sum <= 5 * |RiskIds| by {
      if RatingsInRange(ratings) {
        SumOverBounds(ratings, RiskIds);
      }
    }
    sum as real / |Risks| as real
  }

  /** A sum of ratings in 1..5 lies between |ids| and 5 |ids|. */
  lemma {:induction false} SumOverBounds(ratings: map<string, int>, ids: seq<string>)
    requires forall k :: 0 <= k < |ids| ==> ids[k] in ratings
    requires RatingsInRange(ratings)
    ensures |ids| <= SumOver(ratings, ids) <= 5 * |ids|
  {
    if ids != [] {
      SumOverBounds(ratings, ids[1..]);
    }
  }

  /** With every rating in 1..5 the average lies in [1, 5]. */
  lemma AverageInRange(ratings: map<string, int>)
    requires HasRiskKeys(ratings) && RatingsInRange(ratings)
    ensures 1.0 <= CalculateScore(ratings) <= 5.0
  {
    SumOverBounds(ratings, RiskIds);
  }

  /** The lab starts with an average of exactly 3.0. */
  lemma InitialAverage()
    ensures HasRiskKeys(InitialRatings) && RatingsInRange(InitialRatings)
    ensures CalculateScore(InitialRatings) == 3.0
  {
  }

  datatype Tone = Green | Yellow | Red

  datatype Level = Low | Moderate | Critical {

    function Label(): string
    {
      match this
      case Low => "LOW"
      case Moderate => "MODERATE"
      case Critical => "CRITICAL"
    }

    /** The colour of the label text. */
    function Tone(): Tone
    {
      match this
      case Low => Green
      case Moderate => Yellow
      case Critical => Red
    }

    function Rank(): nat
    {
      match this
      case Low => 0
      case Moderate => 1
      case Critical => 2
    }
  }

  /** `getRiskLevel`: below 2 LOW, from 2 below 3.5 MODERATE, from 3.5 on CRITICAL. */
  function GetRiskLevel(score: real): (level: Level)
    ensures level == Low <==> score < 2.0
    ensures level == Moderate <==> 2.0 <= score < 3.5
    ensures level == Critical <==> score >= 3.5
  {
    if score < 2.0 then Low
    else if score < 3.5 then Moderate
    else Critical
  }

  /** A higher average never gets a lower level. */
  lemma RiskLevelMonotone(s: real, t: real)
    requires s <= t
    ensures GetRiskLevel(s).Rank() <= GetRiskLevel(t).Rank()
  {
  }

  /** The expert record holds the four ids, averages (5+4+4+3)/4 = 4.0 and reads CRITICAL. */
  lemma ExpertAverage()
    ensures CollectExpertRatings(Risks) == map["cyber" := 5, "regulatory" := 4, "ai_ethics" := 4, "operational" := 3]
    ensures HasRiskKeys(CollectExpertRatings(Risks))
    ensures CalculateScore(CollectExpertRatings(Risks)) == 4.0
    ensures GetRiskLevel(CalculateScore(CollectExpertRatings(Risks))) == Critical
  {
    ExpertRatingsRecord();
    SumOverRiskIds(map["cyber" := 5, "regulatory" := 4, "ai_ethics" := 4, "operational" := 3]);
  }

  /** The record the reduce builds from the expert ratings. */
  lemma ExpertRatingsRecord()
    ensures CollectExpertRatings(Risks) == map["cyber" := 5, "regulatory" := 4, "ai_ethics" := 4, "operational" := 3]
  {
    var e: map<string, int> := map[];
    CollectAppend([], Cyber);
    assert [] + [Cyber] == [Cyber];
    var m1 := e["cyber" := 5];
    assert CollectExpertRatings([Cyber]) == m1;
    CollectAppend([Cyber], Regulatory);
    assert [Cyber] + [Regulatory] == [Cyber, Regulatory];
    var m2 := m1["regulatory" := 4];
    assert CollectExpertRatings([Cyber, Regulatory]) == m2;
    CollectAppend([Cyber, Regulatory], AiEthics);
    assert [Cyber, Regulatory] + [AiEthics] == [Cyber, Regulatory, AiEthics];
    var m3 := m2["ai_ethics" := 4];
    assert CollectExpertRatings([Cyber, Regulatory, AiEthics]) == m3;
    CollectAppend([Cyber, Regulatory, AiEthics], Operational);
    assert [Cyber, Regulatory, AiEthics] + [Operational] == Risks;
    var m4 := m3["operational" := 3];
    assert CollectExpertRatings(Risks) == m4;
  }

  /** One step of the reduce. */
  lemma CollectAppend(risks: seq<Risk>, r: Risk)
    ensures CollectExpertRatings(risks + [r]) == CollectExpertRatings(risks)[r.id := r.expertRating]
  {
    assert (risks + [r])[..|risks|] == risks;
  }

  /** The sum over the ids, written out. */
  lemma SumOverRiskIds(ratings: map<string, int>)
    requires HasRiskKeys(ratings)
    ensures SumOver(ratings, RiskIds)
      == ratings["cyber"] + ratings["regulatory"] + ratings["ai_ethics"] + ratings["operational"]
  {
    var i1 := RiskIds[1..];
    var i2 := i1[1..];
    var i3 := i2[1..];
    assert i3 == ["operational"] && i3[1..] == [];
    assert SumOver(ratings, i3) == ratings["operational"];
    assert SumOver(ratings, i2) == ratings["ai_ethics"] + ratings["operational"];
    assert SumOver(ratings, i1) == ratings["regulatory"] + ratings["ai_ethics"] + ratings["operational"];
  }

  /** A user who matches every expert rating gets the expert's average. */
  lemma AllAccurateGivesExpertAverage(ratings: map<string, int>)
    requires HasRiskKeys(ratings)
    requires forall risk | risk in Risks :: ratings[risk.id] == risk.expertRating
    ensures CalculateScore(ratings) == 4.0
  {
    assert Cyber in Risks && Regulatory in Risks && AiEthics in Risks && Operational in Risks;
    assert ratings[Cyber.id] == 5 && ratings[Regulatory.id] == 4;
    assert ratings[AiEthics.id] == 4 && ratings[Operational.id] == 3;
    SumOverRiskIds(ratings);
  }

  /** The ring around the average as written: strict `>` at 3.5 and at 2. */
  function RingColor(score: real): (t: Tone)
    ensures t == Red <==> score > 3.5
    ensures t == Green <==> score <= 2.0
  {
    if score > 3.5 then Red else if score > 2.0 then Yellow else Green
  }

  /** An average of exactly 2.0 reads MODERATE in a green ring; 3.5 reads CRITICAL in a yellow one. */
  lemma RingDisagreesWithLabel()
    ensures var two := map["cyber" := 2, "regulatory" := 2, "ai_ethics" := 2, "operational" := 2];
      HasRiskKeys(two) && CalculateScore(two) == 2.0
      && GetRiskLevel(2.0).Tone() == Yellow && RingColor(2.0) == Green
    ensures var mixed := map["cyber" := 4, "regulatory" := 4, "ai_ethics" := 3, "operational" := 3];
      HasRiskKeys(mixed) && CalculateScore(mixed) == 3.5
      && GetRiskLevel(3.5).Tone() == Red && RingColor(3.5) == Yellow
  {
  }

  /** The ring with the label's own thresholds. */
  function AlignedRingColor(score: real): (t: Tone)
    ensures t == Red <==> score >= 3.5
    ensures t == Green <==> score < 2.0
  {
    if score >= 3.5 then Red else if score >= 2.0 then Yellow else Green
  }

  /**
   * The aligned ring always has the label's colour, and differs from the
   * ring as written exactly at the two thresholds.
   */
  lemma AlignedRingMatchesLabel(score: real)
    ensures AlignedRingColor(score) == GetRiskLevel(score).Tone()
    ensures AlignedRingColor(score) != RingColor(score) <==> score == 2.0 || score == 3.5
  {
  }

  /** `toggleInsight`: the same id closes the open insight, another id replaces it. */
  function ToggledInsight(expanded: Option<string>, id: string): (r: Option<string>)
    ensures expanded == Some(id) ==> r == None
    ensures expanded != Some(id) ==> r == Some(id)
  {
    if expanded == Some(id) then None else Some(id)
  }

  /** Toggling the same id twice from closed closes it again. */
  lemma ToggleTwiceCloses(id: string)
    ensures ToggledInsight(ToggledInsight(None, id), id) == None
  {
  }

  /** The component's state. */
  class RiskAssessment {
    var ratings: map<string, int>
    var isSubmitted: bool
    var expandedInsight: Option<string>

    ghost predicate Valid()
      reads this
    {
      HasRiskKeys(ratings) && RatingsInRange(ratings)
    }

    constructor ()
      ensures Valid()
      ensures ratings == InitialRatings && !isSubmitted && expandedInsight == None
    {
      ratings := InitialRatings;
      isSubmitted := false;
      expandedInsight := None;
    }

    /** The user's average, shown in the ring. */
    function UserAverage(): (avg: real)
      reads this
      requires Valid()
      ensures 1.0 <= avg <= 5.0
    {
      AverageInRange(ratings);
      CalculateScore(ratings)
    }

    /** `isMatch`: the user's rating equals the expert's. */
    function IsMatch(risk: Risk): (matched: bool)
      reads this
      requires Valid() && risk in Risks
      ensures matched <==> ratings[risk.id] == risk.expertRating
    {
      ratings[risk.id] == risk.expertRating
    }

    /** A click on rating button `rating` of risk `id`; ignored once submitted. */
    method HandleRate(id: string, rating: int)
      requires Valid() && IsRiskId(id) && 1 <= rating <= 5
      modifies this
      ensures Valid()
      ensures old(isSubmitted) ==> ratings == old(ratings)
      ensures !old(isSubmitted) ==> ratings == old(ratings)[id := rating]
      ensures isSubmitted == old(isSubmitted) && expandedInsight == old(expandedInsight)
    {
      if !isSubmitted {
        ratings := ratings[id := rating];
      }
    }

    /** "Run Analysis". */
    method RunAnalysis()
      requires Valid()
      modifies this
      ensures Valid() && isSubmitted
      ensures ratings == old(ratings) && expandedInsight == old(expandedInsight)
    {
      isSubmitted := true;
    }

    /** "Reset Simulation": the ratings survive. */
    method ResetSimulation()
      requires Valid()
      modifies this
      ensures Valid() && !isSubmitted
      ensures ratings == old(ratings) && expandedInsight == old(expandedInsight)
    {
      isSubmitted := false;
    }

    method ToggleInsight(id: string)
      modifies this
      ensures expandedInsight == ToggledInsight(old(expandedInsight), id)
      ensures ratings == old(ratings) && isSubmitted == old(isSubmitted)
    {
      if expandedInsight == Some(id) {
        expandedInsight := None;
      } else {
        expandedInsight := Some(id);
      }
    }
  }

  /** A user whose every card shows "Accurate" has exactly the expert average. */
  lemma AllMatchesGiveExpertAverage(lab: RiskAssessment)
    requires lab.Valid()
    requires forall risk | risk in Risks :: lab.IsMatch(risk)
    ensures lab.UserAverage() == 4.0
    ensures GetRiskLevel(lab.UserAverage()) == Critical
  {
    AllAccurateGivesExpertAverage(lab.ratings);
  }
}
