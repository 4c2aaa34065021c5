/** The maternal risk score: an ordered list of rules, each adding a weight
    and one description when it fires, and a three-band classification of
    the total. */
module RiskScoring {
  import opened Wrappers
  import opened RiskRules

  datatype RiskLevel = Low | Moderate | High

  /** The optional numeric fields are JavaScript numbers that may be absent;
      they are modelled as integers. */
  datatype RiskFactors = RiskFactors(
    userId: string,
    age: Option<int>,
    bpSystolic: Option<int>,
    bpDiastolic: Option<int>,
    previousComplications: bool,
    gestationalDiabetes: bool,
    highParity: bool,
    firstPregnancy: bool,
    multiplePregnancy: bool)

  datatype RiskResult = RiskResult(score: int, level: RiskLevel, factors: seq<string>)

  /** JavaScript truthiness of an optional number: present and not zero. */
  predicate Truthy(x: Option<int>) { x.Some? && x.value != 0 }


  /** Both blood-pressure readings present and non-zero. */
  predicate BpRecorded(f: RiskFactors)
  {
    Truthy(f.bpSystolic) && Truthy(f.bpDiastolic)
  }

  predicate SevereBp(f: RiskFactors)
    requires BpRecorded(f)
  {
    f.bpSystolic.value >= 160 || f.bpDiastolic.value >= 110
  }

  predicate RaisedBp(f: RiskFactors)
    requires BpRecorded(f)
  {
    f.bpSystolic.value >= 140 || f.bpDiastolic.value >= 90
  }

  /** When a rule fires. The second rule of each band applies only when the
      first did not (the `else if` of calculateRiskScore). */
  predicate Fires(f: RiskFactors, r: Rule)
  {
    match r
    case TeenagePregnancy => Truthy(f.age) && f.age.value < 17
    case AdvancedMaternalAge => Truthy(f.age) && !(f.age.value < 17) && f.age.value >= 35
    case SevereHypertension => BpRecorded(f) && SevereBp(f)
    case ModerateHypertension => BpRecorded(f) && !SevereBp(f) && RaisedBp(f)
    case PreviousComplications => f.previousComplications
    case GestationalDiabetes => f.gestationalDiabetes
    case HighParity => f.highParity
    case FirstPregnancy => f.firstPregnancy
    case MultiplePregnancy => f.multiplePregnancy
  }

  /** `[r]` when `r` fires, otherwise nothing. */
  function Pick(f: RiskFactors, r: Rule): seq<Rule>
  {
    if Fires(f, r) then [r] else []
  }

  /** The rules among the first `n` that fire, in evaluation order. */
  function FiredAmong(f: RiskFactors, n: nat): seq<Rule>
    requires n <= |Rules|
  {
    if n == 0 then [] else FiredAmong(f, n - 1) + Pick(f, Rules[n - 1])
  }

  function FiredRules(f: RiskFactors): seq<Rule>
  {
    FiredAmong(f, |Rules|)
  }

  function TotalWeight(rs: seq<Rule>): int
  {
    if rs == [] then 0 else TotalWeight(rs[..|rs| - 1]) + Weight(rs[|rs| - 1])
  }

  function Descriptions(rs: seq<Rule>): seq<string>
  {
    if rs == [] then [] else Descriptions(rs[..|rs| - 1]) + [Description(rs[|rs| - 1])]
  }

  /** The risk level of a score: high from 40, moderate from 20, low below. */
  function Classify(score: int): (level: RiskLevel)
    ensures level == High <==> score >= 40
    ensures level == Moderate <==> 20 <= score < 40
    ensures level == Low <==> score < 20
  {
    if score >= 40 then High else if score >= 20 then Moderate else Low
  }

  /** The fired rules' weights summed. */
  function Score(f: RiskFactors): int
  {
    TotalWeight(FiredRules(f))
  }

  /** The fired rules' descriptions, in order. */
  function Factors(f: RiskFactors): seq<string>
  {
    Descriptions(FiredRules(f))
  }

  /** The specification of an assessment: the score, its classification and
      the descriptions. The score lies between 0 and 100, at most seven
      factors are listed, and there is none exactly when the score is 0. */
  function Assess(f: RiskFactors): (r: RiskResult)
    ensures 0 <= r.score <= 100 && r.level == Classify(r.score)
    ensures |r.factors| <= 7 && (r.factors == [] <==> r.score == 0)
  {
    AssessmentBounds(f);
    RiskResult(Score(f), Classify(Score(f)), Factors(f))
  }

  // ------------------------------------------------------- sums and lists

  lemma {:induction false} TotalWeightConcat(a: seq<Rule>, b: seq<Rule>)
    ensures TotalWeight(a + b) == TotalWeight(a) + TotalWeight(b)
  {
    if b == [] {
      assert a + b == a;
    } else {
      var b' := b[..|b| - 1];
      assert (a + b)[..|a + b| - 1] == a + b';
      TotalWeightConcat(a, b');
    }
  }

  lemma {:induction false} DescriptionsConcat(a: seq<Rule>, b: seq<Rule>)
    ensures Descriptions(a + b) == Descriptions(a) + Descriptions(b)
  {
    if b == [] {
      assert a + b == a;
    } else {
      var b' := b[..|b| - 1];
      assert (a + b)[..|a + b| - 1] == a + b';
      DescriptionsConcat(a, b');
    }
  }

  /** The fired rules spelled out rule by rule. */
  lemma FiredRulesUnfolded(f: RiskFactors)
    ensures FiredRules(f)
              == Pick(f, TeenagePregnancy) + Pick(f, AdvancedMaternalAge)
               + Pick(f, SevereHypertension) + Pick(f, ModerateHypertension)
               + Pick(f, PreviousComplications) + Pick(f, GestationalDiabetes)
               + Pick(f, HighParity) + Pick(f, FirstPregnancy) + Pick(f, MultiplePregnancy)
  {
    assert FiredAmong(f, 1) == Pick(f, TeenagePregnancy);
    assert FiredAmong(f, 2) == FiredAmong(f, 1) + Pick(f, AdvancedMaternalAge);
    assert FiredAmong(f, 3) == FiredAmong(f, 2) + Pick(f, SevereHypertension);
    assert FiredAmong(f, 4) == FiredAmong(f, 3) + Pick(f, ModerateHypertension);
    assert FiredAmong(f, 5) == FiredAmong(f, 4) + Pick(f, PreviousComplications);
    assert FiredAmong(f, 6) == FiredAmong(f, 5) + Pick(f, GestationalDiabetes);
    assert FiredAmong(f, 7) == FiredAmong(f, 6) + Pick(f, HighParity);
    assert FiredAmong(f, 8) == FiredAmong(f, 7) + Pick(f, FirstPregnancy);
    assert FiredAmong(f, 9) == FiredAmong(f, 8) + Pick(f, MultiplePregnancy);
  }

  // ------------------------------------------------------------ the stages

  /** What the age band contributes: at most one rule, the `else if` of
      calculateRiskScore choosing between the two. */
  function AgeBand(f: RiskFactors): seq<Rule>
  {
    if Truthy(f.age) then
      if f.age.value < 17 then [TeenagePregnancy]
      else if f.age.value >= 35 then [AdvancedMaternalAge]
      else []
    else []
  }

  /** What the blood-pressure band contributes: at most one rule. */
  function BpBand(f: RiskFactors): seq<Rule>
  {
    if Truthy(f.bpSystolic) && Truthy(f.bpDiastolic) then
      if f.bpSystolic.value >= 160 || f.bpDiastolic.value >= 110 then [SevereHypertension]
      else if f.bpSystolic.value >= 140 || f.bpDiastolic.value >= 90 then [ModerateHypertension]
      else []
    else []
  }

  /** What a boolean flag contributes. */
  function Flag(raised: bool, r: Rule): seq<Rule>
  {
    if raised then [r] else []
  }

  /** Weight and description list of a stage's contribution of at most one
      rule. */
  function StageWeight(band: seq<Rule>): int
  {
    if band == [] then 0 else Weight(band[0])
  }

  function StageText(band: seq<Rule>): seq<string>
  {
    if band == [] then [] else [Description(band[0])]
  }

  lemma StageWeightTotal(band: seq<Rule>)
    ensures |band| <= 1 ==> TotalWeight(band) == StageWeight(band)
  {
    if |band| == 1 {
      assert band[..0] == [];
    }
  }

  lemma StageTextTotal(band: seq<Rule>)
    ensures |band| <= 1 ==> Descriptions(band) == StageText(band)
  {
    if |band| == 1 {
      assert band[..0] == [];
    }
  }

  /** The fired rules, assembled stage by stage as the computation runs. */
  lemma StagesAreFiredRules(f: RiskFactors)
    ensures FiredRules(f)
              == AgeBand(f) + BpBand(f)
               + Flag(f.previousComplications, PreviousComplications)
               + Flag(f.gestationalDiabetes, GestationalDiabetes)
               + Flag(f.highParity, HighParity)
               + Flag(f.firstPregnancy, FirstPregnancy)
               + Flag(f.multiplePregnancy, MultiplePregnancy)
  {
    FiredRulesUnfolded(f);
    assert AgeBand(f) == Pick(f, TeenagePregnancy) + Pick(f, AdvancedMaternalAge);
    assert BpBand(f) == Pick(f, SevereHypertension) + Pick(f, ModerateHypertension);
    assert AgeBand(f) + BpBand(f)
           == Pick(f, TeenagePregnancy) + Pick(f, AdvancedMaternalAge)
            + Pick(f, SevereHypertension) + Pick(f, ModerateHypertension);
  }

  /** The specified score, read stage by stage. */
  lemma ScoreByStages(f: RiskFactors)
    ensures Score(f)
              == StageWeight(AgeBand(f)) + StageWeight(BpBand(f))
               + StageWeight(Flag(f.previousComplications, PreviousComplications))
               + StageWeight(Flag(f.gestationalDiabetes, GestationalDiabetes))
               + StageWeight(Flag(f.highParity, HighParity))
               + StageWeight(Flag(f.firstPregnancy, FirstPregnancy))
               + StageWeight(Flag(f.multiplePregnancy, MultiplePregnancy))
  {
    StagesAreFiredRules(f);
    WeightsOfStages(AgeBand(f), BpBand(f),
                    Flag(f.previousComplications, PreviousComplications),
                    Flag(f.gestationalDiabetes, GestationalDiabetes),
                    Flag(f.highParity, HighParity),
                    Flag(f.firstPregnancy, FirstPregnancy),
                    Flag(f.multiplePregnancy, MultiplePregnancy));
  }

  /** Seven stages of at most one rule each are weighed stage by stage. */
  lemma WeightsOfStages(a: seq<Rule>, b: seq<Rule>, c: seq<Rule>, d: seq<Rule>,
                        e: seq<Rule>, g: seq<Rule>, h: seq<Rule>)
    requires |a| <= 1 && |b| <= 1 && |c| <= 1 && |d| <= 1 && |e| <= 1 && |g| <= 1 && |h| <= 1
    ensures TotalWeight(a + b + c + d + e + g + h)
              == StageWeight(a) + StageWeight(b) + StageWeight(c) + StageWeight(d)
               + StageWeight(e) + StageWeight(g) + StageWeight(h)
  {
    TotalWeightConcat(a, b);
    TotalWeightConcat(a + b, c);
    TotalWeightConcat(a + b + c, d);
    TotalWeightConcat(a + b + c + d, e);
    TotalWeightConcat(a + b + c + d + e, g);
    TotalWeightConcat(a + b + c + d + e + g, h);
    StageWeightTotal(a);
    StageWeightTotal(b);
    StageWeightTotal(c);
    StageWeightTotal(d);
    StageWeightTotal(e);
    StageWeightTotal(g);
    StageWeightTotal(h);
  }

  /** The specified descriptions, read stage by stage. */
  lemma FactorsByStages(f: RiskFactors)
    ensures Factors(f)
              == StageText(AgeBand(f)) + StageText(BpBand(f))
               + StageText(Flag(f.previousComplications, PreviousComplications))
               + StageText(Flag(f.gestationalDiabetes, GestationalDiabetes))
               + StageText(Flag(f.highParity, HighParity))
               + StageText(Flag(f.firstPregnancy, FirstPregnancy))
               + StageText(Flag(f.multiplePregnancy, MultiplePregnancy))
  {
    StagesAreFiredRules(f);
    DescriptionsOfStages(AgeBand(f), BpBand(f),
                         Flag(f.previousComplications, PreviousComplications),
                         Flag(f.gestationalDiabetes, GestationalDiabetes),
                         Flag(f.highParity, HighParity),
                         Flag(f.firstPregnancy, FirstPregnancy),
                         Flag(f.multiplePregnancy, MultiplePregnancy));
  }

  /** Seven stages of at most one rule each are described stage by stage. */
  lemma DescriptionsOfStages(a: seq<Rule>, b: seq<Rule>, c: seq<Rule>, d: seq<Rule>,
                             e: seq<Rule>, g: seq<Rule>, h: seq<Rule>)
    requires |a| <= 1 && |b| <= 1 && |c| <= 1 && |d| <= 1 && |e| <= 1 && |g| <= 1 && |h| <= 1
    ensures Descriptions(a + b + c + d + e + g + h)
              == StageText(a) + StageText(b) + StageText(c) + StageText(d)
               + StageText(e) + StageText(g) + StageText(h)
  {
    DescriptionsConcat(a, b);
    DescriptionsConcat(a + b, c);
    DescriptionsConcat(a + b + c, d);
    DescriptionsConcat(a + b + c + d, e);
    DescriptionsConcat(a + b + c + d + e, g);
    DescriptionsConcat(a + b + c + d + e + g, h);
    StageTextTotal(a);
    StageTextTotal(b);
    StageTextTotal(c);
    StageTextTotal(d);
    StageTextTotal(e);
    StageTextTotal(g);
    StageTextTotal(h);
  }

  // ----------------------------------------------------------- the methods

  /** The age block: adds the weight and the description of the age rule
      that fires, if any. */
  method AgeStage(factors: RiskFactors, score: int, riskFactors: seq<string>)
    returns (score': int, riskFactors': seq<string>)
    ensures score' == score + StageWeight(AgeBand(factors))
    ensures riskFactors' == riskFactors + StageText(AgeBand(factors))
  {
    score', riskFactors' := score, riskFactors;
    if Truthy(factors.age) {
      if factors.age.value < 17 {
        score' := score' + 10;
        riskFactors' := riskFactors' + [Description(TeenagePregnancy)];
      } else if factors.age.value >= 35 {
        score' := score' + 10;
        riskFactors' := riskFactors' + [Description(AdvancedMaternalAge)];
      }
    }
  }

  /** The hypertension block. */
  method BloodPressureStage(factors: RiskFactors, score: int, riskFactors: seq<string>)
    returns (score': int, riskFactors': seq<string>)
    ensures score' == score + StageWeight(BpBand(factors))
    ensures riskFactors' == riskFactors + StageText(BpBand(factors))
  {
    score', riskFactors' := score, riskFactors;
    if Truthy(factors.bpSystolic) && Truthy(factors.bpDiastolic) {
      if factors.bpSystolic.value >= 160 || factors.bpDiastolic.value >= 110 {
        score' := score' + 25;
        riskFactors' := riskFactors' + [Description(SevereHypertension)];
      } else if factors.bpSystolic.value >= 140 || factors.bpDiastolic.value >= 90 {
        score' := score' + 15;
        riskFactors' := riskFactors' + [Description(ModerateHypertension)];
      }
    }
  }

  /** One of the five flag blocks. */
  method FlagStage(raised: bool, r: Rule, score: int, riskFactors: seq<string>)
    returns (score': int, riskFactors': seq<string>)
    ensures score' == score + StageWeight(Flag(raised, r))
    ensures riskFactors' == riskFactors + StageText(Flag(raised, r))
  {
    score', riskFactors' := score, riskFactors;
    if raised {
      score' := score' + Weight(r);
      riskFactors' := riskFactors' + [Description(r)];
    }
  }

  /** calculateRiskScore: the blocks run in order, then the total is
      classified. */
  method CalculateRiskScore(factors: RiskFactors) returns (result: RiskResult)
    ensures result == Assess(factors)
  {
    var score := 0;
    var riskFactors: seq<string> := [];
    ghost var a, b := AgeBand(factors), BpBand(factors);
    ghost var c := Flag(factors.previousComplications, PreviousComplications);
    ghost var d := Flag(factors.gestationalDiabetes, GestationalDiabetes);
    ghost var e := Flag(factors.highParity, HighParity);
    ghost var g := Flag(factors.firstPregnancy, FirstPregnancy);
    ghost var h := Flag(factors.multiplePregnancy, MultiplePregnancy);

    score, riskFactors := AgeStage(factors, score, riskFactors);
    assert riskFactors == StageText(a);
    score, riskFactors := BloodPressureStage(factors, score, riskFactors);
    assert score == StageWeight(a) + StageWeight(b);
    assert riskFactors == StageText(a) + StageText(b);
    score, riskFactors := FlagStage(factors.previousComplications, PreviousComplications, score, riskFactors);
    assert score == StageWeight(a) + StageWeight(b) + StageWeight(c);
    assert riskFactors == StageText(a) + StageText(b) + StageText(c);
    score, riskFactors := FlagStage(factors.gestationalDiabetes, GestationalDiabetes, score, riskFactors);
    assert score == StageWeight(a) + StageWeight(b) + StageWeight(c) + StageWeight(d);
    assert riskFactors == StageText(a) + StageText(b) + StageText(c) + StageText(d);
    score, riskFactors := FlagStage(factors.highParity, HighParity, score, riskFactors);
    assert score == StageWeight(a) + StageWeight(b) + StageWeight(c) + StageWeight(d) + StageWeight(e);
    assert riskFactors == StageText(a) + StageText(b) + StageText(c) + StageText(d) + StageText(e);
    score, riskFactors := FlagStage(factors.firstPregnancy, FirstPregnancy, score, riskFactors);
    assert score == StageWeight(a) + StageWeight(b) + StageWeight(c) + StageWeight(d) + StageWeight(e)
                    + StageWeight(g);
    assert riskFactors == StageText(a) + StageText(b) + StageText(c) + StageText(d) + StageText(e)
                          + StageText(g);
    score, riskFactors := FlagStage(factors.multiplePregnancy, MultiplePregnancy, score, riskFactors);
    ScoreByStages(factors);
    FactorsByStages(factors);
    assert score == Score(factors) && riskFactors == Factors(factors);

    var level: RiskLevel;
    if score >= 40 {
      level := High;
    } else if score >= 20 {
      level := Moderate;
    } else {
      level := Low;
    }

    result := RiskResult(score, level, riskFactors);
    AssessOfParts(factors, result);
  }

  /** An assessment with the table's score and factors, classified by its
      score, is the specified one. */
  lemma AssessOfParts(f: RiskFactors, r: RiskResult)
    requires r.score == Score(f) && r.factors == Factors(f) && r.level == Classify(r.score)
    ensures r == Assess(f)
  {
  }

  // ------------------------------------------------------------ properties

  /** The risk level of an assessment always follows its score. */
  lemma LevelFollowsScore(f: RiskFactors)
    ensures Assess(f).level == High <==> Assess(f).score >= 40
    ensures Assess(f).level == Moderate <==> 20 <= Assess(f).score < 40
    ensures Assess(f).level == Low <==> Assess(f).score < 20
  {
  }

  /** Points of the age band: 10 when the age is present, non-zero and
      outside 17 to 34. */
  function AgePoints(f: RiskFactors): int
  {
    if Truthy(f.age) && (f.age.value < 17 || f.age.value >= 35) then 10 else 0
  }

  /** Points of the blood-pressure band: 25 severe, 15 moderate, else 0. */
  function BpPoints(f: RiskFactors): int
  {
    if BpRecorded(f) && SevereBp(f) then 25 else if BpRecorded(f) && RaisedBp(f) then 15 else 0
  }

  /** The score is the sum of the weights of the rules that fired: 10 for
      the age band, 25 or 15 for blood pressure, 20, 15, 10, 5 and 15 for
      the five flags. */
  lemma ScoreIsSumOfWeights(f: RiskFactors)
    ensures Score(f)
              == AgePoints(f) + BpPoints(f)
               + (if f.previousComplications then 20 else 0)
               + (if f.gestationalDiabetes then 15 else 0)
               + (if f.highParity then 10 else 0)
               + (if f.firstPregnancy then 5 else 0)
               + (if f.multiplePregnancy then 15 else 0)
  {
    ScoreByStages(f);
    assert StageWeight(AgeBand(f)) == AgePoints(f);
    assert StageWeight(BpBand(f)) == BpPoints(f);
    FlagWeight(f.previousComplications, PreviousComplications);
    FlagWeight(f.gestationalDiabetes, GestationalDiabetes);
    FlagWeight(f.highParity, HighParity);
    FlagWeight(f.firstPregnancy, FirstPregnancy);
    FlagWeight(f.multiplePregnancy, MultiplePregnancy);
  }

  lemma FlagWeight(raised: bool, r: Rule)
    ensures StageWeight(Flag(raised, r)) == if raised then Weight(r) else 0
  {
  }

  /** Score between 0 and 100, at most seven descriptions, and none exactly
      when the score is 0. */
  lemma AssessmentBounds(f: RiskFactors)
    ensures 0 <= Score(f) <= 100
    ensures |Factors(f)| <= 7
    ensures Factors(f) == [] <==> Score(f) == 0
  {
    ScoreIsSumOfWeights(f);
    AtMostSevenFire(f);
    DescriptionsElementwise(FiredRules(f));
    TotalWeightAtLeast(FiredRules(f));
  }

  /** Every rule weighs at least 5. */
  lemma {:induction false} TotalWeightAtLeast(rs: seq<Rule>)
    ensures TotalWeight(rs) >= 5 * |rs|
  {
    if rs != [] {
      TotalWeightAtLeast(rs[..|rs| - 1]);
    }
  }

  /** One rule per band at most, so at most seven fire. */
  lemma AtMostSevenFire(f: RiskFactors)
    ensures |FiredRules(f)| <= 7
  {
    StagesAreFiredRules(f);
  }

  lemma InConcat<T>(x: T, a: seq<T>, b: seq<T>)
    ensures x in a + b <==> x in a || x in b
  {
    if x in a + b {
      var i :| 0 <= i < |a + b| && (a + b)[i] == x;
      if i >= |a| { assert b[i - |a|] == x; }
    }
    if x in b {
      var i :| 0 <= i < |b| && b[i] == x;
      assert (a + b)[|a| + i] == x;
    }
  }

  /** Membership in the fired rules, stage by stage. */
  lemma FiredRuleMembership(f: RiskFactors, r: Rule)
    ensures r in FiredRules(f) <==>
              || r in AgeBand(f) || r in BpBand(f)
              || r in Flag(f.previousComplications, PreviousComplications)
              || r in Flag(f.gestationalDiabetes, GestationalDiabetes)
              || r in Flag(f.highParity, HighParity)
              || r in Flag(f.firstPregnancy, FirstPregnancy)
              || r in Flag(f.multiplePregnancy, MultiplePregnancy)
  {
    var a, b := AgeBand(f), BpBand(f);
    var c := Flag(f.previousComplications, PreviousComplications);
    var d := Flag(f.gestationalDiabetes, GestationalDiabetes);
    var e := Flag(f.highParity, HighParity);
    var g := Flag(f.firstPregnancy, FirstPregnancy);
    var h := Flag(f.multiplePregnancy, MultiplePregnancy);
    StagesAreFiredRules(f);
    InConcat(r, a + b + c + d + e + g, h);
    InConcat(r, a + b + c + d + e, g);
    InConcat(r, a + b + c + d, e);
    InConcat(r, a + b + c, d);
    InConcat(r, a + b, c);
    InConcat(r, a, b);
  }

  /** The age band fires only for a present, non-zero age: the teenage rule
      below 17, the advanced-age rule from 35, never both, and neither from
      17 to 34. */
  lemma AgeRuleFires(f: RiskFactors)
    ensures TeenagePregnancy in FiredRules(f) <==> Truthy(f.age) && f.age.value < 17
    ensures AdvancedMaternalAge in FiredRules(f) <==> Truthy(f.age) && f.age.value >= 35
    ensures !(TeenagePregnancy in FiredRules(f) && AdvancedMaternalAge in FiredRules(f))
  {
    FiredRuleMembership(f, TeenagePregnancy);
    FiredRuleMembership(f, AdvancedMaternalAge);
  }

  /** The blood-pressure band needs both readings present and non-zero; it
      is severe from 160 systolic or 110 diastolic, moderate from 140 or 90
      otherwise, and never both. */
  lemma BpRuleFires(f: RiskFactors)
    ensures SevereHypertension in FiredRules(f) <==>
              BpRecorded(f) && (f.bpSystolic.value >= 160 || f.bpDiastolic.value >= 110)
    ensures ModerateHypertension in FiredRules(f) <==>
              BpRecorded(f) && !(f.bpSystolic.value >= 160 || f.bpDiastolic.value >= 110)
              && (f.bpSystolic.value >= 140 || f.bpDiastolic.value >= 90)
    ensures !(SevereHypertension in FiredRules(f) && ModerateHypertension in FiredRules(f))
  {
    FiredRuleMembership(f, SevereHypertension);
    FiredRuleMembership(f, ModerateHypertension);
  }

  /** `ageRisk` as createAssessment stores it: true exactly when an age rule
      fired. */
  function AgeRisk(f: RiskFactors): (risk: bool)
    ensures risk <==> TeenagePregnancy in FiredRules(f) || AdvancedMaternalAge in FiredRules(f)
  {
    AgeRuleFires(f);
    if Truthy(f.age) then f.age.value < 17 || f.age.value >= 35 else false
  }

  // ------------------------------------------------ order and descriptions

  lemma {:induction false} FiredAmongInOrder(f: RiskFactors, n: nat)
    requires n <= |Rules|
    ensures forall i :: 0 <= i < |FiredAmong(f, n)| ==> Rank(FiredAmong(f, n)[i]) < n
    ensures forall i, j :: 0 <= i < j < |FiredAmong(f, n)| ==>
              Rank(FiredAmong(f, n)[i]) < Rank(FiredAmong(f, n)[j])
  {
    if n > 0 {
      FiredAmongInOrder(f, n - 1);
      var prev := FiredAmong(f, n - 1);
      var now := FiredAmong(f, n);
      assert now == prev + Pick(f, Rules[n - 1]);
      assert Rank(Rules[n - 1]) == n - 1 by {
        assert Rules[Rank(Rules[n - 1])] == Rules[n - 1];
      }
      forall i | 0 <= i < |now|
        ensures Rank(now[i]) < n
      {
        if i < |prev| { assert now[i] == prev[i]; }
      }
    }
  }

  /** The fired rules are listed in evaluation order: age, blood pressure,
      complications, diabetes, parity, first pregnancy, multiple
      pregnancy. */
  lemma FiredInEvaluationOrder(f: RiskFactors)
    ensures forall i, j :: 0 <= i < j < |FiredRules(f)| ==>
              Rank(FiredRules(f)[i]) < Rank(FiredRules(f)[j])
  {
    FiredAmongInOrder(f, |Rules|);
  }

  /** One description per rule, the i-th describing the i-th rule. */
  lemma DescriptionsElementwise(rs: seq<Rule>)
    ensures |Descriptions(rs)| == |rs|
    ensures forall i :: 0 <= i < |rs| ==> Descriptions(rs)[i] == Description(rs[i])
  {
    DescriptionsLength(rs);
    forall i | 0 <= i < |rs|
      ensures Descriptions(rs)[i] == Description(rs[i])
    {
      DescriptionAt(rs, i);
    }
  }

  lemma {:induction false} DescriptionsLength(rs: seq<Rule>)
    ensures |Descriptions(rs)| == |rs|
  {
    if rs != [] {
      DescriptionsLength(rs[..|rs| - 1]);
    }
  }

  lemma {:induction false} DescriptionAt(rs: seq<Rule>, i: nat)
    requires i < |rs|
    ensures i < |Descriptions(rs)| && Descriptions(rs)[i] == Description(rs[i])
  {
    var init := rs[..|rs| - 1];
    DescriptionsLength(init);
    if i < |init| {
      DescriptionAt(init, i);
      assert rs[i] == init[i];
    }
  }

  /** The i-th description names the i-th fired rule, so the factor list is
      ordered as the rules are. */
  lemma FactorsDescribeFiredRules(f: RiskFactors)
    ensures |Factors(f)| == |FiredRules(f)|
    ensures forall i :: 0 <= i < |FiredRules(f)| ==> Factors(f)[i] == Description(FiredRules(f)[i])
    ensures forall r :: Description(r) in Factors(f) <==> r in FiredRules(f)
  {
    var fired := FiredRules(f);
    DescriptionsElementwise(fired);
    forall r
      ensures Description(r) in Factors(f) <==> r in fired
    {
      if Description(r) in Factors(f) {
        var i :| 0 <= i < |fired| && Factors(f)[i] == Description(r);
        DescriptionInjective(fired[i], r);
      }
      if r in fired {
        var i :| 0 <= i < |fired| && fired[i] == r;
        assert Factors(f)[i] == Description(r);
      }
    }
  }

  lemma {:induction false} WeightsReadFromDescriptions(rs: seq<Rule>)
    ensures SumDescribedWeights(Descriptions(rs)) == TotalWeight(rs)
  {
    if rs != [] {
      var init, last := rs[..|rs| - 1], rs[|rs| - 1];
      WeightsReadFromDescriptions(init);
      assert Descriptions(rs)[..|Descriptions(rs)| - 1] == Descriptions(init);
      assert Rules[Rank(last)] == last;
      RuleNamedFinds(last, Rules);
    }
  }

  /** Each description in the list stands for exactly one weight: adding up
      the weights the descriptions name gives the score back. */
  lemma ScoreReadFromFactors(f: RiskFactors)
    ensures SumDescribedWeights(Factors(f)) == Score(f)
  {
    WeightsReadFromDescriptions(FiredRules(f));
  }

  // ------------------------------------------------------------ monotonicity

  /** The five boolean risk flags. */
  datatype Condition = Complications | Diabetes | Parity | First | Multiple

  predicate Raised(f: RiskFactors, c: Condition)
  {
    match c
    case Complications => f.previousComplications
    case Diabetes => f.gestationalDiabetes
    case Parity => f.highParity
    case First => f.firstPregnancy
    case Multiple => f.multiplePregnancy
  }

  /** Raising a condition sets its flag and leaves every other flag and
      every reading as it was. */
  function Raise(f: RiskFactors, c: Condition): (g: RiskFactors)
    ensures Raised(g, c)
    ensures forall d :: d != c ==> Raised(g, d) == Raised(f, d)
    ensures g.userId == f.userId && g.age == f.age
    ensures g.bpSystolic == f.bpSystolic && g.bpDiastolic == f.bpDiastolic
  {
    match c
    case Complications => f.(previousComplications := true)
    case Diabetes => f.(gestationalDiabetes := true)
    case Parity => f.(highParity := true)
    case First => f.(firstPregnancy := true)
    case Multiple => f.(multiplePregnancy := true)
  }

  function ConditionRule(c: Condition): Rule
  {
    match c
    case Complications => PreviousComplications
    case Diabetes => GestationalDiabetes
    case Parity => HighParity
    case First => FirstPregnancy
    case Multiple => MultiplePregnancy
  }

  function Severity(level: RiskLevel): nat
  {
    match level
    case Low => 0
    case Moderate => 1
    case High => 2
  }

  lemma ClassifyMonotone(x: int, y: int)
    requires x <= y
    ensures Severity(Classify(x)) <= Severity(Classify(y))
  {
  }

  lemma RaiseAddsWeight(f: RiskFactors, c: Condition)
    requires !Raised(f, c)
    ensures Score(Raise(f, c)) == Score(f) + Weight(ConditionRule(c))
  {
    ScoreIsSumOfWeights(f);
    ScoreIsSumOfWeights(Raise(f, c));
  }

  /** Switching a flag from false to true adds exactly its weight to the
      score and never lowers the level. */
  lemma RaisingAFlagNeverLowersRisk(f: RiskFactors, c: Condition)
    requires !Raised(f, c)
    ensures Score(Raise(f, c)) == Score(f) + Weight(ConditionRule(c))
    ensures Severity(Assess(f).level) <= Severity(Assess(Raise(f, c)).level)
  {
    RaiseAddsWeight(f, c);
    ClassifyMonotone(Score(f), Score(Raise(f, c)));
  }

  // --------------------------------------------------------------- examples

  /** Age 28 with blood pressure 145/92 in a first pregnancy: exactly 20,
      moderate. */
  lemma ExampleModerateAtThreshold(f: RiskFactors)
    requires f.age == Some(28) && f.bpSystolic == Some(145) && f.bpDiastolic == Some(92)
    requires f.firstPregnancy
    requires !f.previousComplications && !f.gestationalDiabetes && !f.highParity && !f.multiplePregnancy
    ensures Assess(f) == RiskResult(20, Moderate,
                                    [Description(ModerateHypertension), Description(FirstPregnancy)])
  {
    assert AgeBand(f) == [] && BpBand(f) == [ModerateHypertension];
    ScoreByStages(f);
    FactorsByStages(f);
    AssessOfParts(f, RiskResult(20, Moderate, [Description(ModerateHypertension), Description(FirstPregnancy)]));
  }

  /** A sixteen-year-old with nothing else recorded: 10, low. */
  lemma ExampleTeenager(f: RiskFactors)
    requires f.age == Some(16) && f.bpSystolic == None && f.bpDiastolic == None
    requires !f.previousComplications && !f.gestationalDiabetes && !f.highParity
    requires !f.firstPregnancy && !f.multiplePregnancy
    ensures Assess(f) == RiskResult(10, Low, [Description(TeenagePregnancy)])
  {
    assert AgeBand(f) == [TeenagePregnancy] && BpBand(f) == [];
    ScoreByStages(f);
    FactorsByStages(f);
    AssessOfParts(f, RiskResult(10, Low, [Description(TeenagePregnancy)]));
  }

  /** Age 36, blood pressure 165/100 and earlier complications: 55, high. */
  lemma ExampleHighRisk(f: RiskFactors)
    requires f.age == Some(36) && f.bpSystolic == Some(165) && f.bpDiastolic == Some(100)
    requires f.previousComplications
    requires !f.gestationalDiabetes && !f.highParity && !f.firstPregnancy && !f.multiplePregnancy
    ensures Assess(f) == RiskResult(55, High,
                                    [Description(AdvancedMaternalAge), Description(SevereHypertension),
                                     Description(PreviousComplications)])
  {
    assert AgeBand(f) == [AdvancedMaternalAge] && BpBand(f) == [SevereHypertension];
    ScoreByStages(f);
    FactorsByStages(f);
    AssessOfParts(f, RiskResult(55, High, [Description(AdvancedMaternalAge), Description(SevereHypertension),
                                           Description(PreviousComplications)]));
  }
}
