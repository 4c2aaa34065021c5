/** The table of risk rules: their evaluation order, weights and the
    descriptions reported for them. */
module RiskRules {
  import opened Wrappers

  datatype Rule =
    | TeenagePregnancy | AdvancedMaternalAge
    | SevereHypertension | ModerateHypertension
    | PreviousComplications | GestationalDiabetes | HighParity
    | FirstPregnancy | MultiplePregnancy

  /** The rules in the order they are evaluated. */
  const Rules: seq<Rule> := [TeenagePregnancy, AdvancedMaternalAge,
                             SevereHypertension, ModerateHypertension,
                             PreviousComplications, GestationalDiabetes, HighParity,
                             FirstPregnancy, MultiplePregnancy]

  /** Position of a rule in `Rules`. */
  function Rank(r: Rule): (k: nat)
    ensures k < |Rules| && Rules[k] == r
  {
    match r
    case TeenagePregnancy => 0
    case AdvancedMaternalAge => 1
    case SevereHypertension => 2
    case ModerateHypertension => 3
    case PreviousComplications => 4
    case GestationalDiabetes => 5
    case HighParity => 6
    case FirstPregnancy => 7
    case MultiplePregnancy => 8
  }

  function Weight(r: Rule): nat
  {
    match r
    case TeenagePregnancy => 10
    case AdvancedMaternalAge => 10
    case SevereHypertension => 25
    case ModerateHypertension => 15
    case PreviousComplications => 20
    case GestationalDiabetes => 15
    case HighParity => 10
    case FirstPregnancy => 5
    case MultiplePregnancy => 15
  }

  /** The description reported for each rule, in evaluation order. */
  const RuleTexts: seq<string> :=
    ["Teenage pregnancy (<17 years)",
     "Advanced maternal age (≥35 years)",
     "Severe hypertension (BP ≥160/110)",
     "Moderate hypertension (BP 140-159/90-109)",
     "History of pregnancy complications",
     "Gestational diabetes",
     "High parity (≥6 pregnancies)",
     "First pregnancy (primigravida)",
     "Multiple pregnancy (twins/triplets)"]

  function Description(r: Rule): string
  {
    RuleTexts[Rank(r)]
  }

  /** Distinct rules have distinct descriptions. */
  lemma DescriptionInjective(r1: Rule, r2: Rule)
    requires Description(r1) == Description(r2)
    ensures r1 == r2
  {
  }

  /** The rule a description names, looked up among `rs`. */
  function RuleNamed(s: string, rs: seq<Rule>): Option<Rule>
  {
    if rs == [] then None
    else if Description(rs[0]) == s then Some(rs[0])
    else RuleNamed(s, rs[1..])
  }

  /** Weight of the rule a description string names. */
  function DescribedWeight(s: string): int
  {
    match RuleNamed(s, Rules)
    case Some(r) => Weight(r)
    case None => 0
  }

  /** The weights named by a list of descriptions, added up. */
  function SumDescribedWeights(ds: seq<string>): int
  {
    if ds == [] then 0 else SumDescribedWeights(ds[..|ds| - 1]) + DescribedWeight(ds[|ds| - 1])
  }

  lemma {:induction false} RuleNamedFinds(r: Rule, rs: seq<Rule>)
    requires r in rs
    ensures RuleNamed(Description(r), rs) == Some(r)
  {
    if Description(rs[0]) == Description(r) {
      DescriptionInjective(rs[0], r);
    } else {
      assert rs[0] != r;
      RuleNamedFinds(r, rs[1..]);
    }
  }
}
