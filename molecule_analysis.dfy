/**
 * The molecule analysis page: the mock descriptors computed from the submitted
 * SMILES, the drug-likeness score and label, the Rule-of-Five flags, the
 * binding class of the mock score, and the loading / result / error state
 * around one analysis.
 */
module MoleculeAnalysis {
  import opened Wrappers
  import opened JsText
  import opened JsNumber
  import opened SeqUtil
  import opened MoleculeUtils
  import opened BindingClass
  import opened MoleculeInputForm

  /** The `generate` result. */
  datatype GenerateResult = GenerateResult(smiles: string, molecularWeight: nat)

  /** The `lipinski` result; `violations` is a random draw in the source. */
  datatype LipinskiResult = LipinskiResult(
    molecularWeight: nat, logP: Number, hBondDonors: nat, hBondAcceptors: nat,
    rotatableBonds: nat, violations: nat)

  datatype AnalysisResults = AnalysisResults(
    generate: GenerateResult, lipinski: LipinskiResult, bindingScore: real)

  datatype Tab = GenerateTab | LipinskiTab | BindingTab | AdmetTab | AgentTab

  /** `(s.match(/[A-Z]/g) || []).length`. */
  function UpperCount(s: string): (n: nat)
    ensures n <= |s|
  {
    |Filter(s, IsUpperAscii)|
  }

  /** `uppercase / length * 10`; `0 / 0` is NaN for the empty string. */
  function LogP(s: string): Number {
    if |s| == 0 then NaN else Finite(UpperCount(s) as real / |s| as real * 10.0)
  }

  /** The descriptors of the `lipinski` result for a drawn violation count. */
  function Descriptors(s: string, violations: nat): LipinskiResult {
    LipinskiResult(
      |s| * 10, LogP(s),
      multiset(s)['O'] + multiset(s)['N'],
      multiset(s)['o'] + multiset(s)['n'],
      multiset(s)['-'],
      violations)
  }

  /** `-1 * (5 + random * 5)`. */
  function BindingScore(draw: real): real {
    -1.0 * (5.0 + draw * 5.0)
  }

  /** The whole mock result. */
  function MockResults(smiles: string, violations: nat, bindingDraw: real): AnalysisResults {
    AnalysisResults(
      GenerateResult(smiles, |smiles| * 10),
      Descriptors(smiles, violations),
      BindingScore(bindingDraw))
  }

  /** Both molecular weights are the utility's mock weight, ten per character. */
  lemma MockWeights(smiles: string, violations: nat, bindingDraw: real)
    ensures var r := MockResults(smiles, violations, bindingDraw);
      r.generate.molecularWeight == r.lipinski.molecularWeight == CalculateMolecularWeight(smiles)
  {
  }

  /** logP is NaN for the empty SMILES and otherwise ten times the share of upper-case
      letters, between 0 and 10. */
  lemma LogPRange(s: string)
    ensures |s| == 0 <==> LogP(s) == NaN
    ensures |s| > 0 ==> LogP(s).Finite? && 0.0 <= LogP(s).v <= 10.0
    ensures |s| > 0 ==> (LogP(s).v == 10.0 <==> UpperCount(s) == |s|)
  {
    if |s| > 0 {
      ShareBounds(UpperCount(s) as real, |s| as real);
    }
  }

  /** A share `u / n` of a positive whole lies between 0 and 1, and is 1 only for all of it. */
  lemma ShareBounds(u: real, n: real)
    requires 0.0 <= u <= n && n > 0.0
    ensures 0.0 <= u / n <= 1.0
    ensures u / n == 1.0 <==> u == n
  {
    var q := u / n;
    assert q * n == u;
    ProductSign(q - 1.0, n);
    ProductSign(q, n);
  }

  /** Multiplying by a positive number keeps the sign. */
  lemma ProductSign(a: real, n: real)
    requires n > 0.0
    ensures a * n > 0.0 <==> a > 0.0
    ensures a * n < 0.0 <==> a < 0.0
  {
  }

  /** The pass flags of the four rule rows. */
  function RuleFlags(l: LipinskiResult): seq<bool> {
    [ l.molecularWeight <= 500, AtMost(l.logP, 5.0), l.hBondDonors <= 5, l.hBondAcceptors <= 10 ]
  }

  /** The page's rule rows are exactly the utility's Rule-of-Five details. */
  lemma RuleFlagsAgree(smiles: string, violations: nat)
    ensures var l := Descriptors(smiles, violations);
      RuleFlags(l) == CheckLipinskiRules(LipinskiProperties(
        Finite(l.molecularWeight as real), l.logP,
        Finite(l.hBondDonors as real), Finite(l.hBondAcceptors as real))).details
  {
  }

  /** More than fifty characters fail the molecular-weight row. */
  lemma LongSmilesFailsWeight(smiles: string, violations: nat)
    ensures RuleFlags(Descriptors(smiles, violations))[0] <==> |smiles| <= 50
  {
  }

  datatype Label = Excellent | Good | Poor

  /** The score circle shows `5 - violations`. */
  function DrugLikenessScore(violations: nat): int {
    5 - violations
  }

  /** The label under the score circle. */
  function DrugLikenessLabel(violations: nat): (l: Label)
    ensures l == Excellent <==> violations == 0
    ensures l == Good <==> violations == 1
    ensures l == Poor <==> violations >= 2
  {
    if violations == 0 then Excellent else if violations == 1 then Good else Poor
  }

  /** The label text. */
  function LabelText(l: Label): string {
    match l
    case Excellent => "Excellent drug-likeness"
    case Good => "Good drug-likeness"
    case Poor => "Poor drug-likeness"
  }

  /** For a drawn count below 3, the score is 5, 4 or 3 and a higher score never
      comes with a worse label. */
  lemma DrugLikenessRange(a: nat, b: nat)
    requires a <= b < 3
    ensures 3 <= DrugLikenessScore(b) <= DrugLikenessScore(a) <= 5
    ensures DrugLikenessLabel(a) == Poor ==> DrugLikenessLabel(b) == Poor
    ensures DrugLikenessLabel(b) == Excellent ==> DrugLikenessLabel(a) == Excellent
  {
  }

  /** The label follows the drawn count, not the rule rows: a SMILES of more than fifty
      characters fails the weight row yet is labelled excellent when the draw is 0. */
  lemma LabelIgnoresRuleRows(smiles: string)
    requires |smiles| > 50
    ensures !RuleFlags(Descriptors(smiles, 0))[0]
    ensures DrugLikenessLabel(Descriptors(smiles, 0).violations) == Excellent
  {
  }

  /** The analysis page's binding interpretation. */
  function BindingInterpretation(c: Strength): string {
    match c
    case Strong => "Strong binding affinity (< -8 kcal/mol)"
    case Moderate => "Moderate binding affinity (-6 to -8 kcal/mol)"
    case Weak => "Weak binding affinity (> -6 kcal/mol)"
  }

  /** A draw in [0, 1) gives a score in (-10, -5], strong above 0.6 and weak up to 0.2. */
  lemma BindingScoreClass(draw: real)
    requires 0.0 <= draw < 1.0
    ensures -10.0 < BindingScore(draw) <= -5.0
    ensures Classify(BindingScore(draw)) == Strong <==> draw > 0.6
    ensures Classify(BindingScore(draw)) == Weak <==> draw <= 0.2
  {
  }

  const FailureMessage: string := "Failed to analyze molecule. Please try again."

  class AnalysisPage {
    var isLoading: bool
    var results: Option<AnalysisResults>
    var activeTab: Tab
    var error: Option<string>

    constructor()
      ensures !isLoading && results.None? && activeTab == GenerateTab && error.None?
    {
      isLoading := false;
      results := None;
      activeTab := GenerateTab;
      error := None;
    }

    /** The start of `handleAnalyze`: loading, with the old error and results cleared. */
    method BeginAnalyze()
      modifies this
      ensures isLoading && error.None? && results.None? && activeTab == old(activeTab)
    {
      isLoading := true;
      error := None;
      results := None;
    }

    /** The end of `handleAnalyze` after the delay: the mock results on the generate
        tab, with the drawn violation count and binding draw. */
    method CompleteAnalyze(data: Submission, violations: nat, bindingDraw: real)
      requires violations < 3 && 0.0 <= bindingDraw < 1.0
      modifies this
      ensures results == Some(MockResults(data.smiles, violations, bindingDraw))
      ensures activeTab == GenerateTab && !isLoading && error == old(error)
    {
      var smiles := data.smiles;
      var upper := |Filter(smiles, IsUpperAscii)|;
      var logP := if |smiles| == 0 then NaN else Finite(upper as real / |smiles| as real * 10.0);
      var lipinski := LipinskiResult(
        |smiles| * 10, logP,
        multiset(smiles)['O'] + multiset(smiles)['N'],
        multiset(smiles)['o'] + multiset(smiles)['n'],
        multiset(smiles)['-'],
        violations);
      results := Some(AnalysisResults(
        GenerateResult(smiles, |smiles| * 10), lipinski, -1.0 * (5.0 + bindingDraw * 5.0)));
      activeTab := GenerateTab;
      isLoading := false;
    }

    /** The `catch` and `finally` of `handleAnalyze`. */
    method FailAnalyze()
      modifies this
      ensures error == Some(FailureMessage) && !isLoading
      ensures results == old(results) && activeTab == old(activeTab)
    {
      error := Some(FailureMessage);
      isLoading := false;
    }
  }
}
