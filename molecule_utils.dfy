/**
 * The molecule helpers: a shallow SMILES syntax check, the mock molecular
 * weight, and the Lipinski Rule-of-Five counter.
 */
module MoleculeUtils {
  import opened JsText
  import opened JsNumber
  import opened SeqUtil

  /** The characters of the class `[A-Za-z0-9@\-=#()[\]\\\/+.%]`. */
  predicate IsSmilesChar(c: char) {
    IsUpperAscii(c) || IsLowerAscii(c) || IsDigit(c) || c in "@-=#()[]\\/+.%"
  }

  /** How one character moves the parenthesis depth. */
  function DepthChange(c: char): int {
    if c == '(' then 1 else if c == ')' then -1 else 0
  }

  /** Parenthesis depth after reading `p`: opening minus closing round brackets. */
  function Depth(p: string): int
    decreases |p|
  {
    if |p| == 0 then 0 else Depth(p[..|p| - 1]) + DepthChange(p[|p| - 1])
  }

  /** Reading one more character moves the depth by one at a round bracket. */
  lemma DepthStep(s: string, i: nat)
    requires i < |s|
    ensures Depth(s[..i + 1]) == Depth(s[..i]) + DepthChange(s[i])
  {
    assert s[..i + 1][..i] == s[..i];
  }

  /** The depth is the number of opening minus the number of closing brackets. */
  lemma {:induction false} DepthCounts(p: string)
    ensures Depth(p) == multiset(p)['('] as int - multiset(p)[')'] as int
    decreases |p|
  {
    if |p| > 0 {
      var q := p[..|p| - 1];
      DepthCounts(q);
      assert p == q + [p[|p| - 1]];
    }
  }

  /** What the validator accepts: not blank, no prefix closes more round brackets
      than it opens, as many closing as opening ones overall, only characters of
      the allowed class, and at least one upper-case letter (an atom). Square
      brackets are not paired. */
  ghost predicate SmilesValid(s: string) {
    && !IsBlank(s)
    && NeverClosesUnopened(s)
    && Depth(s) == 0
    && OnlySmilesChars(s)
    && HasAtom(s)
  }

  /** No prefix closes more round brackets than it opens. */
  ghost predicate NeverClosesUnopened(s: string) {
    PrefixesOpen(s, |s|)
  }

  /** None of the first `n + 1` prefixes closes more round brackets than it opens. */
  ghost predicate PrefixesOpen(s: string, n: nat)
    requires n <= |s|
  {
    forall k :: 0 <= k <= n ==> Depth(s[..k]) >= 0
  }

  /** `/^[A-Za-z0-9@\-=#()[\]\\\/+.%]*$/.test(s)` */
  predicate OnlySmilesChars(s: string) {
    forall i :: 0 <= i < |s| ==> IsSmilesChar(s[i])
  }

  /** `/[A-Z][a-z]?/.test(s)`: some upper-case letter occurs. */
  predicate HasAtom(s: string) {
    exists i :: 0 <= i < |s| && IsUpperAscii(s[i])
  }

  /** `validateSMILES`: the checks in source order, each rejecting at once. */
  method ValidateSmiles(smiles: string) returns (ok: bool)
    ensures ok <==> SmilesValid(smiles)
  {
    if |smiles| == 0 || |Trim(smiles)| == 0 {
      BlankRejected(smiles);
      return false;
    }
    var openCount := 0;
    for i := 0 to |smiles|
      invariant openCount == Depth(smiles[..i])
      invariant PrefixesOpen(smiles, i)
    {
      DepthStep(smiles, i);
      if smiles[i] == '(' {
        openCount := openCount + 1;
      }
      if smiles[i] == ')' {
        openCount := openCount - 1;
      }
      PrefixesOpenStep(smiles, i);
      if openCount < 0 {
        NegativeDepthRejected(smiles, i + 1);
        return false;
      }
    }
    RemainingChecks(smiles);
    if openCount != 0 {
      return false;
    }
    if !OnlySmilesChars(smiles) {
      return false;
    }
    if !HasAtom(smiles) {
      return false;
    }
    return true;
  }

  lemma PrefixesOpenStep(s: string, i: nat)
    requires i < |s| && PrefixesOpen(s, i)
    ensures PrefixesOpen(s, i + 1) <==> Depth(s[..i + 1]) >= 0
  {
  }

  /** The empty and the all-whitespace string fail the first check. */
  lemma BlankRejected(s: string)
    requires |s| == 0 || |Trim(s)| == 0
    ensures !SmilesValid(s)
  {
    TrimEmptyIffBlank(s);
  }

  /** A prefix that closes more round brackets than it opens rejects the whole string. */
  lemma NegativeDepthRejected(s: string, k: nat)
    requires k <= |s| && Depth(s[..k]) < 0
    ensures !SmilesValid(s)
  {
  }

  /** Once the string is known not to be blank and its prefixes never close an unopened
      bracket, validity comes down to the last three checks. */
  lemma RemainingChecks(s: string)
    requires |s| > 0 && |Trim(s)| > 0
    requires PrefixesOpen(s, |s|)
    ensures SmilesValid(s) <==> Depth(s[..|s|]) == 0 && OnlySmilesChars(s) && HasAtom(s)
  {
    TrimEmptyIffBlank(s);
    assert s[..|s|] == s;
  }

  /** Square brackets are not paired: an opening one alone passes. */
  lemma UnpairedSquareBracketAccepted()
    ensures SmilesValid("C[")
  {
    var s := "C[";
    assert IsUpperAscii(s[0]) && !IsWhitespace(s[0]);
    forall k | 0 <= k <= |s| ensures Depth(s[..k]) >= 0 {
      if k == 0 {
        assert s[..k] == [];
      } else if k == 1 {
        assert s[..k] == ['C'];
      } else {
        assert s[..k] == s;
      }
    }
  }

  /** A space is not an allowed character, so no SMILES with a space passes. */
  lemma SpaceRejected(s: string, i: nat)
    requires i < |s| && s[i] == ' '
    ensures !SmilesValid(s)
  {
    assert !IsSmilesChar(s[i]);
  }

  /** A string in which closing brackets run ahead of opening ones at some point
      is rejected, even when the totals agree. */
  lemma {:induction false} ClosingFirstRejected(s: string)
    requires |s| > 0 && s[0] == ')'
    ensures !SmilesValid(s)
  {
    assert s[..1] == [')'];
    assert s[..1][..0] == [];
    assert Depth(s[..1]) == -1;
  }

  /** `calculateMolecularWeight`: ten per character of the string. */
  function CalculateMolecularWeight(smiles: string): int {
    |smiles| * 10
  }

  /** The mock weight adds up over concatenation and stays within the Rule-of-Five
      limit of 500 exactly for strings of at most fifty characters. */
  lemma MolecularWeightLimit(a: string, b: string)
    ensures CalculateMolecularWeight(a + b) == CalculateMolecularWeight(a) + CalculateMolecularWeight(b)
    ensures AtMost(Finite(CalculateMolecularWeight(a) as real), 500.0) <==> |a| <= 50
  {
  }

  /** The four properties the Rule of Five looks at. */
  datatype LipinskiProperties = LipinskiProperties(
    molecularWeight: Number, logP: Number, hBondDonors: Number, hBondAcceptors: Number)

  datatype LipinskiReport = LipinskiReport(passes: bool, violations: nat, details: seq<bool>)

  /** The thresholds of the Rule of Five, in source order. */
  function LipinskiRules(p: LipinskiProperties): seq<bool> {
    [ AtMost(p.molecularWeight, 500.0), AtMost(p.logP, 5.0),
      AtMost(p.hBondDonors, 5.0), AtMost(p.hBondAcceptors, 10.0) ]
  }

  function Failed(rule: bool): bool { !rule }

  function Indicator(b: bool): nat { if b then 1 else 0 }

  /** `checkLipinskiRules`: `details` lists whether molecular weight is at most 500,
      logP at most 5, donors at most 5 and acceptors at most 10; `violations`
      counts the failed ones; the molecule passes with at most one violation. */
  function CheckLipinskiRules(p: LipinskiProperties): (r: LipinskiReport)
    ensures |r.details| == 4
    ensures r.details[0] <==> AtMost(p.molecularWeight, 500.0)
    ensures r.details[1] <==> AtMost(p.logP, 5.0)
    ensures r.details[2] <==> AtMost(p.hBondDonors, 5.0)
    ensures r.details[3] <==> AtMost(p.hBondAcceptors, 10.0)
    ensures r.violations == Indicator(!r.details[0]) + Indicator(!r.details[1])
                          + Indicator(!r.details[2]) + Indicator(!r.details[3])
    ensures r.violations <= 4
    ensures r.passes <==> r.violations <= 1
  {
    var rules := LipinskiRules(p);
    CountFailedRules(rules);
    var violations := |Filter(rules, Failed)|;
    LipinskiReport(violations <= 1, violations, rules)
  }

  /** `rules.filter(rule => !rule).length` on a list of four rules. */
  lemma CountFailedRules(rules: seq<bool>)
    requires |rules| == 4
    ensures |Filter(rules, Failed)| == Indicator(!rules[0]) + Indicator(!rules[1])
                                      + Indicator(!rules[2]) + Indicator(!rules[3])
  {
    var r3, r2, r1 := rules[..3], rules[..2], rules[..1];
    assert r3[..2] == r2 && r2[..1] == r1 && r1[..0] == [];
    FilterLast(rules, Failed);
    FilterLast(r3, Failed);
    FilterLast(r2, Failed);
    FilterLast(r1, Failed);
  }

  /** Passing is the same as no two of the four rules failing together. */
  lemma LipinskiPassesIffNoTwoFail(p: LipinskiProperties)
    ensures CheckLipinskiRules(p).passes <==>
      forall i, j :: 0 <= i < j < 4 ==> CheckLipinskiRules(p).details[i] || CheckLipinskiRules(p).details[j]
  {
    var r := CheckLipinskiRules(p);
    var d := r.details;
    if !(forall i, j :: 0 <= i < j < 4 ==> d[i] || d[j]) {
      var i, j :| 0 <= i < j < 4 && !d[i] && !d[j];
      assert Indicator(!d[i]) + Indicator(!d[j]) == 2;
      assert r.violations >= 2;
    } else {
      assert r.violations <= 1;
    }
  }
}
