/**
 * The three binding-strength classes both the docking workbench and the
 * analysis page put on a binding score in kcal/mol (more negative binds
 * more strongly).
 */
module BindingClass {

  datatype Strength = Strong | Moderate | Weak

  /** Below -8 strong, otherwise below -6 moderate, otherwise weak. */
  function Classify(score: real): (c: Strength)
    ensures c == Strong <==> score < -8.0
    ensures c == Moderate <==> -8.0 <= score < -6.0
    ensures c == Weak <==> -6.0 <= score
  {
    if score < -8.0 then Strong else if score < -6.0 then Moderate else Weak
  }

  function Rank(c: Strength): nat {
    match c
    case Strong => 0
    case Moderate => 1
    case Weak => 2
  }

  /** A lower (stronger) score never gets a weaker class. */
  lemma ClassifyMonotone(a: real, b: real)
    requires a <= b
    ensures Rank(Classify(a)) <= Rank(Classify(b))
  {
  }

  /** The CSS class of the score display. */
  function ScoreClass(c: Strength): string {
    match c
    case Strong => "good-score"
    case Moderate => "medium-score"
    case Weak => "poor-score"
  }
}
