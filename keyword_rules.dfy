/**
 * The keyword routing both chat assistants use: an ordered table of rules,
 * each a set of keywords to look for in the lower-cased message, where the
 * first rule that fires gives the reply.
 */
module KeywordRules {
  import opened Wrappers
  import opened JsText

  /** Fires when some keyword occurs (`a || b`) or when all of them do (`a && b`). */
  datatype Condition = AnyOf(words: seq<string>) | AllOf(words: seq<string>)

  datatype Rule<R> = Rule(when: Condition, reply: R)

  predicate Holds(c: Condition, text: string) {
    match c
    case AnyOf(words) => exists k :: 0 <= k < |words| && Includes(text, words[k])
    case AllOf(words) => forall k :: 0 <= k < |words| ==> Includes(text, words[k])
  }

  /** A two-keyword `||` condition. */
  lemma AnyOfTwo(a: string, b: string, text: string)
    ensures Holds(AnyOf([a, b]), text) <==> Includes(text, a) || Includes(text, b)
  {
    var words := [a, b];
    assert words[0] == a && words[1] == b;
  }

  /** A two-keyword `&&` condition. */
  lemma AllOfTwo(a: string, b: string, text: string)
    ensures Holds(AllOf([a, b]), text) <==> Includes(text, a) && Includes(text, b)
  {
    var words := [a, b];
    assert words[0] == a && words[1] == b;
  }

  /** The position of the first rule that fires, if any. */
  function FirstMatch<R>(rules: seq<Rule<R>>, text: string): (r: Option<nat>)
    ensures r.Some? ==> r.value < |rules| && Holds(rules[r.value].when, text)
    ensures r.Some? ==> forall k :: 0 <= k < r.value ==> !Holds(rules[k].when, text)
    ensures r.None? ==> forall k :: 0 <= k < |rules| ==> !Holds(rules[k].when, text)
  {
    if |rules| == 0 then None
    else if Holds(rules[0].when, text) then Some(0)
    else
      match FirstMatch(rules[1..], text)
      case None => None
      case Some(i) => Some(i + 1)
  }

  /** The reply of the first rule that fires, or the fallback. */
  function Respond<R>(rules: seq<Rule<R>>, text: string, fallback: R): R {
    match FirstMatch(rules, text)
    case Some(i) => rules[i].reply
    case None => fallback
  }

  /** A rule that fires decides the reply exactly when no earlier rule fires. */
  lemma RespondEarliest<R>(rules: seq<Rule<R>>, text: string, fallback: R, i: nat)
    requires i < |rules| && Holds(rules[i].when, text)
    requires forall k :: 0 <= k < i ==> !Holds(rules[k].when, text)
    ensures Respond(rules, text, fallback) == rules[i].reply
  {
  }

  /** With no rule firing, the fallback is the reply. */
  lemma RespondFallback<R>(rules: seq<Rule<R>>, text: string, fallback: R)
    requires forall k :: 0 <= k < |rules| ==> !Holds(rules[k].when, text)
    ensures Respond(rules, text, fallback) == fallback
  {
  }

  /** Rules placed before a table only take over messages they fire on. */
  lemma RespondPrefix<R>(front: seq<Rule<R>>, back: seq<Rule<R>>, text: string, fallback: R)
    requires forall k :: 0 <= k < |front| ==> !Holds(front[k].when, text)
    ensures Respond(front + back, text, fallback) == Respond(back, text, fallback)
  {
    var all := front + back;
    match FirstMatch(back, text)
    case Some(i) =>
      assert all[|front| + i] == back[i];
      forall k | 0 <= k < |front| + i ensures !Holds(all[k].when, text) {
        if k < |front| {
          assert all[k] == front[k];
        } else {
          assert all[k] == back[k - |front|];
        }
      }
      RespondEarliest(all, text, fallback, |front| + i);
    case None =>
      forall k | 0 <= k < |all| ensures !Holds(all[k].when, text) {
        if k < |front| {
          assert all[k] == front[k];
        } else {
          assert all[k] == back[k - |front|];
        }
      }
      RespondFallback(all, text, fallback);
  }

  /** A message missing a character of a keyword does not contain that keyword. */
  lemma MissingChar(text: string, word: string, c: char)
    requires c in word && c !in text
    ensures !Includes(text, word)
  {
    if Includes(text, word) {
      IncludedCharsOccur(text, word, c);
    }
  }
}
