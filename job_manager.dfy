/**
 * The job list's two formatting helpers: the elapsed-time text of a job and
 * the title shown on its card.
 */
module JobManager {
  import opened Wrappers
  import opened JsText
  import opened ComputationContext

  /** `formatDuration` on the elapsed milliseconds `end.getTime() - start.getTime()`.
      Dafny's `/` and `%` agree with `Math.floor` and `%` here: the divisor is
      positive and the remainders are taken of non-negative numbers. */
  function FormatDuration(durationMs: int): string {
    var seconds := durationMs / 1000;
    if seconds < 60 then IntToString(seconds) + "s"
    else
      var minutes := seconds / 60;
      if minutes < 60 then IntToString(minutes) + "m " + IntToString(seconds % 60) + "s"
      else
        var hours := minutes / 60;
        IntToString(hours) + "h " + IntToString(minutes % 60) + "m"
  }

  /** The number in front of the unit letter `unit`, when `piece` is digits then `unit`. */
  function ReadAmount(piece: string, unit: char): Option<nat> {
    if |piece| >= 2 && piece[|piece| - 1] == unit && AllDigits(piece[..|piece| - 1])
    then Some(DigitsValue(piece[..|piece| - 1]))
    else None
  }

  /** The number of seconds a duration text stands for: `Ns`, `Nm Ns` or `Nh Nm`. */
  function ReadDuration(text: string): Option<nat> {
    var pieces := Split(text, ' ');
    if |pieces| == 1 then
      ReadAmount(pieces[0], 's')
    else if |pieces| == 2 then ReadTwoPieces(pieces[0], pieces[1])
    else None
  }

  /** `Nm Ns` or `Nh Nm`, in seconds. */
  function ReadTwoPieces(first: string, second: string): Option<nat> {
    var minutes, seconds := ReadAmount(first, 'm'), ReadAmount(second, 's');
    if minutes.Some? && seconds.Some? then Some(60 * minutes.value + seconds.value)
    else
      var hours, minutes' := ReadAmount(first, 'h'), ReadAmount(second, 'm');
      if hours.Some? && minutes'.Some? then Some(3600 * hours.value + 60 * minutes'.value)
      else None
  }

  lemma ReadAmountOfNat(n: nat, unit: char)
    requires !IsDigit(unit)
    ensures ReadAmount(NatToString(n) + [unit], unit) == Some(n)
  {
    var p := NatToString(n) + [unit];
    assert p[..|p| - 1] == NatToString(n);
    NatToStringRoundTrip(n);
  }

  lemma ReadAmountRejects(n: nat, unit: char, other: char)
    requires unit != other
    ensures ReadAmount(NatToString(n) + [unit], other) == None
  {
  }

  lemma NoSpaceInNat(n: nat)
    ensures ' ' !in NatToString(n) + "s" && ' ' !in NatToString(n) + "m" && ' ' !in NatToString(n) + "h"
  {
    var r := NatToString(n);
    assert forall i :: 0 <= i < |r| ==> IsDigit(r[i]);
  }

  /** Two amounts with unit letters, separated by one space, split into the two pieces. */
  lemma TwoPieces(a: nat, u: char, b: nat, v: char)
    requires u != ' ' && v != ' '
    ensures Split(NatToString(a) + [u, ' '] + NatToString(b) + [v], ' ') ==
            [NatToString(a) + [u], NatToString(b) + [v]]
  {
    var x, y := NatToString(a) + [u], NatToString(b) + [v];
    assert forall i :: 0 <= i < |NatToString(a)| ==> IsDigit(NatToString(a)[i]);
    assert forall i :: 0 <= i < |NatToString(b)| ==> IsDigit(NatToString(b)[i]);
    assert ' ' !in x && ' ' !in y;
    assert NatToString(a) + [u, ' '] + NatToString(b) + [v] == x + [' '] + y;
    SplitAfterPiece(x, y, ' ');
    SplitWithoutSeparator(y, ' ');
  }

  /** A text that splits into two pieces is read from those pieces. */
  lemma ReadDurationOfPieces(text: string, first: string, second: string)
    requires Split(text, ' ') == [first, second]
    ensures ReadDuration(text) == ReadTwoPieces(first, second)
  {
  }

  lemma ReadBackSeconds(s: nat)
    ensures ReadDuration(NatToString(s) + "s") == Some(s)
  {
    var x := NatToString(s) + "s";
    assert Split(x, ' ') == [x] by {
      NoSpaceInNat(s);
      SplitWithoutSeparator(x, ' ');
    }
    assert ReadAmount(x, 's') == Some(s) by { ReadAmountOfNat(s, 's'); }
  }

  lemma ReadMinutes(m: nat, s: nat)
    ensures ReadTwoPieces(NatToString(m) + "m", NatToString(s) + "s") == Some(60 * m + s)
  {
    ReadAmountOfNat(m, 'm');
    ReadAmountOfNat(s, 's');
  }

  lemma ReadBackMinutes(m: nat, s: nat)
    ensures ReadDuration(NatToString(m) + "m " + NatToString(s) + "s") == Some(60 * m + s)
  {
    TwoPieces(m, 'm', s, 's');
    ReadMinutes(m, s);
    ReadDurationOfPieces(NatToString(m) + "m " + NatToString(s) + "s", NatToString(m) + "m", NatToString(s) + "s");
  }

  lemma ReadHours(h: nat, m: nat)
    ensures ReadTwoPieces(NatToString(h) + "h", NatToString(m) + "m") == Some(3600 * h + 60 * m)
  {
    ReadAmountRejects(h, 'h', 'm');
    ReadAmountOfNat(h, 'h');
    ReadAmountOfNat(m, 'm');
  }

  lemma ReadBackHours(h: nat, m: nat)
    ensures ReadDuration(NatToString(h) + "h " + NatToString(m) + "m") == Some(3600 * h + 60 * m)
  {
    TwoPieces(h, 'h', m, 'm');
    ReadHours(h, m);
    ReadDurationOfPieces(NatToString(h) + "h " + NatToString(m) + "m", NatToString(h) + "h", NatToString(m) + "m");
  }

  /** A non-negative duration reads back as its whole seconds under an hour, and as
      its whole minutes (seconds dropped) from an hour on. */
  lemma FormatDurationReadsBack(durationMs: int)
    requires durationMs >= 0
    ensures var s := durationMs / 1000;
      ReadDuration(FormatDuration(durationMs)) == Some(if s < 3600 then s else s - s % 60)
  {
    var s := durationMs / 1000;
    var m := s / 60;
    assert s == 60 * m + s % 60;
    if s < 60 {
      ReadBackSeconds(s);
    } else if m < 60 {
      ReadBackMinutes(m, s % 60);
    } else {
      assert m == 60 * (m / 60) + m % 60;
      ReadBackHours(m / 60, m % 60);
    }
  }

  /** A negative elapsed time (a clock that went back) is shown as negative seconds. */
  lemma FormatDurationNegative(durationMs: int)
    requires durationMs < 0
    ensures FormatDuration(durationMs) == "-" + NatToString(-(durationMs / 1000)) + "s"
  {
  }

  /** `s.charAt(0).toUpperCase() + s.slice(1)` */
  function Capitalize(s: string): string {
    if |s| == 0 then "" else [UpperChar(s[0])] + s[1..]
  }

  /** The card title of a job: its type with a capital first letter, then ` Job`. */
  function JobTitle(kind: JobType): string {
    Capitalize(TypeName(kind)) + " Job"
  }

  /** Each kind of job has its own title, which names the kind. */
  lemma JobTitles()
    ensures JobTitle(Docking) == "Docking Job" && JobTitle(Dynamics) == "Dynamics Job"
    ensures JobTitle(Generation) == "Generation Job" && JobTitle(Prediction) == "Prediction Job"
  {
    assert UpperChar('d') == 'D' && UpperChar('g') == 'G' && UpperChar('p') == 'P';
    assert TypeName(Docking)[1..] == "ocking" && TypeName(Dynamics)[1..] == "ynamics";
    assert TypeName(Generation)[1..] == "eneration" && TypeName(Prediction)[1..] == "rediction";
  }

  /** Capitalising changes the first character only, and only a lower-case letter. */
  lemma CapitalizeOnlyFirst(s: string)
    ensures |Capitalize(s)| == |s|
    ensures |s| > 0 ==> Capitalize(s)[1..] == s[1..]
    ensures |s| > 0 && !IsLowerAscii(s[0]) ==> Capitalize(s) == s
    ensures |s| > 0 && IsLowerAscii(s[0]) ==> IsUpperAscii(Capitalize(s)[0]) && LowerChar(Capitalize(s)[0]) == s[0]
  {
  }
}
