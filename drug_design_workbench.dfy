/**
 * The drug-design workbench: the list of target proteins taken from the
 * BindingDB rows, molecule selection, and the simulated docking run whose
 * score is classified as strong, moderate or weak binding.
 */
module DrugDesignWorkbench {
  import opened Wrappers
  import opened JsText
  import opened SeqUtil
  import opened DatasetLoader
  import opened BindingClass

  /** An entry of the target picker. */
  datatype Target = Target(id: string, name: string)

  /** `item.Target || ''`. */
  function TargetOf(row: Row): string {
    if "Target" in row then row["Target"] else ""
  }

  predicate NonEmpty(s: string) { |s| > 0 }

  /** `replace(/\s+/g, '-')`: each maximal run of whitespace becomes one `-`. */
  function CollapseWhitespace(s: string): (r: string)
    ensures |r| <= |s|
    ensures forall k :: 0 <= k < |r| ==> !IsWhitespace(r[k])
    decreases |s|
  {
    if |s| == 0 then ""
    else if IsWhitespace(s[0]) then "-" + CollapseWhitespace(TrimStart(s[1..]))
    else [s[0]] + CollapseWhitespace(s[1..])
  }

  /** The option value of a target: its name lower-cased, whitespace runs as `-`. */
  function Slug(name: string): string {
    CollapseWhitespace(ToLower(name))
  }

  function ToTarget(name: string): Target {
    Target(Slug(name), name)
  }

  function NameOf(t: Target): string { t.name }

  /** The distinct non-empty `Target` values, in order of first occurrence. */
  function TargetNames(data: seq<Row>): seq<string> {
    Filter(Dedup(MapSeq(data, TargetOf)), NonEmpty)
  }

  /** The loaded target list. */
  function ExtractTargets(data: seq<Row>): seq<Target> {
    MapSeq(TargetNames(data), ToTarget)
  }

  /** Text without whitespace is left alone. */
  lemma {:induction false} CollapsePlain(s: string)
    requires forall k :: 0 <= k < |s| ==> !IsWhitespace(s[k])
    ensures CollapseWhitespace(s) == s
    decreases |s|
  {
    if |s| > 0 {
      CollapsePlain(s[1..]);
    }
  }

  /** Leading whitespace followed by a non-whitespace character is dropped whole. */
  lemma {:induction false} TrimStartRun(w: string, b: string)
    requires IsBlank(w) && (b == [] || !IsWhitespace(b[0]))
    ensures TrimStart(w + b) == b
    decreases |w|
  {
    if |w| == 0 {
      assert w + b == b;
    } else {
      TrimStartRun(w[1..], b);
      assert (w + b)[1..] == w[1..] + b;
    }
  }

  /** A maximal whitespace run becomes a single `-`. */
  lemma CollapseRun(w: string, b: string)
    requires |w| > 0 && IsBlank(w) && (b == [] || !IsWhitespace(b[0]))
    ensures CollapseWhitespace(w + b) == "-" + CollapseWhitespace(b)
  {
    assert (w + b)[0] == w[0];
    assert (w + b)[1..] == w[1..] + b;
    TrimStartRun(w[1..], b);
  }

  /** Characters outside whitespace runs are copied. */
  lemma {:induction false} CollapseKeepsPlain(a: string, b: string)
    requires forall k :: 0 <= k < |a| ==> !IsWhitespace(a[k])
    ensures CollapseWhitespace(a + b) == a + CollapseWhitespace(b)
    decreases |a|
  {
    if |a| > 0 {
      CollapseKeepsPlain(a[1..], b);
      var s := a + b;
      assert s[0] == a[0] && !IsWhitespace(s[0]);
      assert s[1..] == a[1..] + b;
      assert CollapseWhitespace(s) == [s[0]] + CollapseWhitespace(s[1..]);
      assert a == [a[0]] + a[1..];
    } else {
      assert a + b == b;
    }
  }

  /** A slug has no whitespace and no upper-case letter, and slugging it again changes nothing. */
  lemma SlugIdempotent(name: string)
    ensures forall k :: 0 <= k < |Slug(name)| ==> !IsWhitespace(Slug(name)[k]) && !IsUpperAscii(Slug(name)[k])
    ensures Slug(Slug(name)) == Slug(name)
  {
    var lower := ToLower(name);
    NoUpperAfterCollapse(lower);
    var s := Slug(name);
    assert ToLower(s) == s;
    CollapsePlain(s);
  }

  /** No ASCII upper-case letter occurs. */
  predicate NoUpper(s: string) {
    forall k :: 0 <= k < |s| ==> !IsUpperAscii(s[k])
  }

  lemma NoUpperConcat(a: string, b: string)
    requires NoUpper(a) && NoUpper(b)
    ensures NoUpper(a + b)
  {
    forall k | 0 <= k < |a + b| ensures !IsUpperAscii((a + b)[k]) {
      if k >= |a| { assert (a + b)[k] == b[k - |a|]; }
    }
  }

  lemma NoUpperSuffix(s: string, n: nat)
    requires NoUpper(s) && n <= |s|
    ensures NoUpper(s[n..])
  {
    forall k | 0 <= k < |s| - n ensures !IsUpperAscii(s[n..][k]) {
      assert s[n..][k] == s[n + k];
    }
  }

  lemma {:induction false} NoUpperAfterCollapse(s: string)
    requires NoUpper(s)
    ensures NoUpper(CollapseWhitespace(s))
    decreases |s|
  {
    if |s| > 0 {
      var rest := s[1..];
      NoUpperSuffix(s, 1);
      if IsWhitespace(s[0]) {
        var t := TrimStart(rest);
        NoUpperSuffix(rest, |rest| - |t|);
        NoUpperAfterCollapse(t);
        NoUpperConcat("-", CollapseWhitespace(t));
      } else {
        NoUpperAfterCollapse(rest);
        NoUpperConcat([s[0]], CollapseWhitespace(rest));
      }
    }
  }

  /** Two different names can share an id: `"A B"` and `"a-b"` both become `a-b`,
      and so does any such pair of letters. */
  lemma SlugsCanCollide(x: char, y: char)
    requires (IsUpperAscii(x) || IsLowerAscii(x)) && (IsUpperAscii(y) || IsLowerAscii(y))
    ensures var id := [LowerChar(x), '-', LowerChar(y)];
      Slug([x, ' ', y]) == id && Slug(id) == id
  {
    var lx, ly := LowerChar(x), LowerChar(y);
    assert !IsWhitespace(lx) && !IsWhitespace(ly);
    CollapseSpaced(lx, ' ', ly);
    LowerLetters(x, y);
    CollapsePlain([lx, '-', ly]);
  }

  lemma LowerLetters(x: char, y: char)
    requires (IsUpperAscii(x) || IsLowerAscii(x)) && (IsUpperAscii(y) || IsLowerAscii(y))
    ensures ToLower([x, ' ', y]) == [LowerChar(x), ' ', LowerChar(y)]
    ensures ToLower([LowerChar(x), '-', LowerChar(y)]) == [LowerChar(x), '-', LowerChar(y)]
  {
  }

  lemma CollapseSpaced(x: char, w: char, y: char)
    requires !IsWhitespace(x) && IsWhitespace(w) && !IsWhitespace(y)
    ensures CollapseWhitespace([x, w, y]) == [x, '-', y]
  {
    var tail := [w] + [y];
    assert [x, w, y] == [x] + tail;
    CollapseKeepsPlain([x], tail);
    CollapseRun([w], [y]);
    CollapsePlain([y]);
    assert [x] + (['-'] + [y]) == [x, '-', y];
  }

  /** Filtering keeps distinct elements distinct. */
  lemma {:induction false} FilterDistinct<T>(s: seq<T>, p: T -> bool)
    requires Distinct(s)
    ensures Distinct(Filter(s, p))
  {
    if |s| > 0 {
      var s' := s[..|s| - 1];
      FilterDistinct(s', p);
      if p(s[|s| - 1]) {
        FilterMembers(s', p, s[|s| - 1]);
        assert s[|s| - 1] !in s' by {
          forall j | 0 <= j < |s'| ensures s'[j] != s[|s| - 1] {
            assert s'[j] == s[j];
          }
        }
      }
    }
  }

  /** The target names: non-empty, pairwise distinct, exactly the non-empty `Target`
      values of the rows, in order of first occurrence. */
  lemma TargetNamesSpec(data: seq<Row>, name: string)
    ensures var names := TargetNames(data);
      && (forall k :: 0 <= k < |names| ==> |names[k]| > 0)
      && Distinct(names)
      && (name in names <==> name != "" && name in MapSeq(data, TargetOf))
      && IsSubsequence(names, Dedup(MapSeq(data, TargetOf)))
  {
    var targets := MapSeq(data, TargetOf);
    var names := TargetNames(data);
    FilterDistinct(Dedup(targets), NonEmpty);
    FilterIsSubsequence(Dedup(targets), NonEmpty);
    FilterMembers(Dedup(targets), NonEmpty, name);
    forall k | 0 <= k < |names| ensures |names[k]| > 0 {
      FilterMembers(Dedup(targets), NonEmpty, names[k]);
    }
    if name != "" && name in targets {
      var i :| 0 <= i < |targets| && targets[i] == name;
      assert name in Dedup(targets);
    }
  }

  /** Every target has a non-empty name and the slug of that name as its id. */
  lemma ExtractTargetsIds(data: seq<Row>)
    ensures var r := ExtractTargets(data);
      forall k :: 0 <= k < |r| ==> |r[k].name| > 0 && r[k].id == Slug(r[k].name)
  {
    TargetNamesSpec(data, "");
  }

  /** No two targets share a name. */
  lemma ExtractTargetsDistinct(data: seq<Row>)
    ensures var r := ExtractTargets(data);
      forall i, j :: 0 <= i < j < |r| ==> r[i].name != r[j].name
  {
    TargetNamesSpec(data, "");
  }

  /** A target of a given name is listed exactly when some row has that non-empty
      `Target`. */
  lemma ExtractTargetsMembers(data: seq<Row>, name: string)
    ensures var r := ExtractTargets(data);
      (exists k :: 0 <= k < |r| && r[k].name == name) <==>
        name != "" && name in MapSeq(data, TargetOf)
  {
    var names := TargetNames(data);
    var r := ExtractTargets(data);
    TargetNamesSpec(data, name);
    if name in names {
      var k :| 0 <= k < |names| && names[k] == name;
      assert r[k].name == name;
    }
  }

  /** The target names come in order of first occurrence among the rows. */
  lemma ExtractTargetsOrder(data: seq<Row>)
    ensures IsSubsequence(MapSeq(ExtractTargets(data), NameOf), Dedup(MapSeq(data, TargetOf)))
  {
    TargetNamesSpec(data, "");
    assert MapSeq(ExtractTargets(data), NameOf) == TargetNames(data);
  }

  /** The tabs of the workbench. */
  datatype Tab = SearchTab | DesignTab | AnalyzeTab

  /** The docking score drawn from `tenths` tenths of a kcal/mol: `-(5 + 7 * random)`
      rounded to one decimal, between -12 and -5. */
  function DockingScore(tenths: nat): real {
    -(tenths as real) / 10.0
  }

  /** A draw of more than 8.0 binds strongly, of more than 6.0 moderately. */
  lemma DockingScoreClass(tenths: nat)
    requires 50 <= tenths <= 120
    ensures -12.0 <= DockingScore(tenths) <= -5.0
    ensures Classify(DockingScore(tenths)) == Strong <==> tenths > 80
    ensures Classify(DockingScore(tenths)) == Weak <==> tenths <= 60
  {
  }

  class Workbench {
    var activeTab: Tab
    var selectedMolecule: Option<Row>
    var targetProteins: seq<Target>
    var selectedTarget: string
    var dockingScore: Option<real>
    var isSimulating: bool

    constructor()
      ensures activeTab == SearchTab && selectedMolecule.None? && targetProteins == []
      ensures selectedTarget == "" && dockingScore.None? && !isSimulating
    {
      activeTab := SearchTab;
      selectedMolecule := None;
      targetProteins := [];
      selectedTarget := "";
      dockingScore := None;
      isSimulating := false;
    }

    /** The BindingDB rows arrived (`Some`) or failed to load (`None`). */
    method TargetsLoaded(data: Option<seq<Row>>)
      modifies this
      ensures targetProteins == (if data.Some? then ExtractTargets(data.value) else old(targetProteins))
      ensures activeTab == old(activeTab) && selectedMolecule == old(selectedMolecule)
      ensures selectedTarget == old(selectedTarget) && dockingScore == old(dockingScore)
      ensures isSimulating == old(isSimulating)
    {
      if data.Some? {
        var names := Filter(Dedup(MapSeq(data.value, TargetOf)), NonEmpty);
        targetProteins := MapSeq(names, ToTarget);
      }
    }

    /** `handleSelectMolecule`: remember the molecule and open the design tab. */
    method HandleSelectMolecule(molecule: Row)
      modifies this
      ensures selectedMolecule == Some(molecule) && activeTab == DesignTab
      ensures targetProteins == old(targetProteins) && selectedTarget == old(selectedTarget)
      ensures dockingScore == old(dockingScore) && isSimulating == old(isSimulating)
    {
      selectedMolecule := Some(molecule);
      activeTab := DesignTab;
    }

    method SelectTarget(id: string)
      modifies this
      ensures selectedTarget == id
      ensures activeTab == old(activeTab) && selectedMolecule == old(selectedMolecule)
      ensures targetProteins == old(targetProteins)
      ensures dockingScore == old(dockingScore) && isSimulating == old(isSimulating)
    {
      selectedTarget := id;
    }

    /** `handleRunDocking`: nothing happens without a molecule and a target;
        otherwise the run starts and the previous score is cleared. */
    method HandleRunDocking() returns (started: bool)
      modifies this
      ensures started <==> old(selectedMolecule).Some? && old(selectedTarget) != ""
      ensures started ==> isSimulating && dockingScore.None?
      ensures !started ==> isSimulating == old(isSimulating) && dockingScore == old(dockingScore)
      ensures activeTab == old(activeTab) && selectedMolecule == old(selectedMolecule)
      ensures targetProteins == old(targetProteins) && selectedTarget == old(selectedTarget)
    {
      if selectedMolecule.None? || selectedTarget == "" {
        return false;
      }
      isSimulating := true;
      dockingScore := None;
      started := true;
    }

    /** The delayed end of a docking run, with the drawn score in tenths. */
    method DockingFinished(tenths: nat)
      requires 50 <= tenths <= 120
      modifies this
      ensures dockingScore == Some(DockingScore(tenths)) && !isSimulating
      ensures activeTab == old(activeTab) && selectedMolecule == old(selectedMolecule)
      ensures targetProteins == old(targetProteins) && selectedTarget == old(selectedTarget)
    {
      dockingScore := Some(-(tenths as real) / 10.0);
      isSimulating := false;
    }
  }
}
