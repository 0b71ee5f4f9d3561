/**
 * Per-dataset summaries of the loaded CSV rows: the row and column counts,
 * and a histogram chosen by dataset (molecular-weight bands for PubChem,
 * affinity bands for BindingDB, kinase families for DAVIS, score bands for
 * KIBA, approval status for ClinTox). Each histogram is filled by one pass
 * over the rows.
 */
module DatasetAnalyzer {
  import opened Wrappers
  import opened JsText
  import opened JsNumber
  import opened SeqUtil
  import opened DatasetLoader

  /** `row[key] || fallback`: a missing or empty cell gives the fallback. */
  function FieldOr(row: Row, key: string, fallback: string): string {
    if key in row && row[key] != "" then row[key] else fallback
  }

  datatype Summary = Summary(rowCount: nat, columnCount: nat)

  /** `rowCount` and `Object.keys(data[0] || {}).length`. */
  function Summarize(data: seq<Row>): Summary {
    Summary(|data|, if |data| == 0 then 0 else |data[0].Keys|)
  }

  datatype Distribution =
    | MolecularWeights(under200: nat, from200: nat, from300: nat, from400: nat, over500: nat)
    | Affinities(strong: nat, moderate: nat, weak: nat)
    | KinaseFamilies(entries: seq<(string, nat)>)
    | Scores(low: nat, medium: nat, high: nat, veryHigh: nat)
    | ApprovalStatus(approved: nat, failed: nat)

  /** The analysis object: always a summary, and a histogram for a known dataset. */
  datatype Analysis = Analysis(summary: Summary, distribution: Option<Distribution>)

  // ---------------------------------------------------------------- PubChem

  /** The `if`/`else if` chain on the weight: 0 = under 200, ..., 4 = over 500. */
  function WeightBand(mw: Number): (band: nat)
    ensures band < 5
  {
    if LessThan(mw, 200.0) then 0
    else if LessThan(mw, 300.0) then 1
    else if LessThan(mw, 400.0) then 2
    else if LessThan(mw, 500.0) then 3
    else 4
  }

  /** `parseFloat(row.MolecularWeight || '0')` */
  function WeightOf(row: Row): Number {
    ParseFloat(FieldOr(row, "MolecularWeight", "0"))
  }

  function PubChemBand(row: Row): (band: nat)
    ensures band < 5
  {
    WeightBand(WeightOf(row))
  }

  /** A finite weight lands in the band whose half-open range contains it. */
  lemma WeightBandRanges(v: real)
    ensures WeightBand(Finite(v)) == 0 <==> v < 200.0
    ensures WeightBand(Finite(v)) == 1 <==> 200.0 <= v < 300.0
    ensures WeightBand(Finite(v)) == 2 <==> 300.0 <= v < 400.0
    ensures WeightBand(Finite(v)) == 3 <==> 400.0 <= v < 500.0
    ensures WeightBand(Finite(v)) == 4 <==> 500.0 <= v
  {
  }

  /** A missing or empty weight is read as 0 and counted under 200. */
  lemma MissingWeightIsLight(row: Row)
    requires "MolecularWeight" !in row || row["MolecularWeight"] == ""
    ensures PubChemBand(row) == 0
  {
    ParseFloatOfNat(0);
  }

  /** A weight that is not a number fails every comparison and is counted over 500. */
  lemma UnparsableWeightIsHeavy(row: Row)
    requires "MolecularWeight" in row && row["MolecularWeight"] != ""
    requires forall i :: 0 <= i < |row["MolecularWeight"]| ==>
      !IsDigit(row["MolecularWeight"][i]) && row["MolecularWeight"][i] != 'I'
    ensures PubChemBand(row) == 4
  {
    ParseFloatNoDigits(row["MolecularWeight"]);
  }

  function PubChemDistribution(data: seq<Row>): Distribution {
    MolecularWeights(
      CountWhere(data, PubChemBand, 0), CountWhere(data, PubChemBand, 1),
      CountWhere(data, PubChemBand, 2), CountWhere(data, PubChemBand, 3),
      CountWhere(data, PubChemBand, 4))
  }

  /** Every row is counted in exactly one weight band. */
  lemma PubChemCountsAddUp(data: seq<Row>)
    ensures var d := PubChemDistribution(data);
      d.under200 + d.from200 + d.from300 + d.from400 + d.over500 == |data|
  {
    BucketTotalIsLength(data, PubChemBand, 5);
    assert BucketTotal(data, PubChemBand, 1) == 0 + CountWhere(data, PubChemBand, 0);
    assert BucketTotal(data, PubChemBand, 2) == BucketTotal(data, PubChemBand, 1) + CountWhere(data, PubChemBand, 1);
    assert BucketTotal(data, PubChemBand, 3) == BucketTotal(data, PubChemBand, 2) + CountWhere(data, PubChemBand, 2);
    assert BucketTotal(data, PubChemBand, 4) == BucketTotal(data, PubChemBand, 3) + CountWhere(data, PubChemBand, 3);
    assert BucketTotal(data, PubChemBand, 5) == BucketTotal(data, PubChemBand, 4) + CountWhere(data, PubChemBand, 4);
  }

  /** `analyzePubChem` */
  method AnalyzePubChem(data: seq<Row>) returns (a: Analysis)
    ensures a == Analysis(Summarize(data), Some(PubChemDistribution(data)))
  {
    var under200, from200, from300, from400, over500 := 0, 0, 0, 0, 0;
    for i := 0 to |data|
      invariant under200 == CountWhere(data[..i], PubChemBand, 0)
      invariant from200 == CountWhere(data[..i], PubChemBand, 1)
      invariant from300 == CountWhere(data[..i], PubChemBand, 2)
      invariant from400 == CountWhere(data[..i], PubChemBand, 3)
      invariant over500 == CountWhere(data[..i], PubChemBand, 4)
    {
      CountWhereStep(data, PubChemBand, i, 0);
      CountWhereStep(data, PubChemBand, i, 1);
      CountWhereStep(data, PubChemBand, i, 2);
      CountWhereStep(data, PubChemBand, i, 3);
      CountWhereStep(data, PubChemBand, i, 4);
      var mw := WeightOf(data[i]);
      assert PubChemBand(data[i]) == WeightBand(mw);
      if LessThan(mw, 200.0) {
        under200 := under200 + 1;
      } else if LessThan(mw, 300.0) {
        from200 := from200 + 1;
      } else if LessThan(mw, 400.0) {
        from300 := from300 + 1;
      } else if LessThan(mw, 500.0) {
        from400 := from400 + 1;
      } else {
        over500 := over500 + 1;
      }
    }
    assert data[..|data|] == data;
    a := Analysis(Summarize(data), Some(MolecularWeights(under200, from200, from300, from400, over500)));
  }

  // -------------------------------------------------------------- BindingDB

  /** 0 = strong (below 1), 1 = moderate (1 to 100), 2 = weak (above 100). */
  function AffinityBand(affinity: Number): (band: nat)
    ensures band < 3
  {
    if LessThan(affinity, 1.0) then 0
    else if AtMost(affinity, 100.0) then 1
    else 2
  }

  /** `parseFloat(row.BindingAffinity || '0')` */
  function AffinityOf(row: Row): Number {
    ParseFloat(FieldOr(row, "BindingAffinity", "0"))
  }

  function BindingDbBand(row: Row): (band: nat)
    ensures band < 3
  {
    AffinityBand(AffinityOf(row))
  }

  /** Strong is below 1, moderate is 1 to 100 with 100 included, weak is above 100;
      a value that is not a number counts as weak. */
  lemma AffinityBandRanges(v: real)
    ensures AffinityBand(Finite(v)) == 0 <==> v < 1.0
    ensures AffinityBand(Finite(v)) == 1 <==> 1.0 <= v <= 100.0
    ensures AffinityBand(Finite(v)) == 2 <==> 100.0 < v
    ensures AffinityBand(NaN) == 2
  {
  }

  function BindingDbDistribution(data: seq<Row>): Distribution {
    Affinities(CountWhere(data, BindingDbBand, 0), CountWhere(data, BindingDbBand, 1),
               CountWhere(data, BindingDbBand, 2))
  }

  lemma BindingDbCountsAddUp(data: seq<Row>)
    ensures var d := BindingDbDistribution(data); d.strong + d.moderate + d.weak == |data|
  {
    BucketTotalIsLength(data, BindingDbBand, 3);
    assert BucketTotal(data, BindingDbBand, 1) == 0 + CountWhere(data, BindingDbBand, 0);
    assert BucketTotal(data, BindingDbBand, 2) == BucketTotal(data, BindingDbBand, 1) + CountWhere(data, BindingDbBand, 1);
    assert BucketTotal(data, BindingDbBand, 3) == BucketTotal(data, BindingDbBand, 2) + CountWhere(data, BindingDbBand, 2);
  }

  /** `analyzeBindingDB` */
  method AnalyzeBindingDb(data: seq<Row>) returns (a: Analysis)
    ensures a == Analysis(Summarize(data), Some(BindingDbDistribution(data)))
  {
    var strong, moderate, weak := 0, 0, 0;
    for i := 0 to |data|
      invariant strong == CountWhere(data[..i], BindingDbBand, 0)
      invariant moderate == CountWhere(data[..i], BindingDbBand, 1)
      invariant weak == CountWhere(data[..i], BindingDbBand, 2)
    {
      CountWhereStep(data, BindingDbBand, i, 0);
      CountWhereStep(data, BindingDbBand, i, 1);
      CountWhereStep(data, BindingDbBand, i, 2);
      var affinity := AffinityOf(data[i]);
      assert BindingDbBand(data[i]) == AffinityBand(affinity);
      if LessThan(affinity, 1.0) {
        strong := strong + 1;
      } else if AtMost(affinity, 100.0) {
        moderate := moderate + 1;
      } else {
        weak := weak + 1;
      }
    }
    assert data[..|data|] == data;
    a := Analysis(Summarize(data), Some(Affinities(strong, moderate, weak)));
  }

  // ------------------------------------------------------------------- KIBA

  /** 0 = up to 3, 1 = up to 6, 2 = up to 10, 3 = above 10 (or not a number). */
  function ScoreBand(score: Number): (band: nat)
    ensures band < 4
  {
    if AtMost(score, 3.0) then 0
    else if AtMost(score, 6.0) then 1
    else if AtMost(score, 10.0) then 2
    else 3
  }

  /** `parseFloat(row.KIBAScore || '0')` */
  function ScoreOf(row: Row): Number {
    ParseFloat(FieldOr(row, "KIBAScore", "0"))
  }

  function KibaBand(row: Row): (band: nat)
    ensures band < 4
  {
    ScoreBand(ScoreOf(row))
  }

  /** The upper bounds 3, 6 and 10 are inclusive. */
  lemma ScoreBandRanges(v: real)
    ensures ScoreBand(Finite(v)) == 0 <==> v <= 3.0
    ensures ScoreBand(Finite(v)) == 1 <==> 3.0 < v <= 6.0
    ensures ScoreBand(Finite(v)) == 2 <==> 6.0 < v <= 10.0
    ensures ScoreBand(Finite(v)) == 3 <==> 10.0 < v
    ensures ScoreBand(NaN) == 3
  {
  }

  function KibaDistribution(data: seq<Row>): Distribution {
    Scores(CountWhere(data, KibaBand, 0), CountWhere(data, KibaBand, 1),
           CountWhere(data, KibaBand, 2), CountWhere(data, KibaBand, 3))
  }

  lemma KibaCountsAddUp(data: seq<Row>)
    ensures var d := KibaDistribution(data); d.low + d.medium + d.high + d.veryHigh == |data|
  {
    BucketTotalIsLength(data, KibaBand, 4);
    assert BucketTotal(data, KibaBand, 1) == 0 + CountWhere(data, KibaBand, 0);
    assert BucketTotal(data, KibaBand, 2) == BucketTotal(data, KibaBand, 1) + CountWhere(data, KibaBand, 1);
    assert BucketTotal(data, KibaBand, 3) == BucketTotal(data, KibaBand, 2) + CountWhere(data, KibaBand, 2);
    assert BucketTotal(data, KibaBand, 4) == BucketTotal(data, KibaBand, 3) + CountWhere(data, KibaBand, 3);
  }

  /** `analyzeKIBA` */
  method AnalyzeKiba(data: seq<Row>) returns (a: Analysis)
    ensures a == Analysis(Summarize(data), Some(KibaDistribution(data)))
  {
    var low, medium, high, veryHigh := 0, 0, 0, 0;
    for i := 0 to |data|
      invariant low == CountWhere(data[..i], KibaBand, 0)
      invariant medium == CountWhere(data[..i], KibaBand, 1)
      invariant high == CountWhere(data[..i], KibaBand, 2)
      invariant veryHigh == CountWhere(data[..i], KibaBand, 3)
    {
      CountWhereStep(data, KibaBand, i, 0);
      CountWhereStep(data, KibaBand, i, 1);
      CountWhereStep(data, KibaBand, i, 2);
      CountWhereStep(data, KibaBand, i, 3);
      var score := ScoreOf(data[i]);
      assert KibaBand(data[i]) == ScoreBand(score);
      if AtMost(score, 3.0) {
        low := low + 1;
      } else if AtMost(score, 6.0) {
        medium := medium + 1;
      } else if AtMost(score, 10.0) {
        high := high + 1;
      } else {
        veryHigh := veryHigh + 1;
      }
    }
    assert data[..|data|] == data;
    a := Analysis(Summarize(data), Some(Scores(low, medium, high, veryHigh)));
  }

  // ---------------------------------------------------------------- ClinTox

  /** 0 = approved (the cell is exactly `Yes`), 1 = failed (anything else). */
  function ClinToxBand(row: Row): (band: nat)
    ensures band < 2
  {
    if "Approved" in row && row["Approved"] == "Yes" then 0 else 1
  }

  function ClinToxDistribution(data: seq<Row>): Distribution {
    ApprovalStatus(CountWhere(data, ClinToxBand, 0), CountWhere(data, ClinToxBand, 1))
  }

  /** Every row that is not approved is counted as failed. */
  lemma ClinToxCountsAddUp(data: seq<Row>)
    ensures var d := ClinToxDistribution(data); d.failed == |data| - d.approved
  {
    BucketTotalIsLength(data, ClinToxBand, 2);
    assert BucketTotal(data, ClinToxBand, 1) == 0 + CountWhere(data, ClinToxBand, 0);
    assert BucketTotal(data, ClinToxBand, 2) == BucketTotal(data, ClinToxBand, 1) + CountWhere(data, ClinToxBand, 1);
  }

  /** `analyzeClinTox` */
  method AnalyzeClinTox(data: seq<Row>) returns (a: Analysis)
    ensures a == Analysis(Summarize(data), Some(ClinToxDistribution(data)))
  {
    var approved, failed := 0, 0;
    for i := 0 to |data|
      invariant approved == CountWhere(data[..i], ClinToxBand, 0)
      invariant failed == CountWhere(data[..i], ClinToxBand, 1)
    {
      CountWhereStep(data, ClinToxBand, i, 0);
      CountWhereStep(data, ClinToxBand, i, 1);
      if "Approved" in data[i] && data[i]["Approved"] == "Yes" {
        approved := approved + 1;
      } else {
        failed := failed + 1;
      }
    }
    assert data[..|data|] == data;
    a := Analysis(Summarize(data), Some(ApprovalStatus(approved, failed)));
  }

  // ------------------------------------------------------------------ DAVIS

  /** `row.KinaseFamily || 'Unknown'` */
  function FamilyOf(row: Row): string {
    FieldOr(row, "KinaseFamily", "Unknown")
  }

  /** A family and its count, as one entry of the `kinaseFamilies` record. */
  type Entry = (string, nat)

  function EntryKey(e: Entry): string { e.0 }

  /** The position of `key` among the entries, if it is there. */
  function KeyIndex(entries: seq<Entry>, key: string): (r: Option<nat>)
    ensures r.None? <==> forall j :: 0 <= j < |entries| ==> entries[j].0 != key
    ensures r.Some? ==> r.value < |entries| && entries[r.value].0 == key
  {
    if |entries| == 0 then None
    else if entries[|entries| - 1].0 == key then Some(|entries| - 1)
    else KeyIndex(entries[..|entries| - 1], key)
  }

  /** `kinaseFamilies[family] = (kinaseFamilies[family] || 0) + 1`: an existing
      entry is incremented in place, a new one is added at the end with 1. */
  function Bump(entries: seq<Entry>, key: string): seq<Entry> {
    match KeyIndex(entries, key)
    case Some(k) => entries[k := (key, entries[k].1 + 1)]
    case None => entries + [(key, 1)]
  }

  /** The record after counting `keys` one by one. */
  function Tally(keys: seq<string>): seq<Entry> {
    if |keys| == 0 then [] else Bump(Tally(keys[..|keys| - 1]), keys[|keys| - 1])
  }

  /** The sum of the counts. */
  function TotalCount(entries: seq<Entry>): nat {
    if |entries| == 0 then 0 else TotalCount(entries[..|entries| - 1]) + entries[|entries| - 1].1
  }

  lemma {:induction false} TotalCountUpdate(entries: seq<Entry>, k: nat, e: Entry)
    requires k < |entries|
    ensures TotalCount(entries[k := e]) == TotalCount(entries) - entries[k].1 + e.1
  {
    var n := |entries| - 1;
    if k < n {
      TotalCountUpdate(entries[..n], k, e);
      assert entries[k := e][..n] == entries[..n][k := e];
    } else {
      assert entries[k := e][..n] == entries[..n];
    }
  }

  lemma TotalCountAppend(entries: seq<Entry>, e: Entry)
    ensures TotalCount(entries + [e]) == TotalCount(entries) + e.1
  {
    assert (entries + [e])[..|entries|] == entries;
  }

  /** Counting a family keeps the names, adding it at the end when it is new. */
  lemma BumpKeys(entries: seq<Entry>, key: string)
    ensures MapSeq(Bump(entries, key), EntryKey) ==
      if key in MapSeq(entries, EntryKey) then MapSeq(entries, EntryKey) else MapSeq(entries, EntryKey) + [key]
  {
    var names := MapSeq(entries, EntryKey);
    match KeyIndex(entries, key)
    case Some(k) =>
      assert names[k] == key;
      assert MapSeq(entries[k := (key, entries[k].1 + 1)], EntryKey) == names;
    case None =>
      assert key !in names by {
        forall j | 0 <= j < |names| ensures names[j] != key {
          assert names[j] == entries[j].0;
        }
      }
      assert MapSeq(entries + [(key, 1)], EntryKey) == names + [key];
  }

  /** The family names of the tally are those of the rows, once each, in order of
      first appearance. */
  lemma {:induction false} TallyKeys(keys: seq<string>)
    ensures MapSeq(Tally(keys), EntryKey) == Dedup(keys)
  {
    if |keys| > 0 {
      var prev := keys[..|keys| - 1];
      TallyKeys(prev);
      BumpKeys(Tally(prev), keys[|keys| - 1]);
    }
  }

  /** Each family's count is the number of rows of that family. */
  lemma {:induction false} TallyCounts(keys: seq<string>, j: nat)
    requires j < |Tally(keys)|
    ensures Tally(keys)[j].1 == multiset(keys)[Tally(keys)[j].0]
  {
    var prev := keys[..|keys| - 1];
    var key := keys[|keys| - 1];
    assert keys == prev + [key];
    var t := Tally(prev);
    TallyKeys(prev);
    match KeyIndex(t, key)
    case Some(k) =>
      TallyCounts(prev, j);
    case None =>
      if j < |t| {
        TallyCounts(prev, j);
      } else {
        assert key !in Dedup(prev);
        assert key !in prev;
      }
  }

  /** The counts add up to the number of rows. */
  lemma {:induction false} TallyTotal(keys: seq<string>)
    ensures TotalCount(Tally(keys)) == |keys|
  {
    if |keys| > 0 {
      var prev := keys[..|keys| - 1];
      var key := keys[|keys| - 1];
      TallyTotal(prev);
      var t := Tally(prev);
      match KeyIndex(t, key)
      case Some(k) => TotalCountUpdate(t, k, (key, t[k].1 + 1));
      case None => TotalCountAppend(t, (key, 1));
    }
  }

  function DavisDistribution(data: seq<Row>): Distribution {
    KinaseFamilies(Tally(MapSeq(data, FamilyOf)))
  }

  /** `analyzeDAVIS` */
  method AnalyzeDavis(data: seq<Row>) returns (a: Analysis)
    ensures a == Analysis(Summarize(data), Some(DavisDistribution(data)))
  {
    var families: seq<Entry> := [];
    for i := 0 to |data|
      invariant families == Tally(MapSeq(data[..i], FamilyOf))
    {
      var family := FamilyOf(data[i]);
      assert MapSeq(data[..i + 1], FamilyOf)[..i] == MapSeq(data[..i], FamilyOf);
      match KeyIndex(families, family)
      case Some(k) =>
        families := families[k := (family, families[k].1 + 1)];
      case None =>
        families := families + [(family, 1)];
    }
    assert data[..|data|] == data;
    a := Analysis(Summarize(data), Some(KinaseFamilies(families)));
  }

  /** The negated count: sorting by it ascending is sorting by count descending. */
  function NegatedCount(e: Entry): real {
    -(e.1 as real)
  }

  /** A family name that JavaScript treats as an array index: the canonical decimal
      form (no sign, no leading zero) of an integer below 2^32 - 1. */
  predicate IsArrayIndex(key: string) {
    && |key| > 0 && AllDigits(key)
    && (key[0] != '0' || |key| == 1)
    && DigitsValue(key) < 0xFFFF_FFFF
  }

  predicate IsIndexEntry(e: Entry) { IsArrayIndex(e.0) }

  predicate IsNamedEntry(e: Entry) { !IsArrayIndex(e.0) }

  /** The numeric value of an index key. */
  function IndexOrder(e: Entry): real {
    if AllDigits(e.0) then DigitsValue(e.0) as real else 0.0
  }

  /** `Object.entries(record)`: the array-index keys in ascending numeric order, then
      the other keys in the order they were first assigned. */
  function ObjectEntries(entries: seq<Entry>): seq<Entry> {
    SortByKey(Filter(entries, IsIndexEntry), IndexOrder) + Filter(entries, IsNamedEntry)
  }

  /** `Object.entries` lists every entry of the record once. */
  lemma ObjectEntriesPermutes(entries: seq<Entry>)
    ensures multiset(ObjectEntries(entries)) == multiset(entries)
  {
    FilterPartition(entries, IsIndexEntry, IsNamedEntry);
  }

  /** The first `n` entries listed are exactly the ones with array-index keys, where
      `n` is the number of such entries. */
  lemma ObjectEntriesIndexFirst(entries: seq<Entry>)
    ensures var o := ObjectEntries(entries);
      var n := |Filter(entries, IsIndexEntry)|;
      n <= |o| && forall k :: 0 <= k < |o| ==> (k < n <==> IsArrayIndex(o[k].0))
  {
    var idx := Filter(entries, IsIndexEntry);
    var named := Filter(entries, IsNamedEntry);
    var sorted := SortByKey(idx, IndexOrder);
    var o := ObjectEntries(entries);
    var n := |idx|;
    forall k | 0 <= k < |o| ensures k < n <==> IsArrayIndex(o[k].0) {
      if k < n {
        assert o[k] == sorted[k];
        assert o[k] in multiset(idx);
        FilterMembers(entries, IsIndexEntry, o[k]);
      } else {
        assert o[k] == named[k - n];
        FilterMembers(entries, IsNamedEntry, o[k]);
      }
    }
  }

  /** The index keys are listed in ascending numeric order; the other keys follow in
      insertion order. */
  lemma ObjectEntriesOrder(entries: seq<Entry>)
    ensures var o := ObjectEntries(entries);
      var n := |Filter(entries, IsIndexEntry)|;
      && n <= |o|
      && (forall i, j :: 0 <= i < j < n ==> IndexOrder(o[i]) <= IndexOrder(o[j]))
      && o[n..] == Filter(entries, IsNamedEntry)
  {
    var idx := Filter(entries, IsIndexEntry);
    var sorted := SortByKey(idx, IndexOrder);
    var o := ObjectEntries(entries);
    assert o[..|idx|] == sorted;
  }

  /** On array-index keys the listing order is the numeric value of the key. */
  lemma IndexOrderIsValue(e: Entry)
    requires IsArrayIndex(e.0)
    ensures IndexOrder(e) == DigitsValue(e.0) as real
  {
  }

  /** An integer-like family assigned after a named one is still listed first. */
  lemma IndexKeyListedFirst(named: Entry, index: Entry)
    requires !IsArrayIndex(named.0) && IsArrayIndex(index.0)
    ensures ObjectEntries([named, index]) == [index, named]
  {
    var entries := [named, index];
    assert entries[..1] == [named];
    FilterLast(entries, IsIndexEntry);
    FilterLast(entries, IsNamedEntry);
    FilterLast([named], IsIndexEntry);
    FilterLast([named], IsNamedEntry);
    assert [named][..0] == [];
    var idx := Filter(entries, IsIndexEntry);
    assert idx == [index];
    assert SortByKey(idx, IndexOrder) == [index] by {
      assert idx[..0] == [];
    }
  }

  /** `1` is an array index and `B` is not. */
  lemma DigitKeyIsIndex()
    ensures IsArrayIndex("1") && !IsArrayIndex("B")
  {
    assert !IsDigit("B"[0]);
    assert "1"[..0] == "";
  }

  /** The chart's `Object.entries(...).sort((a, b) => b[1] - a[1]).slice(0, 10)`. */
  function TopFamilies(entries: seq<Entry>): seq<Entry> {
    Take(SortByKey(ObjectEntries(entries), NegatedCount), 10)
  }

  /** The first ten entries are shown (all of them when there are fewer), by
      non-increasing count, each one of the record's entries. */
  lemma TopFamiliesOrdered(entries: seq<Entry>)
    ensures |TopFamilies(entries)| == Min(10, |entries|)
    ensures forall i, j :: 0 <= i < j < |TopFamilies(entries)| ==>
      TopFamilies(entries)[i].1 >= TopFamilies(entries)[j].1
    ensures forall k :: 0 <= k < |TopFamilies(entries)| ==> TopFamilies(entries)[k] in entries
  {
    var sorted := SortByKey(ObjectEntries(entries), NegatedCount);
    var top := TopFamilies(entries);
    ObjectEntriesPermutes(entries);
    assert |ObjectEntries(entries)| == |multiset(ObjectEntries(entries))| == |multiset(entries)| == |entries|;
    forall i, j | 0 <= i < j < |top| ensures top[i].1 >= top[j].1 {
      assert NegatedCount(sorted[i]) <= NegatedCount(sorted[j]);
    }
    forall k | 0 <= k < |top| ensures top[k] in entries {
      assert top[k] == sorted[k];
      assert sorted[k] in multiset(sorted);
    }
  }

  /** An entry left off the chart has no larger count than any entry shown. */
  lemma TopFamiliesAreTop(entries: seq<Entry>, e: Entry, k: nat)
    requires e in entries && e !in TopFamilies(entries)
    requires k < |TopFamilies(entries)|
    ensures e.1 <= TopFamilies(entries)[k].1
  {
    var sorted := SortByKey(ObjectEntries(entries), NegatedCount);
    ObjectEntriesPermutes(entries);
    assert e in multiset(sorted);
    var j :| 0 <= j < |sorted| && sorted[j] == e;
    assert j >= |TopFamilies(entries)|;
    assert NegatedCount(sorted[k]) <= NegatedCount(sorted[j]);
  }

  // --------------------------------------------------------------- dispatch

  /** `analyzeDataset`: the histogram of the named dataset, or only the summary
      for any other name. */
  method AnalyzeDataset(data: seq<Row>, datasetId: string) returns (a: Analysis)
    ensures a.summary == Summarize(data)
    ensures datasetId == "pubchem" ==> a.distribution == Some(PubChemDistribution(data))
    ensures datasetId == "bindingdb" ==> a.distribution == Some(BindingDbDistribution(data))
    ensures datasetId == "davis" ==> a.distribution == Some(DavisDistribution(data))
    ensures datasetId == "kiba" ==> a.distribution == Some(KibaDistribution(data))
    ensures datasetId == "clintox" ==> a.distribution == Some(ClinToxDistribution(data))
    ensures datasetId !in ["pubchem", "bindingdb", "davis", "kiba", "clintox"] ==> a.distribution == None
  {
    if datasetId == "pubchem" {
      a := AnalyzePubChem(data);
    } else if datasetId == "bindingdb" {
      a := AnalyzeBindingDb(data);
    } else if datasetId == "davis" {
      a := AnalyzeDavis(data);
    } else if datasetId == "kiba" {
      a := AnalyzeKiba(data);
    } else if datasetId == "clintox" {
      a := AnalyzeClinTox(data);
    } else {
      a := Analysis(Summarize(data), None);
    }
  }
}
