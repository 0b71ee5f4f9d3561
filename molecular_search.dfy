/**
 * The molecular search box: a search by name (ignoring case), by SMILES
 * substring (case-sensitive) or by a crude character-overlap similarity over
 * the PubChem rows, keeping the first twenty matches in dataset order.
 */
module MolecularSearch {
  import opened Wrappers
  import opened JsText
  import opened SeqUtil
  import opened DatasetLoader

  datatype SearchType = ByName | BySmiles | BySimilarity

  /** The most results shown. */
  const MaxResults: nat := 20

  /** `mol.Name?.toLowerCase().includes(query.toLowerCase())`: a row without a
      `Name` column never matches. */
  predicate NameMatches(row: Row, query: string) {
    "Name" in row && Includes(ToLower(row["Name"]), ToLower(query))
  }

  /** `mol.SMILES?.includes(query)`, case-sensitive. */
  predicate SmilesMatches(row: Row, query: string) {
    "SMILES" in row && Includes(row["SMILES"], query)
  }

  /** `mol.SMILES || ''`. */
  function SmilesOf(row: Row): string {
    if "SMILES" in row then row["SMILES"] else ""
  }

  function OccursIn(text: string): char -> bool {
    (c: char) => c in text
  }

  /** The number of query characters, with repetitions, that occur somewhere in `smiles`. */
  function CommonChars(query: string, smiles: string): (n: nat)
    ensures n <= |query|
  {
    |Filter(query, OccursIn(smiles))|
  }

  /** `commonChars / query.length > 0.3`, compared exactly. */
  predicate SimilarityMatches(row: Row, query: string) {
    |query| > 0 && (CommonChars(query, SmilesOf(row)) as real) / (|query| as real) > 0.3
  }

  function Matcher(kind: SearchType, query: string): Row -> bool {
    match kind
    case ByName => (row: Row) => NameMatches(row, query)
    case BySmiles => (row: Row) => SmilesMatches(row, query)
    case BySimilarity => (row: Row) => SimilarityMatches(row, query)
  }

  predicate Matches(kind: SearchType, query: string, row: Row) {
    Matcher(kind, query)(row)
  }

  /** The list the delayed search shows: no search at all for a blank query,
      otherwise the first twenty matching rows. */
  function SearchResults(molecules: seq<Row>, kind: SearchType, query: string): seq<Row> {
    if |Trim(query)| == 0 then []
    else Take(Filter(molecules, Matcher(kind, query)), MaxResults)
  }

  /** The shown rows are at most twenty of the matching rows, the earliest ones in
      dataset order, unchanged records of the dataset; when at most twenty rows match,
      all of them are shown. */
  lemma SearchResultsAreFirstMatches(molecules: seq<Row>, kind: SearchType, query: string)
    requires |Trim(query)| > 0
    ensures var r := SearchResults(molecules, kind, query);
      && |r| <= MaxResults
      && IsSubsequence(r, molecules)
      && (forall k :: 0 <= k < |r| ==> Matches(kind, query, r[k]))
      && (|Filter(molecules, Matcher(kind, query))| <= MaxResults ==>
            forall row :: row in r <==> row in molecules && Matches(kind, query, row))
    ensures var r := SearchResults(molecules, kind, query);
      var m := Filter(molecules, Matcher(kind, query));
      |r| == Min(MaxResults, |m|) && r == m[..|r|]
  {
    var matching := Filter(molecules, Matcher(kind, query));
    var r := SearchResults(molecules, kind, query);
    FilterIsSubsequence(molecules, Matcher(kind, query));
    PrefixOfSubsequence(matching, molecules, |r|);
    assert r == matching[..|r|];
    forall k | 0 <= k < |r| ensures Matches(kind, query, r[k]) {
      assert r[k] in matching;
      FilterMembers(molecules, Matcher(kind, query), r[k]);
    }
    if |matching| <= MaxResults {
      assert r == matching;
      forall row ensures row in r <==> row in molecules && Matches(kind, query, row) {
        FilterMembers(molecules, Matcher(kind, query), row);
      }
    }
  }

  /** A blank query gives no results, whatever the search type. */
  lemma BlankQueryClears(molecules: seq<Row>, kind: SearchType, query: string)
    requires IsBlank(query)
    ensures SearchResults(molecules, kind, query) == []
  {
    TrimEmptyIffBlank(query);
  }

  /** Lower-casing is idempotent. */
  lemma ToLowerIdempotent(s: string)
    ensures ToLower(ToLower(s)) == ToLower(s)
  {
  }

  /** A name search ignores the case of the query. */
  lemma NameSearchIgnoresCase(row: Row, query: string)
    ensures NameMatches(row, query) <==> NameMatches(row, ToLower(query))
  {
    ToLowerIdempotent(query);
  }

  /** When every query character occurs in the text, the overlap is the whole query. */
  lemma {:induction false} AllCharsCommon(query: string, smiles: string)
    requires forall k :: 0 <= k < |query| ==> query[k] in smiles
    ensures CommonChars(query, smiles) == |query|
  {
    if |query| > 0 {
      var q' := query[..|query| - 1];
      AllCharsCommon(q', smiles);
      FilterLast(query, OccursIn(smiles));
    }
  }

  /** A SMILES match is also a similarity match: a query contained in the SMILES
      shares all its characters with it. */
  lemma SmilesMatchIsSimilar(row: Row, query: string)
    requires |query| > 0 && SmilesMatches(row, query)
    ensures SimilarityMatches(row, query)
  {
    forall k | 0 <= k < |query| ensures query[k] in SmilesOf(row) {
      IncludedCharsOccur(row["SMILES"], query, query[k]);
    }
    AllCharsCommon(query, SmilesOf(row));
  }

  /** A row without SMILES shares no character with any query and is never similar. */
  lemma NoSmilesNeverSimilar(row: Row, query: string)
    requires "SMILES" !in row
    ensures !SimilarityMatches(row, query)
  {
    assert Filter(query, OccursIn(SmilesOf(row))) == [] by {
      NothingOccursInEmpty(query);
    }
  }

  lemma {:induction false} NothingOccursInEmpty(query: string)
    ensures Filter(query, OccursIn("")) == []
  {
    if |query| > 0 {
      NothingOccursInEmpty(query[..|query| - 1]);
    }
  }

  /** A search typed and submitted, waiting for its delay: it works on the query and
      the rows as they were at submission. */
  datatype PendingSearch = PendingSearch(kind: SearchType, query: string, molecules: seq<Row>)

  class SearchPanel {
    var searchQuery: string
    var searchType: SearchType
    var molecules: seq<Row>
    var searchResults: seq<Row>
    var isLoading: bool

    /** The mounted panel, loading the dataset. */
    constructor()
      ensures searchQuery == "" && searchType == ByName
      ensures molecules == [] && searchResults == [] && isLoading
    {
      searchQuery := "";
      searchType := ByName;
      molecules := [];
      searchResults := [];
      isLoading := true;
    }

    /** The dataset arrived (`Some`) or failed to load (`None`). */
    method MoleculesLoaded(data: Option<seq<Row>>)
      modifies this
      ensures molecules == (if data.Some? then data.value else old(molecules))
      ensures !isLoading
      ensures searchQuery == old(searchQuery) && searchType == old(searchType)
      ensures searchResults == old(searchResults)
    {
      if data.Some? {
        molecules := data.value;
      }
      isLoading := false;
    }

    method SetQuery(query: string, kind: SearchType)
      modifies this
      ensures searchQuery == query && searchType == kind
      ensures molecules == old(molecules) && searchResults == old(searchResults)
      ensures isLoading == old(isLoading)
    {
      searchQuery := query;
      searchType := kind;
    }

    /** `handleSearch`: a blank query clears the results at once; any other query
        starts loading and schedules the search. */
    method HandleSearch() returns (pending: Option<PendingSearch>)
      modifies this
      ensures IsBlank(searchQuery) <==> pending.None?
      ensures pending.None? ==> searchResults == [] && isLoading == old(isLoading)
      ensures pending.Some? ==>
        pending.value == PendingSearch(searchType, searchQuery, molecules)
        && isLoading && searchResults == old(searchResults)
      ensures searchQuery == old(searchQuery) && searchType == old(searchType)
      ensures molecules == old(molecules)
    {
      TrimEmptyIffBlank(searchQuery);
      if |Trim(searchQuery)| == 0 {
        searchResults := [];
        return None;
      }
      isLoading := true;
      pending := Some(PendingSearch(searchType, searchQuery, molecules));
    }

    /** The delayed part of `handleSearch`: filter by the chosen kind and keep at
        most twenty rows. */
    method CompleteSearch(p: PendingSearch)
      requires !IsBlank(p.query)
      modifies this
      ensures searchResults == SearchResults(p.molecules, p.kind, p.query)
      ensures !isLoading
      ensures searchQuery == old(searchQuery) && searchType == old(searchType)
      ensures molecules == old(molecules)
    {
      TrimEmptyIffBlank(p.query);
      var results := Filter(p.molecules, Matcher(p.kind, p.query));
      searchResults := Take(results, MaxResults);
      isLoading := false;
    }
  }
}
