/**
 * The molecule catalogue browser: a status filter, a case-insensitive text
 * search over name and SMILES, and a sort on the chosen column whose direction
 * the column header toggles.
 */
module DrugExplorer {
  import opened Wrappers
  import opened JsText
  import opened SeqUtil

  datatype Status = Generated | Approved | InTesting | Failed

  /** A catalogue entry. */
  datatype Molecule = Molecule(
    id: string, name: string, smiles: string,
    admetScore: real, bindingAffinity: real, similarityScore: real,
    status: Status, structureUrl: Option<string>)

  /** The columns (`keyof Molecule`). */
  datatype SortField = Id | Name | Smiles | AdmetScore | BindingAffinity | SimilarityScore | StatusColumn | StructureUrl

  datatype Direction = Asc | Desc

  datatype StatusFilter = All | Only(status: Status)

  predicate IsNumeric(field: SortField) {
    field == AdmetScore || field == BindingAffinity || field == SimilarityScore
  }

  function FieldValue(m: Molecule, field: SortField): real
    requires IsNumeric(field)
  {
    match field
    case AdmetScore => m.admetScore
    case BindingAffinity => m.bindingAffinity
    case SimilarityScore => m.similarityScore
  }

  /** The key the comparator orders by, ascending: binding affinity keeps the
      chosen direction, the other numeric columns reverse it (higher is better). */
  function SortKey(field: SortField, dir: Direction): Molecule -> real
    requires IsNumeric(field)
  {
    if (field == BindingAffinity) == (dir == Asc) then (m: Molecule) => FieldValue(m, field)
    else (m: Molecule) => -FieldValue(m, field)
  }

  function HasStatus(s: Status): Molecule -> bool {
    (m: Molecule) => m.status == s
  }

  /** The search test on an already lower-cased query. */
  predicate MatchesQuery(m: Molecule, lowerQuery: string) {
    Includes(ToLower(m.name), lowerQuery) || Includes(ToLower(m.smiles), lowerQuery)
  }

  function Matching(lowerQuery: string): Molecule -> bool {
    (m: Molecule) => MatchesQuery(m, lowerQuery)
  }

  /** After the status filter. */
  function ByStatus(all: seq<Molecule>, filter: StatusFilter): seq<Molecule> {
    if filter.All? then all else Filter(all, HasStatus(filter.status))
  }

  /** After the status filter and the search (an empty query keeps everything). */
  function Selected(all: seq<Molecule>, filter: StatusFilter, query: string): seq<Molecule> {
    var r := ByStatus(all, filter);
    if |query| > 0 then Filter(r, Matching(ToLower(query))) else r
  }

  /** The list the effect computes. Columns holding text make the comparator
      subtract strings, which gives NaN, taken as "equal" by the stable sort, so
      the filtered order is kept. */
  function Explore(all: seq<Molecule>, filter: StatusFilter, query: string,
                   field: SortField, dir: Direction): seq<Molecule>
  {
    var r := Selected(all, filter, query);
    if IsNumeric(field) then SortByKey(r, SortKey(field, dir)) else r
  }

  /** A molecule is shown exactly when it passes both filters, and nothing is shown
      twice or dropped: the result is a permutation of the selected molecules. */
  lemma ExploreSelects(all: seq<Molecule>, filter: StatusFilter, query: string,
                       field: SortField, dir: Direction, m: Molecule)
    ensures multiset(Explore(all, filter, query, field, dir)) == multiset(Selected(all, filter, query))
    ensures m in Explore(all, filter, query, field, dir) <==>
      m in all && (filter.All? || m.status == filter.status) &&
      (|query| == 0 || MatchesQuery(m, ToLower(query)))
  {
    var r := Explore(all, filter, query, field, dir);
    var sel := Selected(all, filter, query);
    assert m in r <==> m in sel by {
      assert m in r <==> m in multiset(r);
      assert m in sel <==> m in multiset(sel);
    }
    if !filter.All? {
      FilterMembers(all, HasStatus(filter.status), m);
    }
    if |query| > 0 {
      FilterMembers(ByStatus(all, filter), Matching(ToLower(query)), m);
    }
  }

  /** With a status filter, every shown molecule has that status. */
  lemma ExploreStatus(all: seq<Molecule>, filter: StatusFilter, query: string,
                      field: SortField, dir: Direction, k: nat)
    requires filter.Only? && k < |Explore(all, filter, query, field, dir)|
    ensures Explore(all, filter, query, field, dir)[k].status == filter.status
  {
    ExploreSelects(all, filter, query, field, dir, Explore(all, filter, query, field, dir)[k]);
  }

  /** With a query, every shown molecule's name or SMILES contains it, ignoring case. */
  lemma ExploreQuery(all: seq<Molecule>, filter: StatusFilter, query: string,
                     field: SortField, dir: Direction, k: nat)
    requires |query| > 0 && k < |Explore(all, filter, query, field, dir)|
    ensures MatchesQuery(Explore(all, filter, query, field, dir)[k], ToLower(query))
  {
    ExploreSelects(all, filter, query, field, dir, Explore(all, filter, query, field, dir)[k]);
  }

  /** Binding affinity sorts ascending for `asc` and descending for `desc`; the other
      numeric columns the other way round. */
  lemma ExploreOrder(all: seq<Molecule>, filter: StatusFilter, query: string,
                     field: SortField, dir: Direction, i: nat, j: nat)
    requires IsNumeric(field) && i < j < |Explore(all, filter, query, field, dir)|
    ensures var r := Explore(all, filter, query, field, dir);
      if (field == BindingAffinity) == (dir == Asc)
      then FieldValue(r[i], field) <= FieldValue(r[j], field)
      else FieldValue(r[i], field) >= FieldValue(r[j], field)
  {
    var r := Explore(all, filter, query, field, dir);
    assert SortKey(field, dir)(r[i]) <= SortKey(field, dir)(r[j]);
  }

  /** A text column leaves the filtered order as it is. */
  lemma ExploreTextColumn(all: seq<Molecule>, filter: StatusFilter, query: string,
                          field: SortField, dir: Direction)
    requires !IsNumeric(field)
    ensures Explore(all, filter, query, field, dir) == Selected(all, filter, query)
    ensures IsSubsequence(Explore(all, filter, query, field, dir), all)
  {
    var byStatus := ByStatus(all, filter);
    if !filter.All? {
      FilterIsSubsequence(all, HasStatus(filter.status));
    } else {
      SelfSubsequence(all);
    }
    if |query| > 0 {
      FilterIsSubsequence(byStatus, Matching(ToLower(query)));
      SubsequenceTransitive(Filter(byStatus, Matching(ToLower(query))), byStatus, all);
    }
  }

  function Flip(dir: Direction): Direction {
    if dir == Asc then Desc else Asc
  }

  /** `handleSort`: the current column flips its direction; another column
      becomes the sort column, ascending. */
  function NextSort(current: SortField, dir: Direction, field: SortField): (SortField, Direction) {
    if current == field then (current, Flip(dir)) else (field, Asc)
  }

  /** `getSortIcon`: an arrow on the sort column only. */
  function SortIcon(current: SortField, dir: Direction, field: SortField): Option<string> {
    if current != field then None
    else if dir == Asc then Some("↑") else Some("↓")
  }

  /** After clicking a column, that column shows an arrow: up when it was not the
      sort column, the other arrow when it was; no other column shows one. Two
      clicks on the same column restore the state. */
  lemma HandleSortIcons(current: SortField, dir: Direction, field: SortField, other: SortField)
    requires other != field
    ensures var (f, d) := NextSort(current, dir, field);
      && SortIcon(f, d, field).Some?
      && (current != field ==> SortIcon(f, d, field) == Some("↑"))
      && (current == field ==> SortIcon(f, d, field) != SortIcon(current, dir, field))
      && SortIcon(f, d, other).None?
    ensures var (f, d) := NextSort(current, dir, field);
      current == field ==> NextSort(f, d, field) == (current, dir)
  {
  }

  /** The catalogue browser's state; `Refresh` is the effect that recomputes the list. */
  class Explorer {
    const molecules: seq<Molecule>
    var filteredMolecules: seq<Molecule>
    var sortField: SortField
    var sortDirection: Direction
    var statusFilter: StatusFilter
    var searchQuery: string

    /** The initial state (binding affinity ascending, no filters) after the mount
        effect has run: the whole catalogue sorted by binding affinity. */
    constructor(catalogue: seq<Molecule>)
      ensures molecules == catalogue
      ensures sortField == BindingAffinity && sortDirection == Asc
      ensures statusFilter == All && searchQuery == ""
      ensures filteredMolecules == Explore(catalogue, All, "", BindingAffinity, Asc)
    {
      molecules := catalogue;
      filteredMolecules := catalogue;
      sortField := BindingAffinity;
      sortDirection := Asc;
      statusFilter := All;
      searchQuery := "";
      new;
      Refresh();
    }

    /** The effect: filter by status, then by the query, then sort. */
    method Refresh()
      modifies this
      ensures filteredMolecules == Explore(molecules, statusFilter, searchQuery, sortField, sortDirection)
      ensures sortField == old(sortField) && sortDirection == old(sortDirection)
      ensures statusFilter == old(statusFilter) && searchQuery == old(searchQuery)
    {
      var result := molecules;
      if statusFilter != All {
        result := Filter(result, HasStatus(statusFilter.status));
      }
      if |searchQuery| > 0 {
        var query := ToLower(searchQuery);
        result := Filter(result, Matching(query));
      }
      if IsNumeric(sortField) {
        result := SortByKey(result, SortKey(sortField, sortDirection));
      }
      filteredMolecules := result;
    }

    /** A click on a column header, followed by the effect. */
    method HandleSort(field: SortField)
      modifies this
      ensures (sortField, sortDirection) == NextSort(old(sortField), old(sortDirection), field)
      ensures statusFilter == old(statusFilter) && searchQuery == old(searchQuery)
      ensures filteredMolecules == Explore(molecules, statusFilter, searchQuery, sortField, sortDirection)
    {
      if sortField == field {
        sortDirection := if sortDirection == Asc then Desc else Asc;
      } else {
        sortField := field;
        sortDirection := Asc;
      }
      Refresh();
    }

    /** Choosing a status in the filter box, followed by the effect. */
    method SetStatusFilter(filter: StatusFilter)
      modifies this
      ensures statusFilter == filter && searchQuery == old(searchQuery)
      ensures sortField == old(sortField) && sortDirection == old(sortDirection)
      ensures filteredMolecules == Explore(molecules, filter, searchQuery, sortField, sortDirection)
    {
      statusFilter := filter;
      Refresh();
    }

    /** Typing in the search box, followed by the effect. */
    method SetSearchQuery(query: string)
      modifies this
      ensures searchQuery == query && statusFilter == old(statusFilter)
      ensures sortField == old(sortField) && sortDirection == old(sortDirection)
      ensures filteredMolecules == Explore(molecules, statusFilter, query, sortField, sortDirection)
    {
      searchQuery := query;
      Refresh();
    }
  }
}
