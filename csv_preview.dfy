/** The preview table of the CSV import (`CSVPreview`): a search over order number and
    tracking code, a filter on code validity, a sort on one column, and pages of ten rows.
    `localeCompare` is an abstract order on strings, `le(a, b)` standing for
    `a.localeCompare(b) <= 0`. */
module CsvPreview {
  import opened Common
  import opened Seqs
  import opened OrderValidator

  const ItemsPerPage: nat := 10

  datatype SortField = OrderNumberField | ShippingStatusField | TrackingCodeField | ValidationField
  datatype SortDirection = Asc | Desc
  datatype ValidationStatus = AllOrders | ValidOnly | InvalidOnly

  /** `Boolean(order.trackingCode)`: a code that is present and not empty. */
  predicate HasCode(o: ParsedOrder) {
    o.trackingCode.Some? && o.trackingCode.value != ""
  }

  /** `order.trackingCode ?? ""` */
  function CodeText(o: ParsedOrder): string {
    if o.trackingCode.Some? then o.trackingCode.value else ""
  }

  /** The search: the lower-cased term occurs in the lower-cased order number or code. */
  predicate MatchesSearch(o: ParsedOrder, term: string) {
    Contains(ToLower(o.orderNumber), ToLower(term)) || Contains(ToLower(CodeText(o)), ToLower(term))
  }

  /** An empty search term matches every order. */
  lemma EmptySearchMatchesAll(o: ParsedOrder)
    ensures MatchesSearch(o, "")
  {
    assert OccursAt(ToLower(o.orderNumber), ToLower(""), 0);
  }

  /** The search ignores ASCII case in the term: searching for a code in upper or in lower
      case finds the same orders. */
  lemma SearchIgnoresCase(o: ParsedOrder, term: string)
    ensures MatchesSearch(o, ToLower(term)) == MatchesSearch(o, term)
  {
    ToLowerIdempotent(term);
  }

  /** The rows the "invalid" filter keeps, and the rows behind the invalid-code warning: a
      code that is present but fails the pattern. */
  predicate IsInvalidCoded(o: ParsedOrder) {
    HasCode(o) && !MatchesTrackingPattern(o.trackingCode.value)
  }

  /** The validity filter. Both "valid" and "invalid" need a code to be present. */
  predicate MatchesValidation(o: ParsedOrder, f: ValidationStatus) {
    match f
    case AllOrders => true
    case ValidOnly => HasCode(o) && MatchesTrackingPattern(o.trackingCode.value)
    case InvalidOnly => IsInvalidCoded(o)
  }

  /** An order without a code is in neither the "valid" nor the "invalid" view; an order with
      one is in exactly one of them, and the "valid" view agrees with `isValidTrackingCode`. */
  lemma ValidationFilters(o: ParsedOrder)
    ensures !HasCode(o) ==> !MatchesValidation(o, ValidOnly) && !MatchesValidation(o, InvalidOnly)
    ensures HasCode(o) ==> MatchesValidation(o, ValidOnly) != MatchesValidation(o, InvalidOnly)
    ensures MatchesValidation(o, ValidOnly) <==> HasValidCode(o)
  {
  }

  /** Whether a row is shown, before sorting. */
  function Keep(term: string, f: ValidationStatus): ParsedOrder -> bool {
    o => MatchesSearch(o, term) && MatchesValidation(o, f)
  }

  /** The text a column sorts by; `a[sortField] ?? ""`. */
  function FieldText(o: ParsedOrder, field: SortField): string {
    match field
    case OrderNumberField => o.orderNumber
    case ShippingStatusField => o.shippingStatus
    case TrackingCodeField => CodeText(o)
    case ValidationField => ""
  }

  /** The comparator `compare(a, b) <= 0` for a column and a direction. The validation column
      compares `Number(Boolean(code))`, so it orders by the presence of a code, not by its
      validity. */
  function Comparator(le: (string, string) -> bool, field: SortField, dir: SortDirection)
    : (ParsedOrder, ParsedOrder) -> bool
  {
    (a: ParsedOrder, b: ParsedOrder) =>
      if field == ValidationField then
        (if dir == Asc then !HasCode(a) || HasCode(b) else HasCode(a) || !HasCode(b))
      else if dir == Asc then le(FieldText(a, field), FieldText(b, field))
      else le(FieldText(b, field), FieldText(a, field))
  }

  /** The comparator is total when the string order is, and always for the validation column. */
  lemma ComparatorTotal(le: (string, string) -> bool, field: SortField, dir: SortDirection)
    requires field == ValidationField || Total(le)
    ensures Total(Comparator(le, field, dir))
  {
    var cmp := Comparator(le, field, dir);
    forall a, b ensures cmp(a, b) || cmp(b, a) {
      if field != ValidationField {
        assert le(FieldText(a, field), FieldText(b, field)) || le(FieldText(b, field), FieldText(a, field));
      }
    }
  }

  /** `sortedAndFilteredData` */
  function View(data: seq<ParsedOrder>, term: string, f: ValidationStatus, le: (string, string) -> bool,
                field: SortField, dir: SortDirection): (rows: seq<ParsedOrder>)
    ensures multiset(rows) == multiset(Filter(Keep(term, f), data))
    ensures forall i :: 0 <= i < |rows| ==> MatchesSearch(rows[i], term) && MatchesValidation(rows[i], f)
  {
    var kept := Filter(Keep(term, f), data);
    var rows := Sort(Comparator(le, field, dir), kept);
    PermutationKeeps(Keep(term, f), kept, rows);
    rows
  }

  /** A rearrangement of rows that all pass a test holds only rows that pass it. */
  lemma PermutationKeeps(p: ParsedOrder -> bool, kept: seq<ParsedOrder>, rows: seq<ParsedOrder>)
    requires multiset(rows) == multiset(kept)
    requires forall k :: 0 <= k < |kept| ==> p(kept[k])
    ensures forall i :: 0 <= i < |rows| ==> p(rows[i])
  {
    forall i | 0 <= i < |rows| ensures p(rows[i]) {
      assert rows[i] in multiset(rows);
      assert rows[i] in kept;
      var k :| 0 <= k < |kept| && kept[k] == rows[i];
    }
  }

  /** The view is sorted by the chosen column whenever the string order is total. */
  lemma ViewSorted(data: seq<ParsedOrder>, term: string, f: ValidationStatus, le: (string, string) -> bool,
                   field: SortField, dir: SortDirection)
    requires field == ValidationField || Total(le)
    ensures Sorted(Comparator(le, field, dir), View(data, term, f, le, field, dir))
  {
    ComparatorTotal(le, field, dir);
    SortSorted(Comparator(le, field, dir), Filter(Keep(term, f), data));
  }

  /** Sorting by validation splits the rows into those without a code and those with one:
      ascending puts the former first, descending the latter. */
  lemma ValidationSortGroups(data: seq<ParsedOrder>, term: string, f: ValidationStatus,
                             le: (string, string) -> bool, dir: SortDirection)
    ensures var rows := View(data, term, f, le, ValidationField, dir);
      forall i, j :: 0 <= i < j < |rows| ==> (if dir == Asc then HasCode(rows[i]) ==> HasCode(rows[j])
                                                else HasCode(rows[j]) ==> HasCode(rows[i]))
  {
    var rows := View(data, term, f, le, ValidationField, dir);
    ViewSorted(data, term, f, le, ValidationField, dir);
    var rank := (o: ParsedOrder) => if (dir == Asc) == HasCode(o) then 1 else 0;
    forall i | 0 < i < |rows| ensures rank(rows[i - 1]) <= rank(rows[i]) {
      assert Comparator(le, ValidationField, dir)(rows[i - 1], rows[i]);
    }
    RankMonotone(rows, rank);
  }

  /** A rank that never drops between neighbours never drops at all. */
  lemma {:induction false} RankMonotone(rows: seq<ParsedOrder>, rank: ParsedOrder -> int)
    requires forall i :: 0 < i < |rows| ==> rank(rows[i - 1]) <= rank(rows[i])
    ensures forall i, j :: 0 <= i < j < |rows| ==> rank(rows[i]) <= rank(rows[j])
  {
    if |rows| > 1 {
      RankMonotone(rows[1..], rank);
      assert forall j :: 1 <= j < |rows| ==> rank(rows[1]) <= rank(rows[j]) by {
        forall j | 1 <= j < |rows| ensures rank(rows[1]) <= rank(rows[j]) {
          if j > 1 {
            assert rows[1..][0] == rows[1] && rows[1..][j - 1] == rows[j];
          }
        }
      }
    }
  }

  /** `invalidOrders`: the orders whose code is present but malformed. */
  function InvalidOrders(data: seq<ParsedOrder>): (bad: seq<ParsedOrder>)
    ensures forall i :: 0 <= i < |bad| ==> HasCode(bad[i]) && !HasValidCode(bad[i])
    ensures forall i :: 0 <= i < |data| && HasCode(data[i]) && !HasValidCode(data[i]) ==> data[i] in bad
    ensures forall i :: 0 <= i < |data| && !HasCode(data[i]) ==> data[i] !in bad
  {
    Filter(IsInvalidCoded, data)
  }

  /** The "invalid" filter with an empty search shows exactly the orders the warning counts. */
  lemma InvalidViewIsInvalidOrders(data: seq<ParsedOrder>, le: (string, string) -> bool,
                                   field: SortField, dir: SortDirection)
    ensures multiset(View(data, "", InvalidOnly, le, field, dir)) == multiset(InvalidOrders(data))
  {
    forall i | 0 <= i < |data| ensures Keep("", InvalidOnly)(data[i]) == IsInvalidCoded(data[i]) {
      EmptySearchMatchesAll(data[i]);
    }
    FilterPointwise(Keep("", InvalidOnly), IsInvalidCoded, data);
  }

  /** `Math.ceil(n / itemsPerPage)` */
  function TotalPages(n: nat): (pages: nat)
    ensures pages == 0 <==> n == 0
    ensures n > 0 ==> (pages - 1) * ItemsPerPage < n <= pages * ItemsPerPage
  {
    (n + ItemsPerPage - 1) / ItemsPerPage
  }

  /** `rows.slice(startIndex, startIndex + itemsPerPage)` for a page number. */
  function PageRows(rows: seq<ParsedOrder>, page: int): (shown: seq<ParsedOrder>)
  {
    var start := (page - 1) * ItemsPerPage;
    Slice(rows, start, start + ItemsPerPage)
  }

  /** Page `p` of at least 1 holds rows `(p-1)*10` up to `p*10`, as many of them as exist:
      at most ten, and none past the last page. */
  lemma PageContents(rows: seq<ParsedOrder>, page: int)
    requires page >= 1
    ensures |PageRows(rows, page)| <= ItemsPerPage
    ensures (page - 1) * ItemsPerPage >= |rows| ==> PageRows(rows, page) == []
    ensures (page - 1) * ItemsPerPage < |rows| ==>
      PageRows(rows, page) == rows[(page - 1) * ItemsPerPage..if page * ItemsPerPage < |rows| then page * ItemsPerPage else |rows|]
  {
  }

  /** Every row appears on exactly the page its index falls in, and that page exists. */
  lemma EveryRowOnItsPage(rows: seq<ParsedOrder>, i: nat)
    requires i < |rows|
    ensures 1 <= i / ItemsPerPage + 1 <= TotalPages(|rows|)
    ensures PageRows(rows, i / ItemsPerPage + 1)[i % ItemsPerPage] == rows[i]
  {
    PageContents(rows, i / ItemsPerPage + 1);
  }

  /** Page 0, where Next leads when no row matches, shows nothing whatever the rows:
      `slice(-10, 0)` is empty. */
  lemma PageZeroIsEmpty(rows: seq<ParsedOrder>)
    ensures PageRows(rows, 0) == []
  {
  }

  /** `handleSort`: the same column toggles the direction; another column is sorted ascending. */
  function NextSort(field: SortField, dir: SortDirection, clicked: SortField): (r: (SortField, SortDirection))
    ensures r.0 == clicked
    ensures clicked == field ==> r.1 != dir
    ensures clicked != field ==> r.1 == Asc
  {
    if clicked == field then (field, if dir == Asc then Desc else Asc) else (clicked, Asc)
  }

  /** Clicking the same column twice restores the sort. */
  lemma SortClickedTwice(field: SortField, dir: SortDirection, clicked: SortField)
    ensures var once := NextSort(field, dir, clicked);
      NextSort(once.0, once.1, clicked) == (clicked, if clicked == field then dir else Desc)
  {
  }

  /** The state of one preview. */
  class Preview {
    const data: seq<ParsedOrder>
    const le: (string, string) -> bool
    var searchTerm: string
    var currentPage: int
    var sortField: SortField
    var sortDirection: SortDirection
    var validationFilter: ValidationStatus

    /** The page is never negative: Previous clamps it to 1, Next to the page count. */
    ghost predicate Valid()
      reads this
    {
      currentPage >= 0
    }

    constructor(data: seq<ParsedOrder>, le: (string, string) -> bool)
      ensures Valid()
      ensures this.data == data && this.le == le
      ensures searchTerm == "" && currentPage == 1 && sortField == OrderNumberField && sortDirection == Asc
      ensures validationFilter == AllOrders
    {
      this.data := data;
      this.le := le;
      searchTerm := "";
      currentPage := 1;
      sortField := OrderNumberField;
      sortDirection := Asc;
      validationFilter := AllOrders;
    }

    /** The filtered and sorted rows. */
    function Rows(): seq<ParsedOrder>
      reads this
    {
      View(data, searchTerm, validationFilter, le, sortField, sortDirection)
    }

    /** The rows of the current page. */
    function Shown(): seq<ParsedOrder>
      reads this
    {
      PageRows(Rows(), currentPage)
    }

    /** Whether the invalid-code warning shows. */
    function HasInvalidOrders(): bool {
      |InvalidOrders(data)| > 0
    }

    /** Typing in the search box changes the term and keeps the page. */
    method SetSearchTerm(term: string)
      requires Valid()
      modifies this
      ensures Valid()
      ensures searchTerm == term && currentPage == old(currentPage)
      ensures sortField == old(sortField) && sortDirection == old(sortDirection) && validationFilter == old(validationFilter)
    {
      searchTerm := term;
    }

    /** `handleSort` */
    method HandleSort(clicked: SortField)
      requires Valid()
      modifies this
      ensures Valid()
      ensures (sortField, sortDirection) == NextSort(old(sortField), old(sortDirection), clicked)
      ensures searchTerm == old(searchTerm) && currentPage == old(currentPage) && validationFilter == old(validationFilter)
    {
      if sortField == clicked {
        sortDirection := if sortDirection == Asc then Desc else Asc;
      } else {
        sortField := clicked;
        sortDirection := Asc;
      }
    }

    /** `handleValidationFilterChange`: a new filter goes back to the first page. */
    method HandleValidationFilterChange(f: ValidationStatus)
      requires Valid()
      modifies this
      ensures Valid()
      ensures validationFilter == f && currentPage == 1
      ensures searchTerm == old(searchTerm) && sortField == old(sortField) && sortDirection == old(sortDirection)
    {
      validationFilter := f;
      currentPage := 1;
    }

    /** Previous: one page back, never below 1. */
    method Previous()
      requires Valid()
      modifies this
      ensures Valid()
      ensures currentPage >= 1
      ensures currentPage == if old(currentPage) - 1 < 1 then 1 else old(currentPage) - 1
      ensures searchTerm == old(searchTerm) && sortField == old(sortField) && sortDirection == old(sortDirection)
      ensures validationFilter == old(validationFilter)
    {
      currentPage := if currentPage - 1 < 1 then 1 else currentPage - 1;
    }

    /** Next: one page on, never past the page count; with no rows that is page 0. */
    method Next()
      requires Valid()
      modifies this
      ensures Valid()
      ensures currentPage <= TotalPages(|Rows()|)
      ensures currentPage == if old(currentPage) + 1 > TotalPages(|Rows()|) then TotalPages(|Rows()|) else old(currentPage) + 1
      ensures searchTerm == old(searchTerm) && sortField == old(sortField) && sortDirection == old(sortDirection)
      ensures validationFilter == old(validationFilter)
    {
      var total := TotalPages(|Rows()|);
      currentPage := if currentPage + 1 > total then total else currentPage + 1;
    }
  }

  /** With nothing matching, Next moves to page 0; once a new search term matches rows the page
      stays 0 and shows none of them, until Previous or a filter change. */
  method EmptyResultThenSearch(p: Preview, term: string)
    requires p.Valid() && |p.Rows()| == 0
    modifies p
    ensures p.currentPage == 0 && p.Shown() == []
  {
    p.Next();
    p.SetSearchTerm(term);
    PageZeroIsEmpty(p.Rows());
  }
}
