/** `TableCustom`, the generic table every list page uses: a case-insensitive
    substring filter on one column, then one page of the filtered rows. The
    page, the page size and the search term are the component's state. */
module TableCustom {
  import opened Common
  import opened Seqs

  /** `row` passes the search: its `searchField` text, lowercased, contains
      the lowercased term. `field(row)` stands for `String(row[searchField])`. */
  predicate Matches<T>(field: T -> string, term: string, row: T) {
    Includes(Lower(field(row)), Lower(term))
  }

  /** `filteredRows`: all rows when there is no search field or the term is
      empty, otherwise the rows that pass the search. */
  function Filtered<T>(rows: seq<T>, searchField: Option<T -> string>, term: string): (r: seq<T>)
    ensures |r| <= |rows|
  {
    if searchField.None? || term == "" then rows
    else Filter(rows, row => Matches(searchField.value, term, row))
  }

  /** `arr.slice(start, end)` for non-negative bounds: both are clamped to
      the length. */
  function Slice<T>(s: seq<T>, start: nat, end: nat): (r: seq<T>)
    ensures |r| <= |s|
    ensures start >= |s| ==> r == []
    ensures start <= end <= |s| ==> r == s[start..end]
  {
    var lo := if start < |s| then start else |s|;
    var hi := if end < |s| then end else |s|;
    if lo <= hi then s[lo..hi] else []
  }

  /** `paginatedRows`: page `page` of `rowsPerPage` rows. */
  function Page<T>(s: seq<T>, page: nat, rowsPerPage: nat): (r: seq<T>)
    ensures |r| <= rowsPerPage
    ensures page * rowsPerPage >= |s| ==> r == []
    ensures forall i :: 0 <= i < |r| ==> page * rowsPerPage + i < |s| && r[i] == s[page * rowsPerPage + i]
  {
    Slice(s, page * rowsPerPage, page * rowsPerPage + rowsPerPage)
  }

  /** Pages `0 .. k-1` laid end to end. */
  function Pages<T>(s: seq<T>, rowsPerPage: nat, k: nat): seq<T> {
    if k == 0 then [] else Pages(s, rowsPerPage, k - 1) + Page(s, k - 1, rowsPerPage)
  }

  /** The number of pages the paginator offers: `ceil(n / rowsPerPage)`. */
  function PageCount(n: nat, rowsPerPage: nat): nat
    requires rowsPerPage > 0
  {
    (n + rowsPerPage - 1) / rowsPerPage
  }

  // ---------------------------------------------------------------------
  // Filter

  /** Without a search field, or with an empty term, nothing is filtered. */
  lemma FilteredAll<T>(rows: seq<T>, searchField: Option<T -> string>, term: string)
    requires searchField.None? || term == ""
    ensures Filtered(rows, searchField, term) == rows
  {
  }

  /** Otherwise the filtered rows are the matching rows, in input order. */
  lemma FilteredSpec<T>(rows: seq<T>, field: T -> string, term: string)
    requires term != ""
    ensures Subsequence(Filtered(rows, Some(field), term), rows)
    ensures forall row :: row in Filtered(rows, Some(field), term) <==> row in rows && Matches(field, term, row)
    ensures |Filtered(rows, Some(field), term)| == Count(rows, row => Matches(field, term, row))
  {
    var p := row => Matches(field, term, row);
    FilterIsSubsequence(rows, p);
    FilterLength(rows, p);
    forall row ensures row in Filter(rows, p) <==> row in rows && p(row) {
      FilterMembership(rows, p, row);
    }
  }

  /** Matching ignores ASCII case on both sides. */
  lemma MatchesIgnoresCase<T>(field: T -> string, term: string, row: T)
    ensures Matches(field, term, row) == Matches(field, Lower(term), row)
  {
    LowerIdempotent(term);
  }

  lemma LowerIdempotent(s: string)
    ensures Lower(Lower(s)) == Lower(s)
  {
  }

  // ---------------------------------------------------------------------
  // Pagination

  /** The pages before page `k` hold exactly the first `k * rowsPerPage`
      rows (or all of them). */
  lemma {:induction false} PagesPrefix<T>(s: seq<T>, rowsPerPage: nat, k: nat)
    ensures Pages(s, rowsPerPage, k) == s[..if k * rowsPerPage < |s| then k * rowsPerPage else |s|]
  {
    if k > 0 {
      PagesPrefix(s, rowsPerPage, k - 1);
      var a := (k - 1) * rowsPerPage;
      var b := k * rowsPerPage;
      MulSucc(k - 1, rowsPerPage);
      var lo := if a < |s| then a else |s|;
      var hi := if b < |s| then b else |s|;
      var page := Page(s, k - 1, rowsPerPage);
      assert page == s[lo..hi];
      assert s[..lo] + s[lo..hi] == s[..hi];
    }
  }

  /** Walking through every page the paginator offers shows every filtered
      row exactly once, in order. */
  lemma PagesCoverAll<T>(s: seq<T>, rowsPerPage: nat)
    requires rowsPerPage > 0
    ensures Pages(s, rowsPerPage, PageCount(|s|, rowsPerPage)) == s
  {
    var k := PageCount(|s|, rowsPerPage);
    PagesPrefix(s, rowsPerPage, k);
    PageCountCovers(|s|, rowsPerPage);
    assert s[..|s|] == s;
  }

  /** The offered pages have room for every row. */
  lemma PageCountCovers(n: nat, rowsPerPage: nat)
    requires rowsPerPage > 0
    ensures PageCount(n, rowsPerPage) * rowsPerPage >= n
  {
    var k := PageCount(n, rowsPerPage);
    MulLeDiv(k + 1, n + rowsPerPage - 1, rowsPerPage);
    MulSucc(k, rowsPerPage);
  }

  lemma MulSucc(k: nat, r: nat)
    ensures (k + 1) * r == k * r + r
  {
  }

  /** Every offered page is non-empty, and the ones after them are empty. */
  lemma OfferedPagesNonEmpty<T>(s: seq<T>, rowsPerPage: nat, page: nat)
    requires rowsPerPage > 0
    ensures page < PageCount(|s|, rowsPerPage) <==> Page(s, page, rowsPerPage) != []
  {
    var n := |s|;
    MulLeDiv(page + 1, n + rowsPerPage - 1, rowsPerPage);
    assert (page + 1) * rowsPerPage == page * rowsPerPage + rowsPerPage;
    if page * rowsPerPage < n {
      assert |Page(s, page, rowsPerPage)| > 0 by {
        assert Slice(s, page * rowsPerPage, page * rowsPerPage + rowsPerPage) != [] by {
          assert s[page * rowsPerPage..] != [];
        }
      }
    }
  }

  /** `a * r <= x` exactly when `a <= x / r`. */
  lemma MulLeDiv(a: nat, x: nat, r: nat)
    requires r > 0
    ensures a * r <= x <==> a <= x / r
  {
    var q := x / r;
    assert q * r + x % r == x;
    if a <= q {
      MulMonotone(a, q, r);
    } else {
      MulMonotone(q + 1, a, r);
      assert (q + 1) * r == q * r + r;
    }
  }

  lemma MulMonotone(a: nat, b: nat, r: nat)
    requires a <= b
    ensures a * r <= b * r
  {
    assert b * r == a * r + (b - a) * r;
  }

  // ---------------------------------------------------------------------
  // Component state

  /** The values the page-size selector offers (`rowsPerPageOptions`), as
      the strings its change event carries. */
  const RowsPerPageOptions: seq<string> := ["5", "10", "25", "50"]

  class TableState {
    var page: nat
    var rowsPerPage: nat
    var searchTerm: string

    /** `useState(0)`, `useState(10)`, `useState("")`. */
    constructor ()
      ensures page == 0 && rowsPerPage == 10 && searchTerm == ""
    {
      page := 0;
      rowsPerPage := 10;
      searchTerm := "";
    }

    /** `onPageChange`: only the page moves. */
    method ChangePage(newPage: nat)
      modifies this
      ensures page == newPage
      ensures rowsPerPage == old(rowsPerPage) && searchTerm == old(searchTerm)
    {
      page := newPage;
    }

    /** `onRowsPerPageChange`: the selected option, parsed in base 10 (which
        `OptionsParse` shows is `OptionValue`), becomes the page size and the
        table goes back to its first page. */
    method ChangeRowsPerPage(value: string)
      requires value in RowsPerPageOptions
      modifies this
      ensures rowsPerPage == OptionValue(value)
      ensures page == 0 && searchTerm == old(searchTerm)
    {
      rowsPerPage := OptionValue(value);
      page := 0;
    }

    /** The search field's `onChange`: the term changes and the page stays
        where it was. */
    method ChangeSearchTerm(term: string)
      modifies this
      ensures searchTerm == term
      ensures page == old(page) && rowsPerPage == old(rowsPerPage)
    {
      searchTerm := term;
    }

    /** The filtered rows for the current search term. */
    function FilteredRows<T>(rows: seq<T>, searchField: Option<T -> string>): seq<T>
      reads this
    {
      Filtered(rows, searchField, searchTerm)
    }

    /** The rows the table body shows. */
    function PaginatedRows<T>(rows: seq<T>, searchField: Option<T -> string>): (r: seq<T>)
      reads this
      ensures |r| <= rowsPerPage
      ensures |r| <= |FilteredRows(rows, searchField)|
    {
      Page(FilteredRows(rows, searchField), page, rowsPerPage)
    }

    /** The "N registros" caption and the paginator's `count`: both are the
        filtered length, whatever the current page holds. */
    function RecordCount<T>(rows: seq<T>, searchField: Option<T -> string>): (n: nat)
      reads this
      ensures n >= |PaginatedRows(rows, searchField)|
    {
      |FilteredRows(rows, searchField)|
    }
  }

  /** The number an option stands for. */
  function OptionValue(value: string): (n: nat)
    requires value in RowsPerPageOptions
    ensures n in {5, 10, 25, 50}
  {
    if value == "5" then 5 else if value == "10" then 10 else if value == "25" then 25 else 50
  }

  /** Each option parses to that number. */
  lemma OptionsParse(value: string)
    requires value in RowsPerPageOptions
    ensures ParseInt(value) == Int(OptionValue(value))
  {
    var n := OptionValue(value);
    assert IntToString(n) == value by {
      if n >= 10 {
        assert NatDigits(n) == NatDigits(n / 10) + [DigitChar(n % 10)];
      }
    }
    ParseIntToString(n);
  }
}
