/** The transaction list of one user's wallet (src/pages/UserTransactions.tsx):
    the sign filter, the 30-per-page window, the page buttons, the reset of
    the page when the filter changes, and the "Showing a-b of n" label. */
module UserTransactions {
  import opened Wrappers
  import Seqs

  /** A wallet payment. Only the sign of the amount matters to this page, so
      amounts are whole numbers here. */
  datatype Transaction = Transaction(memo: string, date: string, amount: int)

  datatype FilterType = All | Deposit | Withdraw

  const ItemsPerPage: nat := 30

  const FetchErrorMessage := "Failed to fetch transaction data. Please try again later."

  /** Whether a filter keeps a transaction. */
  predicate Keeps(filter: FilterType, t: Transaction) {
    match filter
    case Deposit => t.amount > 0
    case Withdraw => t.amount < 0
    case All => true
  }

  /** `filteredTransactions`. */
  function FilteredTransactions(filter: FilterType, all: seq<Transaction>): seq<Transaction> {
    Seqs.Filter(t => Keeps(filter, t), all)
  }

  /** "deposit" keeps exactly the positive amounts, "withdraw" exactly the
      negative ones, "all" everything; so a zero amount is listed only under "all". */
  lemma FilterBySign(all: seq<Transaction>)
    ensures forall t :: t in FilteredTransactions(Deposit, all) <==> t in all && t.amount > 0
    ensures forall t :: t in FilteredTransactions(Withdraw, all) <==> t in all && t.amount < 0
    ensures FilteredTransactions(All, all) == all
    ensures forall t: Transaction | t.amount == 0 ::
      t !in FilteredTransactions(Deposit, all) && t !in FilteredTransactions(Withdraw, all)
  {
    Seqs.FilterKeepsAll(t => Keeps(All, t), all);
  }

  /** Filtering keeps the order of the fetched list. */
  lemma FilterPreservesOrder(filter: FilterType, all: seq<Transaction>)
    ensures Seqs.IsSubsequence(FilteredTransactions(filter, all), all)
  {
    Seqs.FilterIsSubsequence(t => Keeps(filter, t), all);
  }

  /** `Math.ceil(n / ITEMS_PER_PAGE)`: the fewest pages of 30 that hold `n` items. */
  function TotalPages(n: nat): (pages: nat)
    ensures n <= pages * ItemsPerPage
    ensures pages > 0 ==> (pages - 1) * ItemsPerPage < n
    ensures pages == 0 <==> n == 0
  {
    (n + ItemsPerPage - 1) / ItemsPerPage
  }

  /** `startIndex` of a page. */
  function StartIndex(page: nat): int {
    (page - 1) * ItemsPerPage
  }

  /** `endIndex` of a page. */
  function EndIndex(page: nat): int {
    StartIndex(page) + ItemsPerPage
  }

  function Min(a: int, b: int): int {
    if a <= b then a else b
  }

  /** `Array.prototype.slice(start, end)` for `0 <= start <= end`: both
      bounds are clamped to the length of the list. */
  function Slice<T>(s: seq<T>, start: nat, end: nat): (r: seq<T>)
    requires start <= end
    ensures start <= |s| ==> r == s[start..Min(end, |s|)]
    ensures start > |s| ==> r == []
  {
    if start >= |s| then [] else s[start..Min(end, |s|)]
  }

  /** `currentTransactions`: the items shown on a page (pages count from 1). */
  function PageItems(filtered: seq<Transaction>, page: nat): seq<Transaction>
    requires page >= 1
  {
    Slice(filtered, StartIndex(page), EndIndex(page))
  }

  /** A page shows the items from its start index to its end index or the end
      of the list, whichever comes first, so at most 30 of them; a page
      beyond the list shows nothing. */
  lemma PageWindow(filtered: seq<Transaction>, page: nat)
    requires page >= 1
    ensures |PageItems(filtered, page)| <= ItemsPerPage
    ensures StartIndex(page) <= |filtered| ==>
      PageItems(filtered, page) == filtered[StartIndex(page)..Min(EndIndex(page), |filtered|)]
    ensures StartIndex(page) >= |filtered| ==> PageItems(filtered, page) == []
  {
  }

  /** Item `i` of the filtered list lies on page `i / 30 + 1`, which is one of
      the pages `1..totalPages`, and on no other page. */
  lemma ItemOnExactlyOnePage(filtered: seq<Transaction>, i: nat)
    requires i < |filtered|
    ensures var p := i / ItemsPerPage + 1;
      && 1 <= p <= TotalPages(|filtered|)
      && StartIndex(p) <= i < EndIndex(p)
      && PageItems(filtered, p)[i - StartIndex(p)] == filtered[i]
      && forall q: nat | 1 <= q && StartIndex(q) <= i < EndIndex(q) :: q == p
  {
    var p := i / ItemsPerPage + 1;
    assert StartIndex(p) <= i < EndIndex(p);
  }

  /** The items of pages `1..k`, in page order. */
  function FirstPages(filtered: seq<Transaction>, k: nat): seq<Transaction> {
    if k == 0 then [] else FirstPages(filtered, k - 1) + PageItems(filtered, k)
  }

  /** Pages `1..k` together show the first `30 * k` items, in order. */
  lemma {:induction false} FirstPagesArePrefix(filtered: seq<Transaction>, k: nat)
    ensures FirstPages(filtered, k) == filtered[..Min(k * ItemsPerPage, |filtered|)]
  {
    if k > 0 {
      FirstPagesArePrefix(filtered, k - 1);
      var a := Min((k - 1) * ItemsPerPage, |filtered|);
      var b := Min(k * ItemsPerPage, |filtered|);
      if StartIndex(k) <= |filtered| {
        assert filtered[..b] == filtered[..a] + filtered[a..b];
      }
    }
  }

  /** Pages `1..totalPages` together show the whole filtered list, each item once, in order. */
  lemma {:induction false} PagesCoverFilteredList(filtered: seq<Transaction>)
    ensures FirstPages(filtered, TotalPages(|filtered|)) == filtered
  {
    FirstPagesArePrefix(filtered, TotalPages(|filtered|));
  }

  /** The "Showing first-last of total" label. */
  datatype RangeLabel = RangeLabel(first: int, last: int, total: nat)

  /** The label is shown only after a successful load of a non-empty list. */
  function Label(isLoading: bool, failed: bool, filtered: seq<Transaction>, page: nat): Option<RangeLabel> {
    if !isLoading && !failed && |filtered| > 0
    then Some(RangeLabel(StartIndex(page) + 1, Min(EndIndex(page), |filtered|), |filtered|))
    else None
  }

  /** On a page in `1..totalPages` the label names exactly the items shown:
      `last - first + 1` of them, starting with item `first`. */
  lemma LabelMatchesPage(filtered: seq<Transaction>, page: nat)
    requires 1 <= page <= TotalPages(|filtered|)
    ensures Label(false, false, filtered, page).Some?
    ensures var l := Label(false, false, filtered, page).value;
      && 1 <= l.first <= l.last <= l.total == |filtered|
      && l.last - l.first + 1 == |PageItems(filtered, page)|
      && PageItems(filtered, page)[0] == filtered[l.first - 1]
  {
  }

  /** The previous/next buttons are shown only after a successful load with more than one page. */
  predicate ShowsPageControls(isLoading: bool, failed: bool, totalPages: nat) {
    !isLoading && !failed && totalPages > 1
  }

  /** After a successful load the buttons are shown exactly when more than 30 items pass the filter. */
  lemma PageControlsIffMoreThanOnePage(n: nat)
    ensures ShowsPageControls(false, false, TotalPages(n)) <==> n > ItemsPerPage
  {
  }

  /** A refetch keeps `currentPage`. If the list has shrunk, the page can lie
      past the last one: with 40 deposits on page 2 and a refetch returning
      10, page 2 shows nothing, the label reads "Showing 31-10 of 10" and no
      buttons are shown to go back. */
  lemma RefetchCanStrandPage(t: Transaction)
    ensures var before := seq(40, _ => t);
      var after := seq(10, _ => t);
      && TotalPages(|before|) == 2
      && TotalPages(|after|) == 1
      && PageItems(after, 2) == []
      && Label(false, false, after, 2) == Some(RangeLabel(31, 10, 10))
      && !ShowsPageControls(false, false, TotalPages(|after|))
  {
  }

  class TransactionsView {
    var allTransactions: seq<Transaction>
    var filter: FilterType
    var currentPage: nat
    var isLoading: bool
    var error: Option<string>

    /** Pages count from 1. */
    ghost predicate Valid()
      reads this
    {
      currentPage >= 1
    }

    constructor ()
      ensures Valid()
      ensures allTransactions == [] && filter == All && currentPage == 1
      ensures isLoading && error == None
    {
      allTransactions, filter, currentPage := [], All, 1;
      isLoading, error := true, None;
    }

    function Filtered(): seq<Transaction>
      reads this
    {
      FilteredTransactions(filter, allTransactions)
    }

    function PageCount(): nat
      reads this
    {
      TotalPages(|Filtered()|)
    }

    function CurrentTransactions(): seq<Transaction>
      reads this
      requires Valid()
    {
      PageItems(Filtered(), currentPage)
    }

    /** `fetchData` with the outcome of the payment-list request: a list
        replaces the transactions, a failure sets the error message; the
        page and the filter are left as they are. */
    method FetchData(response: Option<seq<Transaction>>)
      modifies this`allTransactions, this`isLoading, this`error
      ensures response.Some? ==> allTransactions == response.value && error == None
      ensures response.None? ==> allTransactions == old(allTransactions) && error == Some(FetchErrorMessage)
      ensures !isLoading
    {
      isLoading := true;
      error := None;
      match response {
        case Some(list) =>
          allTransactions := list;
        case None =>
          error := Some(FetchErrorMessage);
      }
      isLoading := false;
    }

    /** `handlePreviousPage`: one page back, never below page 1. */
    method HandlePreviousPage()
      requires Valid()
      modifies this`currentPage
      ensures Valid()
      ensures currentPage == if old(currentPage) > 1 then old(currentPage) - 1 else old(currentPage)
    {
      if currentPage > 1 {
        currentPage := currentPage - 1;
      }
    }

    /** `handleNextPage`: one page forward, never past `totalPages`. */
    method HandleNextPage()
      requires Valid()
      modifies this`currentPage
      ensures Valid()
      ensures currentPage == if old(currentPage) < PageCount() then old(currentPage) + 1 else old(currentPage)
      ensures currentPage <= PageCount() || currentPage == old(currentPage)
    {
      if currentPage < PageCount() {
        currentPage := currentPage + 1;
      }
    }

    /** A click on a filter button. The reset effect runs only when the
        filter actually changes, and then returns to page 1. */
    method SetFilter(f: FilterType)
      requires Valid()
      modifies this`filter, this`currentPage
      ensures Valid()
      ensures filter == f
      ensures currentPage == if f != old(filter) then 1 else old(currentPage)
    {
      if f != filter {
        filter := f;
        currentPage := 1;
      }
    }
  }
}
