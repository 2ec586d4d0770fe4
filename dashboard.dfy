/** The "My Bookings" panel of the dashboard: three bookings per page,
    the pagination bar, and the status badge. */
module Dashboard {

  import opened Wrappers
  import opened Json
  import opened Text

  const BookingsPerPage := 3

  /** `Math.ceil(n / bookingsPerPage)`: the fewest pages of three that hold
      `n` bookings. */
  function TotalPages(n: nat): (r: nat)
    ensures r * BookingsPerPage >= n
    ensures r > 0 ==> (r - 1) * BookingsPerPage < n
    ensures r == 0 <==> n == 0
  {
    (n + BookingsPerPage - 1) / BookingsPerPage
  }

  /** `bookings.slice(indexOfFirstBooking, indexOfLastBooking)` for the
      page number `page`, where the last index is `page * 3` and the first
      is three less. */
  function PageOf<T>(bookings: seq<T>, page: int): (r: seq<T>)
  {
    var last := page * BookingsPerPage;
    Slice(bookings, last - BookingsPerPage, last)
  }

  /** Page `p` of `1..TotalPages` holds the bookings from position
      `(p - 1) * 3` up to `p * 3` or the end, one to three of them. */
  lemma PageBounds<T>(bookings: seq<T>, page: int)
    requires 1 <= page <= TotalPages(|bookings|)
    ensures var first := (page - 1) * BookingsPerPage;
      var last := if page * BookingsPerPage < |bookings| then page * BookingsPerPage else |bookings|;
      first < last && PageOf(bookings, page) == bookings[first..last]
    ensures 1 <= |PageOf(bookings, page)| <= BookingsPerPage
  {
  }

  /** Pages `1..k` laid end to end. */
  function PagesUpTo<T>(bookings: seq<T>, k: nat): seq<T> {
    if k == 0 then [] else PagesUpTo(bookings, k - 1) + PageOf(bookings, k)
  }

  /** The first `k` pages are the first `min(3k, n)` bookings. */
  lemma {:induction false} PagesUpToPrefix<T>(bookings: seq<T>, k: nat)
    requires k <= TotalPages(|bookings|)
    ensures PagesUpTo(bookings, k) ==
      bookings[..if k * BookingsPerPage < |bookings| then k * BookingsPerPage else |bookings|]
  {
    if k > 0 {
      PagesUpToPrefix(bookings, k - 1);
      PageBounds(bookings, k);
      var last := if k * BookingsPerPage < |bookings| then k * BookingsPerPage else |bookings|;
      assert bookings[..(k - 1) * BookingsPerPage] + bookings[(k - 1) * BookingsPerPage..last]
        == bookings[..last];
    }
  }

  /** The pages partition the bookings: laid end to end, pages
      `1..TotalPages` give back the whole list, in order. */
  lemma PagesPartition<T>(bookings: seq<T>)
    ensures PagesUpTo(bookings, TotalPages(|bookings|)) == bookings
  {
    PagesUpToPrefix(bookings, TotalPages(|bookings|));
    assert bookings[..|bookings|] == bookings;
  }

  /** The "previous" arrow is disabled exactly on the first page. */
  predicate PreviousDisabled(currentPage: int) {
    currentPage == 1
  }

  /** The "next" arrow is disabled exactly on the last page. */
  predicate NextDisabled(currentPage: int, totalPages: nat) {
    currentPage == totalPages
  }

  /** The bar is rendered only when there is more than one page. */
  predicate PaginationShown(totalPages: nat) {
    totalPages > 1
  }

  datatype PageButton = PageButton(number: int, highlighted: bool)

  /** The numbered buttons: `1..totalPages`, the current one highlighted. */
  function PageButtons(currentPage: int, totalPages: nat): (r: seq<PageButton>)
    ensures |r| == totalPages
    ensures forall i :: 0 <= i < totalPages ==> r[i].number == i + 1
    ensures forall i :: 0 <= i < totalPages ==> (r[i].highlighted <==> r[i].number == currentPage)
  {
    seq(totalPages, i requires 0 <= i < totalPages => PageButton(i + 1, currentPage == i + 1))
  }

  /** On a page that exists exactly one button is highlighted, the one at
      position `currentPage - 1`; on any other page none is. */
  lemma OneButtonHighlighted(currentPage: int, totalPages: nat)
    ensures var buttons := PageButtons(currentPage, totalPages);
      1 <= currentPage <= totalPages ==>
        buttons[currentPage - 1].highlighted
        && forall i :: 0 <= i < totalPages && buttons[i].highlighted ==> i == currentPage - 1
    ensures var buttons := PageButtons(currentPage, totalPages);
      !(1 <= currentPage <= totalPages) ==> forall i :: 0 <= i < totalPages ==> !buttons[i].highlighted
  {
  }

  /** The status badge: the status with its first letter capitalised. It
      still reads as the same status, ignoring case. */
  function StatusLabel(status: string): (r: string)
    ensures |r| == |status| && Lower(r) == Lower(status)
    ensures status != "" ==> r[0] == UpperChar(status[0]) && r[1..] == status[1..]
  {
    CapitalizeKeepsLetters(status);
    Capitalize(status)
  }

  /** What `carService.getUserBookings()` settles to. Only a list of
      bookings is modelled as a successful response. */
  datatype BookingsFetch = Bookings(list: seq<Json>) | Failed

  /** The state of the panel: the bookings, whether the fetch is still
      pending, and the current page. */
  class BookingsPanel {
    var bookings: seq<Json>
    var loading: bool
    var currentPage: int

    /** The current page is a page that exists (page 1 when there are no
        bookings); while loading, nothing has been fetched or paged. */
    ghost predicate Valid()
      reads this
    {
      && 1 <= currentPage
      && (currentPage == 1 || currentPage <= TotalPages(|bookings|))
      && (loading ==> bookings == [] && currentPage == 1)
    }

    /** The bookings list on screen. */
    function Shown(): (r: seq<Json>)
      reads this
      requires Valid()
      ensures loading || bookings == [] ==> r == []
      ensures !loading && bookings != [] ==> r == PageOf(bookings, currentPage) && 1 <= |r| <= BookingsPerPage
    {
      if loading || bookings == [] then []
      else
        PageBounds(bookings, currentPage);
        PageOf(bookings, currentPage)
    }

    /** Whether the pagination bar is on screen. */
    predicate BarShown()
      reads this
    {
      !loading && bookings != [] && PaginationShown(TotalPages(|bookings|))
    }

    constructor ()
      ensures Valid() && bookings == [] && loading && currentPage == 1
    {
      bookings := [];
      loading := true;
      currentPage := 1;
    }

    /** The mount effect: `setBookings(data)` on success, nothing on a
        failure, then `setLoading(false)`. It runs once, while loading. */
    method ReceiveBookings(fetched: BookingsFetch)
      requires Valid() && loading
      modifies this
      ensures Valid() && !loading && currentPage == 1
      ensures bookings == (if fetched.Bookings? then fetched.list else [])
    {
      if fetched.Bookings? {
        bookings := fetched.list;
      }
      loading := false;
    }

    /** `handlePageChange(page)`: the bar calls it only while it is shown
        and only with a page that exists. */
    method HandlePageChange(page: int)
      requires Valid() && BarShown() && 1 <= page <= TotalPages(|bookings|)
      modifies this`currentPage
      ensures Valid() && currentPage == page
    {
      currentPage := page;
    }

    /** A click on the numbered button at `index` (showing `index + 1`). */
    method ClickPageButton(index: nat)
      requires Valid() && BarShown() && index < TotalPages(|bookings|)
      modifies this`currentPage
      ensures Valid() && currentPage == PageButtons(old(currentPage), TotalPages(|bookings|))[index].number
    {
      HandlePageChange(index + 1);
    }

    /** A click on the "previous" arrow; a disabled arrow does nothing. */
    method ClickPrevious()
      requires Valid()
      modifies this`currentPage
      ensures Valid()
      ensures currentPage == (if BarShown() && !PreviousDisabled(old(currentPage))
                              then old(currentPage) - 1 else old(currentPage))
    {
      if BarShown() && !PreviousDisabled(currentPage) {
        HandlePageChange(currentPage - 1);
      }
    }

    /** A click on the "next" arrow; a disabled arrow does nothing. */
    method ClickNext()
      requires Valid()
      modifies this`currentPage
      ensures Valid()
      ensures currentPage == (if BarShown() && !NextDisabled(old(currentPage), TotalPages(|bookings|))
                              then old(currentPage) + 1 else old(currentPage))
    {
      if BarShown() && !NextDisabled(currentPage, TotalPages(|bookings|)) {
        HandlePageChange(currentPage + 1);
      }
    }
  }
}
