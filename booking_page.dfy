/** The bookings page: every booking for a librarian and the reader's own
    otherwise, paged locally, with a return action on each open booking and
    a cancel action for librarians. The shown error is an i18n key. */
module BookingPage {
  import opened Common

  datatype Booking = Booking(id: string, bookTitle: string, startDate: string, endDate: string, status: string)

  datatype Request = Get(path: string) | Delete(path: string) | Patch(path: string)

  const Returned: string := "RETURNED"
  const ItemsPerPage: nat := 10

  const LoadError: string := "bookings.loadError"
  const CancelError: string := "errors.cancelBooking"
  const ReturnError: string := "bookings.returnError"

  function BookingId(b: Booking): string { b.id }

  /** Librarians list all bookings, readers only their own. */
  function BookingsEndpoint(isLibrarian: bool): (p: string)
    ensures p == "/bookings" <==> isLibrarian
    ensures p == "/bookings/my" <==> !isLibrarian
  {
    if isLibrarian then "/bookings" else "/bookings/my"
  }

  function CancelPath(id: string): (p: string)
    ensures IsPrefix("/bookings/", p) && p[|"/bookings/"|..] == id
  {
    "/bookings/" + id
  }

  function ReturnPath(id: string): (p: string)
    ensures IsPrefix("/bookings/return/", p) && p[|"/bookings/return/"|..] == id
  {
    "/bookings/return/" + id
  }

  /** The list after a successful return: every booking with the id gets the
      status "RETURNED", and nothing else changes. */
  function MarkReturned(bookings: seq<Booking>, id: string): (r: seq<Booking>)
    ensures |r| == |bookings|
    ensures forall i :: 0 <= i < |bookings| && bookings[i].id == id ==> r[i] == bookings[i].(status := Returned)
    ensures forall i :: 0 <= i < |bookings| && bookings[i].id != id ==> r[i] == bookings[i]
  {
    MapWhereId(bookings, id, BookingId, (b: Booking) => b.(status := Returned))
  }

  /** The list after a successful cancellation. */
  function CancelBooking(bookings: seq<Booking>, id: string): (r: seq<Booking>)
    ensures forall b :: b in r <==> b in bookings && b.id != id
    ensures forall b :: multiset(r)[b] == if b.id != id then multiset(bookings)[b] else 0
    ensures IsSubsequence(r, bookings)
  {
    WithoutIdOrder(bookings, id, BookingId);
    WithoutId(bookings, id, BookingId)
  }

  /** The return button is shown on every booking not yet returned. */
  predicate ShowsReturnButton(b: Booking) {
    b.status != Returned
  }

  /** The cancel button is shown to librarians on bookings not yet returned. */
  predicate ShowsCancelButton(b: Booking, isLibrarian: bool) {
    b.status != Returned && isLibrarian
  }

  /** Returning a booking takes both buttons off it and off no other. */
  lemma {:induction false} ReturnHidesActions(bookings: seq<Booking>, id: string, isLibrarian: bool)
    ensures forall i :: 0 <= i < |bookings| && bookings[i].id == id ==>
      !ShowsReturnButton(MarkReturned(bookings, id)[i]) && !ShowsCancelButton(MarkReturned(bookings, id)[i], isLibrarian)
    ensures forall i :: 0 <= i < |bookings| && bookings[i].id != id ==>
      ShowsReturnButton(MarkReturned(bookings, id)[i]) == ShowsReturnButton(bookings[i])
  {
    var r := MarkReturned(bookings, id);
    forall i | 0 <= i < |bookings| && bookings[i].id == id
      ensures !ShowsReturnButton(r[i]) && !ShowsCancelButton(r[i], isLibrarian)
    {
      assert r[i].status == Returned;
    }
  }

  /** Returning the same booking twice leaves the list as after once. */
  lemma {:induction false} MarkReturnedIdempotent(bookings: seq<Booking>, id: string)
    ensures MarkReturned(MarkReturned(bookings, id), id) == MarkReturned(bookings, id)
  {
    var once := MarkReturned(bookings, id);
    var twice := MarkReturned(once, id);
    forall i | 0 <= i < |bookings| ensures twice[i] == once[i] {
      if bookings[i].id == id {
        assert once[i].id == id;
      } else {
        assert once[i] == bookings[i];
      }
    }
  }

  /** A return leaves every id where it was, so the paging is undisturbed. */
  lemma {:induction false} MarkReturnedKeepsIds(bookings: seq<Booking>, id: string)
    ensures forall i :: 0 <= i < |bookings| ==> MarkReturned(bookings, id)[i].id == bookings[i].id
  {
    var r := MarkReturned(bookings, id);
    forall i | 0 <= i < |bookings| ensures r[i].id == bookings[i].id {
      if bookings[i].id == id {
        assert r[i] == bookings[i].(status := Returned);
      }
    }
  }

  /** The page's state slots. */
  class BookingsPageState {
    var bookings: seq<Booking>
    var loading: bool
    var error: Option<string>
    var page: nat
    var rowsPerPage: nat

    constructor ()
      ensures bookings == [] && loading && error == None && page == 0 && rowsPerPage == ItemsPerPage
    {
      bookings := [];
      loading := true;
      error := None;
      page := 0;
      rowsPerPage := ItemsPerPage;
    }

    /** The start of loadBookings: the spinner goes on, the error is cleared
        and the list for the user's kind is asked for. */
    method BeginLoad(isLibrarian: bool) returns (request: Request)
      modifies this`loading, this`error
      ensures request == Get(BookingsEndpoint(isLibrarian))
      ensures loading && error == None
    {
      loading := true;
      error := None;
      request := Get(BookingsEndpoint(isLibrarian));
    }

    /** The end of loadBookings: the list on success, the load error on
        failure, and the spinner off in the `finally` either way. */
    method FinishLoad(outcome: ApiOutcome<seq<Booking>>)
      modifies this`bookings, this`loading, this`error
      ensures outcome.Ok? ==> bookings == outcome.value && error == old(error)
      ensures outcome.Err? ==> bookings == old(bookings) && error == Some(LoadError)
      ensures !loading
    {
      if outcome.Ok? {
        bookings := outcome.value;
      } else {
        error := Some(LoadError);
      }
      loading := false;
    }

    /** loadBookings as a whole, with the call's outcome given. */
    method LoadBookings(isLibrarian: bool, outcome: ApiOutcome<seq<Booking>>) returns (request: Request)
      modifies this`bookings, this`loading, this`error
      ensures request == Get(BookingsEndpoint(isLibrarian))
      ensures outcome.Ok? ==> bookings == outcome.value && error == None
      ensures outcome.Err? ==> bookings == old(bookings) && error == Some(LoadError)
      ensures !loading
    {
      request := BeginLoad(isLibrarian);
      FinishLoad(outcome);
    }

    /** handleCancelBooking: nothing happens unless the user confirms; a
        success drops the booking and keeps the current error. */
    method HandleCancelBooking(id: string, confirmed: bool, outcome: ApiOutcome<()>) returns (request: Option<Request>)
      modifies this`bookings, this`error
      ensures request == if confirmed then Some(Delete(CancelPath(id))) else None
      ensures !confirmed ==> bookings == old(bookings) && error == old(error)
      ensures confirmed && outcome.Ok? ==> bookings == CancelBooking(old(bookings), id) && error == old(error)
      ensures confirmed && outcome.Err? ==> bookings == old(bookings) && error == Some(CancelError)
    {
      if !confirmed {
        request := None;
        return;
      }
      request := Some(Delete(CancelPath(id)));
      if outcome.Ok? {
        bookings := CancelBooking(bookings, id);
      } else {
        error := Some(CancelError);
      }
    }

    /** handleReturnBook: no confirmation; a success marks the booking
        returned and keeps the current error. */
    method HandleReturnBook(id: string, outcome: ApiOutcome<()>) returns (request: Request)
      modifies this`bookings, this`error
      ensures request == Patch(ReturnPath(id))
      ensures outcome.Ok? ==> bookings == MarkReturned(old(bookings), id) && error == old(error)
      ensures outcome.Err? ==> bookings == old(bookings) && error == Some(ReturnError)
    {
      request := Patch(ReturnPath(id));
      if outcome.Ok? {
        bookings := MarkReturned(bookings, id);
      } else {
        error := Some(ReturnError);
      }
    }

    method HandleChangePage(newPage: nat)
      modifies this`page
      ensures page == newPage
    {
      page := newPage;
    }

    method HandleChangeRowsPerPage(rows: nat)
      modifies this`rowsPerPage, this`page
      ensures rowsPerPage == rows && page == 0
    {
      rowsPerPage := rows;
      page := 0;
    }

    /** The "no bookings" text: loaded, no error, and an empty list. */
    predicate ShowsNoBookings()
      reads this
    {
      !loading && (error.None? || error.value == "") && |bookings| == 0
    }

    /** The list and its pager: loaded, no error, and something to show. */
    predicate ShowsList()
      reads this
    {
      !loading && (error.None? || error.value == "") && |bookings| > 0
    }

    /** The cards on screen: the current page of the list, while it is shown. */
    function DisplayedBookings(): (r: seq<Booking>)
      reads this
      ensures !ShowsList() ==> r == []
      ensures ShowsList() ==> r == PageRows(bookings, page, rowsPerPage)
      ensures ShowsList() ==> |r| == if page * rowsPerPage >= |bookings| then 0
                                     else Min(rowsPerPage, |bookings| - page * rowsPerPage)
      ensures forall i :: 0 <= i < |r| ==> page * rowsPerPage + i < |bookings| && r[i] == bookings[page * rowsPerPage + i]
    {
      if ShowsList() then PageRows(bookings, page, rowsPerPage) else []
    }
  }

  /** The empty-list text and the list are never on screen together, and
      once loaded without an error one of them is. */
  lemma BodyIsExclusive(s: BookingsPageState)
    ensures !(s.ShowsNoBookings() && s.ShowsList())
    ensures !s.loading && (s.error.None? || s.error.value == "") ==> s.ShowsNoBookings() || s.ShowsList()
  {
  }
}
