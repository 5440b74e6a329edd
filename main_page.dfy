/** The catalogue page: books filtered by the `search` and `category` of the
    URL, shown one page at a time, and a booking dialog whose borrow period
    input is sanitised keystroke by keystroke. */
module MainPage {
  import opened Common
  import opened QueryParams

  datatype Book = Book(id: int, title: string, author: string, description: string, category: string)

  const ItemsPerPage: nat := 10
  const MaxBorrowDays: nat := 30

  /** A book passes when the query is empty or occurs, ignoring case, in its
      title or author, and the category is empty or equal to the book's. */
  predicate Matches(b: Book, query: string, category: string) {
    (query == "" || Contains(ToLower(b.title), ToLower(query)) || Contains(ToLower(b.author), ToLower(query))) &&
    (category == "" || b.category == category)
  }

  function FilterBooks(books: seq<Book>, query: string, category: string): (r: seq<Book>)
    ensures |r| <= |books|
    ensures forall b :: b in r <==> b in books && Matches(b, query, category)
    ensures forall b :: multiset(r)[b] == if Matches(b, query, category) then multiset(books)[b] else 0
  {
    if books == [] then []
    else
      assert books == [books[0]] + books[1..];
      if Matches(books[0], query, category) then [books[0]] + FilterBooks(books[1..], query, category)
      else FilterBooks(books[1..], query, category)
  }

  /** The filtered list keeps the catalogue's order. */
  lemma {:induction false} FilterKeepsOrder(books: seq<Book>, query: string, category: string)
    ensures IsSubsequence(FilterBooks(books, query, category), books)
  {
    if books != [] {
      FilterKeepsOrder(books[1..], query, category);
      var r := FilterBooks(books, query, category);
      if Matches(books[0], query, category) {
        assert r[0] == books[0] && r[1..] == FilterBooks(books[1..], query, category);
      } else {
        SubsequenceSkip(r, books);
      }
    }
  }

  /** With neither a query nor a category every book is shown. */
  lemma {:induction false} NoFilterShowsAll(books: seq<Book>)
    ensures FilterBooks(books, "", "") == books
  {
    if books != [] {
      NoFilterShowsAll(books[1..]);
    }
  }

  /** `value.replace(/\D/g, "")`. */
  function KeepDigits(s: string): (r: string)
    ensures AllDigits(r) && |r| <= |s|
    ensures AllDigits(s) ==> r == s
    ensures r == [] <==> forall i :: 0 <= i < |s| ==> !IsDigit(s[i])
    ensures IsSubsequence(r, s)
    ensures forall c :: multiset(r)[c] == if IsDigit(c) then multiset(s)[c] else 0
  {
    if s == [] then []
    else
      var rest := KeepDigits(s[1..]);
      KeepDigitsStep(s, rest);
      if IsDigit(s[0]) then [s[0]] + rest else rest
  }

  /** One step of KeepDigits: the first character is kept exactly when it is
      a digit, and the rest is filtered the same way. */
  lemma KeepDigitsStep(s: string, rest: string)
    requires s != []
    requires IsSubsequence(rest, s[1..])
    requires forall c :: multiset(rest)[c] == if IsDigit(c) then multiset(s[1..])[c] else 0
    ensures var r := if IsDigit(s[0]) then [s[0]] + rest else rest;
      IsSubsequence(r, s) && forall c :: multiset(r)[c] == if IsDigit(c) then multiset(s)[c] else 0
    ensures IsDigit(s[0]) ==> ([s[0]] + rest)[1..] == rest
    ensures AllDigits(s) <==> IsDigit(s[0]) && AllDigits(s[1..])
    ensures (forall i :: 0 <= i < |s| ==> !IsDigit(s[i])) <==>
            !IsDigit(s[0]) && forall i :: 0 <= i < |s[1..]| ==> !IsDigit(s[1..][i])
  {
    assert forall i :: 1 <= i < |s| ==> s[i] == s[1..][i - 1];
    assert s == [s[0]] + s[1..];
    if IsDigit(s[0]) {
      assert ([s[0]] + rest)[1..] == rest;
    } else {
      SubsequenceSkip(rest, s);
    }
  }

  /** handleBookingPeriodChange: keep the digits, at most two of them, and
      clamp a value above MaxBorrowDays to MaxBorrowDays. */
  function SanitizeBorrowPeriod(input: string): (r: string)
    ensures AllDigits(r) && |r| <= 2
    ensures r != "" ==> ParseDigits(r) <= MaxBorrowDays
    ensures r == "" <==> forall i :: 0 <= i < |input| ==> !IsDigit(input[i])
    ensures |r| == Min(2, |KeepDigits(input)|)
    ensures r == KeepDigits(input)[..|r|] ||
            (r == "30" && |KeepDigits(input)| >= 2 && ParseDigits(KeepDigits(input)[..2]) > MaxBorrowDays)
    ensures |KeepDigits(input)| >= 2 && ParseDigits(KeepDigits(input)[..2]) > MaxBorrowDays ==> r == "30"
  {
    ClampDigits(KeepDigits(input))
  }

  /** The sanitising after the digits are kept: the first two, replaced by
      "30" when they read above it. */
  function ClampDigits(digits: string): (r: string)
    requires AllDigits(digits)
    ensures AllDigits(r) && |r| == Min(2, |digits|)
    ensures r != "" ==> ParseDigits(r) <= MaxBorrowDays
    ensures r == digits[..|r|] || (r == "30" && |digits| >= 2 && ParseDigits(digits[..2]) > MaxBorrowDays)
    ensures |digits| >= 2 && ParseDigits(digits[..2]) > MaxBorrowDays ==> r == "30"
  {
    var short := if |digits| > 2 then digits[..2] else digits;
    assert |digits| >= 2 ==> short == digits[..2];
    ClampText();
    OneDigitBound(short);
    if |short| > 0 && ParseDigits(short) > MaxBorrowDays then NatToString(MaxBorrowDays) else short
  }

  /** The clamp value as text: "30", which reads back as 30. */
  lemma ClampText()
    ensures NatToString(MaxBorrowDays) == "30" && ParseDigits("30") == MaxBorrowDays
  {
    ParseNatToString(MaxBorrowDays);
    assert NatToString(3) == "3";
  }

  /** A single digit is at most 9. */
  lemma OneDigitBound(s: string)
    requires AllDigits(s)
    ensures |s| == 1 ==> ParseDigits(s) <= 9
  {
    if |s| == 1 {
      assert s[..0] == [];
    }
  }

  /** Sanitising a sanitised period changes nothing. */
  lemma SanitizeIdempotent(input: string)
    ensures SanitizeBorrowPeriod(SanitizeBorrowPeriod(input)) == SanitizeBorrowPeriod(input)
  {
  }

  /** A period of one or two digits within the limit is kept as typed. */
  lemma SanitizeKeepsValidPeriod(input: string)
    requires AllDigits(input) && |input| <= 2
    requires input != "" ==> ParseDigits(input) <= MaxBorrowDays
    ensures SanitizeBorrowPeriod(input) == input
  {
  }

  /** The page's state slots. `books` is the catalogue the page was built with. */
  class MainPageState {
    const books: seq<Book>
    var rowsPerPage: nat
    var page: nat
    var filteredBooks: seq<Book>
    var bookingType: string
    var bookingPeriod: string
    var selectedBook: Option<Book>
    var openModal: bool

    constructor (catalogue: seq<Book>)
      ensures books == catalogue && filteredBooks == catalogue
      ensures rowsPerPage == ItemsPerPage && page == 0
      ensures bookingType == "inside" && bookingPeriod == "" && selectedBook == None && !openModal
    {
      books := catalogue;
      rowsPerPage := ItemsPerPage;
      page := 0;
      filteredBooks := catalogue;
      bookingType := "inside";
      bookingPeriod := "";
      selectedBook := None;
      openModal := false;
    }

    /** The effect keyed on `location.search`: refilter the catalogue by the
        URL's `search` and `category` (missing ones read as ""). */
    method OnSearchChange(search: Params)
      modifies this`filteredBooks
      ensures filteredBooks == FilterBooks(books, GetParam(search, "search").GetOr(""), GetParam(search, "category").GetOr(""))
    {
      var query := GetParam(search, "search").GetOr("");
      var category := GetParam(search, "category").GetOr("");
      filteredBooks := FilterBooks(books, query, category);
    }

    /** The slice of the filtered list on screen. */
    function DisplayedBooks(): (r: seq<Book>)
      reads this
      ensures r == PageRows(filteredBooks, page, rowsPerPage)
      ensures |r| == if page * rowsPerPage >= |filteredBooks| then 0
                     else Min(rowsPerPage, |filteredBooks| - page * rowsPerPage)
      ensures forall i :: 0 <= i < |r| ==> r[i] == filteredBooks[page * rowsPerPage + i]
    {
      PageRows(filteredBooks, page, rowsPerPage)
    }

    /** The "no results" text replaces the list exactly when nothing matched. */
    predicate ShowsNoResults()
      reads this
    {
      |filteredBooks| == 0
    }

    method HandleChangePage(newPage: nat)
      modifies this`page
      ensures page == newPage
    {
      page := newPage;
    }

    /** A new page size always returns to the first page. */
    method HandleChangeRowsPerPage(rows: nat)
      modifies this`rowsPerPage, this`page
      ensures rowsPerPage == rows && page == 0
    {
      rowsPerPage := rows;
      page := 0;
    }

    method HandleBookingTypeChange(value: string)
      modifies this`bookingType
      ensures bookingType == value
    {
      bookingType := value;
    }

    method HandleBookingPeriodChange(value: string)
      modifies this`bookingPeriod
      ensures bookingPeriod == SanitizeBorrowPeriod(value)
      ensures AllDigits(bookingPeriod) && |bookingPeriod| <= 2
      ensures bookingPeriod != "" ==> ParseDigits(bookingPeriod) <= MaxBorrowDays
    {
      bookingPeriod := SanitizeBorrowPeriod(value);
    }

    method HandleBookSelection(book: Book)
      modifies this`selectedBook, this`openModal
      ensures selectedBook == Some(book) && openModal
    {
      selectedBook := Some(book);
      openModal := true;
    }

    method HandleCloseModal()
      modifies this`openModal
      ensures !openModal
    {
      openModal := false;
    }
  }
}
