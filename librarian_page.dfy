/** The librarian's book management page: a server-paged list of books read
    with the URL's `search` and `category`, and a dialog that creates or
    edits a book, whose result is applied to the page's local copy. */
module LibrarianPage {
  import opened Common
  import Q = QueryParams

  datatype Category = Category(id: string, titleRu: string, titleKk: string, titleEn: string)
  datatype Location = Location(id: string, floor: string, room: string, row: string, shelf: string)

  datatype Book = Book(id: string, title: string, authors: seq<string>, description: string,
                       year: int, quantity: int, categoryId: string, locationId: string)

  /** A book without its id: the body the page sends with PUT and POST. */
  datatype BookData = BookData(title: string, authors: seq<string>, description: string,
                               year: int, quantity: int, categoryId: string, locationId: string)

  /** One page of books as the server returns it. */
  datatype BooksResponse = BooksResponse(books: seq<Book>, total: int)

  /** The calls the page makes on the books endpoint. */
  datatype BookRequest = UpdateBook(id: string, data: BookData) | CreateBook(data: BookData) | DeleteBook(id: string)

  /** A change in one of the dialog's plain input fields. */
  datatype BookInput = TitleInput(title: string) | DescriptionInput(description: string)
                     | YearInput(year: int) | QuantityInput(quantity: int)

  function BookId(b: Book): string { b.id }
  function CategoryId(c: Category): string { c.id }
  function LocationId(l: Location): string { l.id }

  /** The blank draft: no id, one copy, no category and no location. */
  function EmptyBook(currentYear: int): (b: Book)
    ensures b.id == "" && b.quantity == 1 && b.categoryId == "" && b.locationId == ""
    ensures b.title == "" && b.authors == [] && b.description == "" && b.year == currentYear
  {
    Book("", "", [], "", currentYear, 1, "", "")
  }

  /** `const { id, ...bookData } = newBook`. */
  function DataOf(b: Book): BookData {
    BookData(b.title, b.authors, b.description, b.year, b.quantity, b.categoryId, b.locationId)
  }

  /** `{ ...book, ...bookData }`: every field from the data, the id from the book. */
  function WithData(book: Book, data: BookData): (r: Book)
    ensures r.id == book.id && DataOf(r) == data
  {
    Book(book.id, data.title, data.authors, data.description, data.year, data.quantity, data.categoryId, data.locationId)
  }

  /** The list after a successful update of `draft`: each book with the
      draft's id takes the draft's data. */
  function MergeEdited(books: seq<Book>, draft: Book): (r: seq<Book>)
    ensures |r| == |books|
    ensures forall i :: 0 <= i < |books| ==> r[i].id == books[i].id
    ensures forall i :: 0 <= i < |books| && books[i].id == draft.id ==> r[i] == draft
    ensures forall i :: 0 <= i < |books| && books[i].id != draft.id ==> r[i] == books[i]
  {
    MapWhereId(books, draft.id, BookId, (b: Book) => WithData(b, DataOf(draft)))
  }

  /** The list after a successful delete. */
  function RemoveBook(books: seq<Book>, id: string): (r: seq<Book>)
    ensures forall b :: b in r <==> b in books && b.id != id
    ensures forall b :: multiset(r)[b] == if b.id != id then multiset(books)[b] else 0
    ensures IsSubsequence(r, books)
  {
    WithoutIdOrder(books, id, BookId);
    WithoutId(books, id, BookId)
  }

  /** The URL's `search` and `category`, "" when missing. */
  function UrlSearch(search: Q.Params): string { Q.GetParam(search, "search").GetOr("") }
  function UrlCategory(search: Q.Params): string { Q.GetParam(search, "category").GetOr("") }

  /** `new URLSearchParams({ search, category, page, limit })`. */
  function BooksQuery(search: string, category: string, page: nat, rowsPerPage: nat): (q: Q.Params)
    ensures |q| == 4
  {
    [("search", search), ("category", category), ("page", NatToString(page)), ("limit", NatToString(rowsPerPage))]
  }

  /** The query names exactly the four parameters, and reading them back
      gives the search text, the category, the page and the page size. */
  lemma BooksQueryCarries(search: string, category: string, page: nat, rowsPerPage: nat)
    ensures var q := BooksQuery(search, category, page, rowsPerPage);
      q[0].0 == "search" && q[1].0 == "category" && q[2].0 == "page" && q[3].0 == "limit"
    ensures var q := BooksQuery(search, category, page, rowsPerPage);
      Q.GetParam(q, "search") == Some(search) && Q.GetParam(q, "category") == Some(category)
    ensures var q := BooksQuery(search, category, page, rowsPerPage);
      Q.GetParam(q, "page") == Some(NatToString(page)) && ParseDigits(NatToString(page)) == page
    ensures var q := BooksQuery(search, category, page, rowsPerPage);
      Q.GetParam(q, "limit") == Some(NatToString(rowsPerPage)) && ParseDigits(NatToString(rowsPerPage)) == rowsPerPage
  {
    var q := BooksQuery(search, category, page, rowsPerPage);
    assert q[1..][1..][1..] == [("limit", NatToString(rowsPerPage))];
    ParseNatToString(page);
    ParseNatToString(rowsPerPage);
  }

  /** Each piece of a comma-separated list, trimmed. */
  function TrimAll(pieces: seq<string>): (r: seq<string>)
    ensures |r| == |pieces|
    ensures forall i :: 0 <= i < |r| ==> r[i] == Trim(pieces[i])
  {
    if pieces == [] then [] else [Trim(pieces[0])] + TrimAll(pieces[1..])
  }

  /** handleAuthorsChange: `value.split(",").map(a => a.trim())`, one entry
      more than there are commas. */
  function SplitAuthors(input: string): (r: seq<string>)
    ensures |r| == CountChar(input, ',') + 1 && |r| == |Split(input, ',')|
    ensures forall i :: 0 <= i < |r| ==> r[i] == Trim(Split(input, ',')[i])
  {
    SplitCount(input, ',');
    TrimAll(Split(input, ','))
  }

  /** No author entry holds a comma or starts or ends with whitespace. */
  lemma AuthorsAreClean(input: string)
    ensures forall i :: 0 <= i < |SplitAuthors(input)| ==> ',' !in SplitAuthors(input)[i]
    ensures forall i :: 0 <= i < |SplitAuthors(input)| ==>
      var a := SplitAuthors(input)[i]; a == [] || (!IsSpace(a[0]) && !IsSpace(a[|a| - 1]))
  {
    var pieces := Split(input, ',');
    var r := SplitAuthors(input);
    forall i | 0 <= i < |r|
      ensures ',' !in r[i]
      ensures r[i] == [] || (!IsSpace(r[i][0]) && !IsSpace(r[i][|r[i]| - 1]))
    {
      TrimOmits(pieces[i], ',');
    }
  }

  /** getCategoryTitle: the title in the current language ("kk", "en", and
      Russian for anything else) of the first category with the id, "" if
      there is none. */
  function CategoryTitle(categories: seq<Category>, language: string, id: string): (r: string)
    ensures (forall c :: c in categories ==> c.id != id) ==> r == ""
    ensures forall i :: 0 <= i < |categories| && categories[i].id == id &&
                        (forall j :: 0 <= j < i ==> categories[j].id != id) ==>
      r == (if language == "kk" then categories[i].titleKk
            else if language == "en" then categories[i].titleEn else categories[i].titleRu)
  {
    match FindById(categories, id, CategoryId)
    case None => ""
    case Some(c) => if language == "kk" then c.titleKk else if language == "en" then c.titleEn else c.titleRu
  }

  /** getLocationTitle: "floor, room, row, shelf" of the first location with
      the id, "" if there is none. */
  function LocationTitle(locations: seq<Location>, id: string): (r: string)
    ensures (forall l :: l in locations ==> l.id != id) ==> r == ""
    ensures forall i :: 0 <= i < |locations| && locations[i].id == id &&
                        (forall j :: 0 <= j < i ==> locations[j].id != id) ==>
      r == locations[i].floor + ", " + locations[i].room + ", " + locations[i].row + ", " + locations[i].shelf
  {
    match FindById(locations, id, LocationId)
    case None => ""
    case Some(l) => l.floor + ", " + l.room + ", " + l.row + ", " + l.shelf
  }

  /** The page's state slots. `currentYear` is read when the page's code loads
      and fixes the blank draft. */
  class LibrarianPageState {
    const currentYear: int
    var books: seq<Book>
    var categories: seq<Category>
    var locations: seq<Location>
    var newBook: Book
    var openModal: bool
    var page: nat
    var rowsPerPage: nat
    var total: int

    constructor (currentYear: int)
      ensures this.currentYear == currentYear && newBook == EmptyBook(currentYear)
      ensures books == [] && categories == [] && locations == [] && total == 0
      ensures !openModal && page == 0 && rowsPerPage == 10
    {
      this.currentYear := currentYear;
      newBook := EmptyBook(currentYear);
      books, categories, locations := [], [], [];
      openModal := false;
      page, rowsPerPage, total := 0, 10, 0;
    }

    /** fetchBooks: ask for the current page with the URL's filters; a failed
        call leaves the list and the total as they were. */
    method FetchBooks(search: Q.Params, outcome: ApiOutcome<BooksResponse>) returns (query: Q.Params)
      modifies this`books, this`total
      ensures query == BooksQuery(UrlSearch(search), UrlCategory(search), page, rowsPerPage)
      ensures outcome.Ok? ==> books == outcome.value.books && total == outcome.value.total
      ensures outcome.Err? ==> books == old(books) && total == old(total)
    {
      query := BooksQuery(UrlSearch(search), UrlCategory(search), page, rowsPerPage);
      if outcome.Ok? {
        books := outcome.value.books;
        total := outcome.value.total;
      }
    }

    method LoadCategories(outcome: ApiOutcome<seq<Category>>)
      modifies this`categories
      ensures categories == if outcome.Ok? then outcome.value else old(categories)
    {
      if outcome.Ok? {
        categories := outcome.value;
      }
    }

    method LoadLocations(outcome: ApiOutcome<seq<Location>>)
      modifies this`locations
      ensures locations == if outcome.Ok? then outcome.value else old(locations)
    {
      if outcome.Ok? {
        locations := outcome.value;
      }
    }

    method HandleChangePage(newPage: nat)
      modifies this`page
      ensures page == newPage
    {
      page := newPage;
    }

    method HandleChangeRowsPerPage(rows: nat)
      modifies this`rowsPerPage, this`page
      ensures rowsPerPage == rows && page == 0
    {
      rowsPerPage := rows;
      page := 0;
    }

    method HandleInputChange(input: BookInput)
      modifies this`newBook
      ensures newBook == match input
        case TitleInput(t) => old(newBook).(title := t)
        case DescriptionInput(d) => old(newBook).(description := d)
        case YearInput(y) => old(newBook).(year := y)
        case QuantityInput(n) => old(newBook).(quantity := n)
    {
      match input
      case TitleInput(t) => newBook := newBook.(title := t);
      case DescriptionInput(d) => newBook := newBook.(description := d);
      case YearInput(y) => newBook := newBook.(year := y);
      case QuantityInput(n) => newBook := newBook.(quantity := n);
    }

    method HandleAuthorsChange(input: string)
      modifies this`newBook
      ensures newBook == old(newBook).(authors := SplitAuthors(input))
    {
      newBook := newBook.(authors := SplitAuthors(input));
    }

    method HandleCategoryChange(id: string)
      modifies this`newBook
      ensures newBook == old(newBook).(categoryId := id)
    {
      newBook := newBook.(categoryId := id);
    }

    method HandleLocationChange(id: string)
      modifies this`newBook
      ensures newBook == old(newBook).(locationId := id)
    {
      newBook := newBook.(locationId := id);
    }

    method HandleEditBook(book: Book)
      modifies this`newBook, this`openModal
      ensures newBook == book && openModal
    {
      newBook := book;
      openModal := true;
    }

    /** Opening the dialog to add a book starts from the blank draft. */
    method HandleOpenModal()
      modifies this`newBook, this`openModal
      ensures newBook == EmptyBook(currentYear) && openModal
      ensures newBook.id == "" && newBook.quantity == 1 && newBook.categoryId == "" && newBook.locationId == ""
    {
      newBook := EmptyBook(currentYear);
      openModal := true;
    }

    method HandleCloseModal()
      modifies this`openModal
      ensures !openModal
    {
      openModal := false;
    }

    /** handleSaveBook. Without a category or a location nothing is sent and
        nothing changes. Otherwise a draft with an id is sent as an update and
        merged into the list by id, and a draft without one is sent as a
        creation and the server's record appended; after either success the
        dialog closes, after a failure nothing changes. */
    method HandleSaveBook(outcome: ApiOutcome<Book>) returns (request: Option<BookRequest>)
      modifies this`books, this`openModal
      ensures newBook == old(newBook)
      ensures newBook.categoryId == "" || newBook.locationId == "" ==>
                request == None && books == old(books) && openModal == old(openModal)
      ensures newBook.categoryId != "" && newBook.locationId != "" ==>
                request == Some(if newBook.id != "" then UpdateBook(newBook.id, DataOf(newBook)) else CreateBook(DataOf(newBook)))
      ensures request.Some? && outcome.Ok? ==> !openModal
      ensures request.Some? && outcome.Ok? && newBook.id != "" ==> books == MergeEdited(old(books), newBook)
      ensures request.Some? && outcome.Ok? && newBook.id == "" ==> books == old(books) + [outcome.value]
      ensures outcome.Err? ==> books == old(books) && openModal == old(openModal)
    {
      if newBook.categoryId == "" || newBook.locationId == "" {
        request := None;
        return;
      }
      var bookData := DataOf(newBook);
      if newBook.id != "" {
        request := Some(UpdateBook(newBook.id, bookData));
        if outcome.Err? {
          return;
        }
        books := MergeEdited(books, newBook);
      } else {
        request := Some(CreateBook(bookData));
        if outcome.Err? {
          return;
        }
        books := books + [outcome.value];
      }
      openModal := false;
    }

    /** handleDeleteBook: nothing happens unless the librarian confirms; the
        book leaves the list only when the server call succeeds. */
    method HandleDeleteBook(id: string, confirmed: bool, outcome: ApiOutcome<()>) returns (request: Option<BookRequest>)
      modifies this`books
      ensures request == if confirmed then Some(DeleteBook(id)) else None
      ensures books == if confirmed && outcome.Ok? then RemoveBook(old(books), id) else old(books)
    {
      if !confirmed {
        request := None;
        return;
      }
      request := Some(DeleteBook(id));
      if outcome.Ok? {
        books := RemoveBook(books, id);
      }
    }
  }

  /** Saving a draft opened from a list whose ids are distinct, without
      touching it, leaves the list as it was. */
  lemma SaveUntouchedKeepsList(books: seq<Book>, k: nat)
    requires k < |books|
    requires forall i, j :: 0 <= i < j < |books| ==> books[i].id != books[j].id
    ensures MergeEdited(books, books[k]) == books
  {
    var r := MergeEdited(books, books[k]);
    forall i | 0 <= i < |books| ensures r[i] == books[i] {
      if i != k {
        assert books[i].id != books[k].id;
      }
    }
  }
}
