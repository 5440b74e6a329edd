/** The header bar: a search box and a category menu that rewrite the query
    string of the current location, on "/admin" or on "/". */
module Header {
  import opened Common
  import opened QueryParams

  /** The path the header navigates to: "/admin" when the current path starts
      with "/admin", else "/". */
  function TargetPath(pathname: string): (p: string)
    ensures p == "/admin" <==> IsPrefix("/admin", pathname)
    ensures p == "/" <==> !IsPrefix("/admin", pathname)
  {
    if IsPrefix("/admin", pathname) then "/admin" else "/"
  }

  /** `Boolean(searchQuery || params.get("category"))`. */
  function IsFilteredBy(searchQuery: string, search: Params): (r: bool)
    ensures r <==> searchQuery != "" || GetParam(search, "category").GetOr("") != ""
  {
    searchQuery != "" || GetParam(search, "category").GetOr("") != ""
  }

  /** The query a search submits: `search` set to the text when the text is
      non-empty, otherwise the current query unchanged; the pairs with other
      names are kept as they were, in order. */
  function SearchQueryFor(searchQuery: string, search: Params): (q: Params)
    ensures searchQuery == "" ==> q == search
    ensures searchQuery != "" ==> GetParam(q, "search") == Some(searchQuery)
    ensures forall k :: k != "search" ==> GetParam(q, k) == GetParam(search, k)
    ensures WithoutKey(q, "search") == WithoutKey(search, "search")
  {
    if searchQuery == "" then search
    else
      SetKeepsOtherPairs(search, "search", searchQuery);
      GetAfterSet(search, "search", searchQuery);
      forall k | k != "search"
        ensures GetParam(SetParam(search, "search", searchQuery), k) == GetParam(search, k)
      {
        SetKeepsOtherKeys(search, "search", searchQuery, k);
      }
      SetParam(search, "search", searchQuery)
  }

  /** The query a category pick submits: `category` set once, and the pairs
      with other names kept as they were, in order. */
  function CategoryQueryFor(category: string, search: Params): (q: Params)
    ensures GetParam(q, "category") == Some(category)
    ensures CountKey(q, "category") == 1
    ensures forall k :: k != "category" ==> GetParam(q, k) == GetParam(search, k)
    ensures WithoutKey(q, "category") == WithoutKey(search, "category")
  {
    SetKeepsOtherPairs(search, "category", category);
    GetAfterSet(search, "category", category);
    SetLeavesOnePair(search, "category", category);
    forall k | k != "category"
      ensures GetParam(SetParam(search, "category", category), k) == GetParam(search, k)
    {
      SetKeepsOtherKeys(search, "category", category, k);
    }
    SetParam(search, "category", category)
  }

  /** Picking a non-empty category makes the header show its clear control. */
  lemma {:induction false} CategoryPickFilters(searchQuery: string, category: string, search: Params)
    requires category != ""
    ensures IsFilteredBy(searchQuery, CategoryQueryFor(category, search))
  {
    assert GetParam(CategoryQueryFor(category, search), "category") == Some(category);
  }

  /** A search leaves the category filter of the location as it was. */
  lemma {:induction false} SearchKeepsCategory(searchQuery: string, search: Params)
    ensures GetParam(SearchQueryFor(searchQuery, search), "category") == GetParam(search, "category")
  {
    assert "category" != "search";
  }

  /** Paths that merely begin with "/admin" are also treated as the admin area. */
  lemma AdminPrefixIsTextual()
    ensures TargetPath("/admin") == "/admin"
    ensures TargetPath("/administrator") == "/admin"
    ensures TargetPath("/librarian") == "/"
  {
    assert "/administrator"[..6] == "/admin";
    assert "/librarian"[1] != "/admin"[1];
  }

  /** The header's own state slots: the search text and whether the category
      menu is open (`menuAnchor` is non-null). */
  class HeaderState {
    var searchQuery: string
    var menuOpen: bool

    constructor ()
      ensures searchQuery == "" && !menuOpen
    {
      searchQuery := "";
      menuOpen := false;
    }

    function IsFiltered(location: Location): (r: bool)
      reads this
      ensures r <==> searchQuery != "" || GetParam(location.search, "category").GetOr("") != ""
    {
      IsFilteredBy(searchQuery, location.search)
    }

    method HandleSearchChange(value: string)
      modifies this`searchQuery
      ensures searchQuery == value
    {
      searchQuery := value;
    }

    method HandleMenuOpen()
      modifies this`menuOpen
      ensures menuOpen
    {
      menuOpen := true;
    }

    method HandleMenuClose()
      modifies this`menuOpen
      ensures !menuOpen
    {
      menuOpen := false;
    }

    /** Empties the search text and goes to the bare path, with no query. */
    method HandleClearSearch(location: Location) returns (nav: Destination)
      modifies this`searchQuery
      ensures searchQuery == ""
      ensures nav == Destination(TargetPath(location.pathname), None)
    {
      searchQuery := "";
      nav := Destination(TargetPath(location.pathname), None);
    }

    /** Sets `category` in a copy of the current query, navigates there and
      closes the menu. */
    method HandleCategorySelect(location: Location, category: string) returns (nav: Destination)
      modifies this`menuOpen
      ensures !menuOpen
      ensures nav == Destination(TargetPath(location.pathname), Some(CategoryQueryFor(category, location.search)))
    {
      var params := new SearchParams(location.search);
      params.Set("category", category);
      nav := Destination(TargetPath(location.pathname), Some(params.pairs));
      menuOpen := false;
    }

    /** Changes nothing in the header; navigates to the current query with
      `search` set when there is search text. */
    method HandleSearch(location: Location) returns (nav: Destination)
      ensures nav.path == TargetPath(location.pathname)
      ensures nav.query == Some(SearchQueryFor(searchQuery, location.search))
    {
      var params := new SearchParams(location.search);
      if searchQuery != "" {
        params.Set("search", searchQuery);
      }
      nav := Destination(TargetPath(location.pathname), Some(params.pairs));
    }

    /** Only the Enter key submits the search. */
    method HandleSearchKeyDown(location: Location, key: string) returns (nav: Option<Destination>)
      ensures nav.Some? <==> key == "Enter"
      ensures nav.Some? ==> nav.value == Destination(TargetPath(location.pathname),
                                                     Some(SearchQueryFor(searchQuery, location.search)))
    {
      if key == "Enter" {
        var d := HandleSearch(location);
        nav := Some(d);
      } else {
        nav := None;
      }
    }
  }
}
