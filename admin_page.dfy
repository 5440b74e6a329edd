/** The administrator's page: the category and location tables, loaded once,
    edited row by row and extended by a draft row, each change mirrored in
    the page's local lists only once the server call succeeds. The shown
    error is the i18n key of the last failure. */
module AdminPage {
  import opened Common

  /** A record of either table: its id and its string fields. */
  datatype Item = Item(id: string, fields: map<string, string>)

  type Fields = map<string, string>

  datatype Request =
    | Get(path: string)
    | Post(path: string, draft: Fields)
    | Put(path: string, record: Item)
    | Delete(path: string)

  const CategoriesKind: string := "categories"
  const LocationsKind: string := "locations"

  const FetchCategoriesFailed: string := "error.fetchCategoriesFailed"
  const FetchLocationsFailed: string := "error.fetchLocationsFailed"
  const AddCategoryFailed: string := "error.addCategoryFailed"
  const AddLocationFailed: string := "error.addLocationFailed"
  const UpdateFailed: string := "error.updateFailed"
  const DeleteFailed: string := "error.deleteFailed"

  function ItemId(x: Item): string { x.id }

  /** The draft a new category row starts from. */
  function BlankCategory(): (d: Fields)
    ensures d.Keys == {"name", "titleRu", "titleKk", "titleEn"}
    ensures forall k :: k in d ==> d[k] == ""
  {
    map["name" := "", "titleRu" := "", "titleKk" := "", "titleEn" := ""]
  }

  /** The draft a new location row starts from. */
  function BlankLocation(): (d: Fields)
    ensures d.Keys == {"floor", "room", "row", "shelf"}
    ensures forall k :: k in d ==> d[k] == ""
  {
    map["floor" := "", "room" := "", "row" := "", "shelf" := ""]
  }

  /** `/${type}/${id}`. */
  function ItemPath(kind: string, id: string): (p: string)
    ensures |p| == |kind| + |id| + 2 && p[0] == '/'
  {
    "/" + kind + "/" + id
  }

  /** The path carries the kind and the id as its two segments, so long as
      neither holds a '/'. */
  lemma ItemPathSegments(kind: string, id: string)
    requires '/' !in kind && '/' !in id
    ensures Split(ItemPath(kind, id), '/') == ["", kind, id]
  {
    assert ItemPath(kind, id) == [] + ['/'] + (kind + ['/'] + id);
    SplitAfterPiece([], kind + ['/'] + id, '/');
    SplitAfterPiece(kind, id, '/');
    SplitNoSep(id, '/');
  }

  /** `items.map(item => item.id === id ? record : item)`: the whole record
      replaces every entry with the id. */
  function ReplaceById(items: seq<Item>, id: string, record: Item): (r: seq<Item>)
    ensures |r| == |items|
    ensures forall i :: 0 <= i < |items| && items[i].id == id ==> r[i] == record
    ensures forall i :: 0 <= i < |items| && items[i].id != id ==> r[i] == items[i]
  {
    MapWhereId(items, id, ItemId, (x: Item) => record)
  }

  /** `items.filter(item => item.id !== id)`. */
  function RemoveById(items: seq<Item>, id: string): (r: seq<Item>)
    ensures forall x :: x in r <==> x in items && x.id != id
    ensures forall x :: multiset(r)[x] == if x.id != id then multiset(items)[x] else 0
    ensures IsSubsequence(r, items)
  {
    WithoutIdOrder(items, id, ItemId);
    WithoutId(items, id, ItemId)
  }

  /** A saved record that keeps its id keeps the list's ids as they were. */
  lemma {:induction false} ReplaceKeepsIds(items: seq<Item>, id: string, record: Item)
    requires record.id == id
    ensures forall i :: 0 <= i < |items| ==> ReplaceById(items, id, record)[i].id == items[i].id
  {
    var r := ReplaceById(items, id, record);
    forall i | 0 <= i < |items| ensures r[i].id == items[i].id {
      if items[i].id == id {
        assert r[i] == record;
      }
    }
  }

  /** Removing an id that is not in the list changes nothing. */
  lemma RemoveAbsentId(items: seq<Item>, id: string)
    requires forall x :: x in items ==> x.id != id
    ensures RemoveById(items, id) == items
  {
    WithoutIdOrder(items, id, ItemId);
  }

  /** The error after the initial load: a failed locations call overwrites a
      failed categories call, and two successes keep what was shown. */
  function LoadError(previous: Option<string>, categoriesFailed: bool, locationsFailed: bool): (r: Option<string>)
    ensures locationsFailed ==> r == Some(FetchLocationsFailed)
    ensures !locationsFailed && categoriesFailed ==> r == Some(FetchCategoriesFailed)
    ensures !locationsFailed && !categoriesFailed ==> r == previous
  {
    if locationsFailed then Some(FetchLocationsFailed)
    else if categoriesFailed then Some(FetchCategoriesFailed)
    else previous
  }

  /** The page's state slots. */
  class AdminPageState {
    var categories: seq<Item>
    var locations: seq<Item>
    var loading: bool
    var error: Option<string>
    var editingId: Option<string>
    var editedData: Option<Item>
    var newCategory: Option<Fields>
    var newLocation: Option<Fields>

    /** A row is only in edit mode once `handleEdit` has filled the edited
        data, and the data is never cleared afterwards. */
    ghost predicate Valid()
      reads this
    {
      editingId.Some? ==> editedData.Some?
    }

    constructor ()
      ensures Valid()
      ensures categories == [] && locations == [] && loading && error == None
      ensures editingId == None && editedData == None && newCategory == None && newLocation == None
    {
      categories, locations := [], [];
      loading := true;
      error := None;
      editingId, editedData := None, None;
      newCategory, newLocation := None, None;
    }

    /** fetchData: the two lists are asked for one after the other; each
        failure sets its own key, and the spinner stops whatever happens. */
    method FetchData(categoriesOutcome: ApiOutcome<seq<Item>>, locationsOutcome: ApiOutcome<seq<Item>>)
      returns (requests: seq<Request>)
      modifies this`categories, this`locations, this`error, this`loading
      ensures requests == [Get("/" + CategoriesKind), Get("/" + LocationsKind)]
      ensures categories == if categoriesOutcome.Ok? then categoriesOutcome.value else old(categories)
      ensures locations == if locationsOutcome.Ok? then locationsOutcome.value else old(locations)
      ensures error == LoadError(old(error), categoriesOutcome.Err?, locationsOutcome.Err?)
      ensures !loading
    {
      requests := [Get("/" + CategoriesKind), Get("/" + LocationsKind)];
      if categoriesOutcome.Ok? {
        categories := categoriesOutcome.value;
      } else {
        error := Some(FetchCategoriesFailed);
      }
      if locationsOutcome.Ok? {
        locations := locationsOutcome.value;
      } else {
        error := Some(FetchLocationsFailed);
      }
      loading := false;
    }

    /** handleSaveCategory: without a draft nothing is sent; a saved category
        is appended as the server returned it and the draft row goes away. */
    method HandleSaveCategory(outcome: ApiOutcome<Item>) returns (request: Option<Request>)
      modifies this`categories, this`newCategory, this`error
      ensures old(newCategory).None? ==> request == None && categories == old(categories) &&
                                         newCategory == None && error == old(error)
      ensures old(newCategory).Some? ==> request == Some(Post("/" + CategoriesKind, old(newCategory).value))
      ensures old(newCategory).Some? && outcome.Ok? ==>
                categories == old(categories) + [outcome.value] && newCategory == None && error == old(error)
      ensures old(newCategory).Some? && outcome.Err? ==>
                categories == old(categories) && newCategory == old(newCategory) && error == Some(AddCategoryFailed)
    {
      if newCategory.None? {
        request := None;
        return;
      }
      request := Some(Post("/" + CategoriesKind, newCategory.value));
      if outcome.Ok? {
        categories := categories + [outcome.value];
        newCategory := None;
      } else {
        error := Some(AddCategoryFailed);
      }
    }

    /** handleSaveLocation, the same for the locations table. */
    method HandleSaveLocation(outcome: ApiOutcome<Item>) returns (request: Option<Request>)
      modifies this`locations, this`newLocation, this`error
      ensures old(newLocation).None? ==> request == None && locations == old(locations) &&
                                         newLocation == None && error == old(error)
      ensures old(newLocation).Some? ==> request == Some(Post("/" + LocationsKind, old(newLocation).value))
      ensures old(newLocation).Some? && outcome.Ok? ==>
                locations == old(locations) + [outcome.value] && newLocation == None && error == old(error)
      ensures old(newLocation).Some? && outcome.Err? ==>
                locations == old(locations) && newLocation == old(newLocation) && error == Some(AddLocationFailed)
    {
      if newLocation.None? {
        request := None;
        return;
      }
      request := Some(Post("/" + LocationsKind, newLocation.value));
      if outcome.Ok? {
        locations := locations + [outcome.value];
        newLocation := None;
      } else {
        error := Some(AddLocationFailed);
      }
    }

    method HandleEdit(id: string, data: Item)
      modifies this`editingId, this`editedData
      ensures editingId == Some(id) && editedData == Some(data)
      ensures Valid()
    {
      editingId := Some(id);
      editedData := Some(data);
    }

    /** A keystroke in one of the edited row's fields. */
    method EditField(name: string, value: string)
      requires editedData.Some?
      modifies this`editedData
      ensures editedData == Some(old(editedData).value.(fields := old(editedData).value.fields[name := value]))
      ensures Valid() == old(Valid())
    {
      editedData := Some(editedData.value.(fields := editedData.value.fields[name := value]));
    }

    method CancelEdit()
      modifies this`editingId
      ensures editingId == None && Valid()
    {
      editingId := None;
    }

    /** handleSave for the row in edit mode. The kind "categories" selects the
        categories list and any other kind the locations list; on success
        every entry with the id becomes the edited record and edit mode ends,
        on failure only the error changes. */
    method HandleSave(id: string, kind: string, outcome: ApiOutcome<()>) returns (request: Request)
      requires Valid() && editingId == Some(id)
      modifies this`categories, this`locations, this`editingId, this`error
      ensures request == Put(ItemPath(kind, id), editedData.value)
      ensures outcome.Ok? ==> editingId == None && error == old(error)
      ensures outcome.Ok? && kind == CategoriesKind ==>
                categories == ReplaceById(old(categories), id, editedData.value) && locations == old(locations)
      ensures outcome.Ok? && kind != CategoriesKind ==>
                locations == ReplaceById(old(locations), id, editedData.value) && categories == old(categories)
      ensures outcome.Err? ==> categories == old(categories) && locations == old(locations) &&
                               editingId == old(editingId) && error == Some(UpdateFailed)
      ensures Valid()
    {
      request := Put(ItemPath(kind, id), editedData.value);
      if outcome.Err? {
        error := Some(UpdateFailed);
        return;
      }
      if kind == CategoriesKind {
        categories := ReplaceById(categories, id, editedData.value);
      } else {
        locations := ReplaceById(locations, id, editedData.value);
      }
      editingId := None;
    }

    /** handleDelete: no confirmation is asked; on success the entries with the
        id leave the list the kind selects, on failure only the error changes. */
    method HandleDelete(id: string, kind: string, outcome: ApiOutcome<()>) returns (request: Request)
      modifies this`categories, this`locations, this`error
      ensures request == Delete(ItemPath(kind, id))
      ensures outcome.Ok? ==> error == old(error)
      ensures outcome.Ok? && kind == CategoriesKind ==>
                categories == RemoveById(old(categories), id) && locations == old(locations)
      ensures outcome.Ok? && kind != CategoriesKind ==>
                locations == RemoveById(old(locations), id) && categories == old(categories)
      ensures outcome.Err? ==> categories == old(categories) && locations == old(locations) && error == Some(DeleteFailed)
    {
      request := Delete(ItemPath(kind, id));
      if outcome.Err? {
        error := Some(DeleteFailed);
        return;
      }
      if kind == CategoriesKind {
        categories := RemoveById(categories, id);
      } else {
        locations := RemoveById(locations, id);
      }
    }

    method StartNewCategory()
      modifies this`newCategory
      ensures newCategory == Some(BlankCategory())
    {
      newCategory := Some(BlankCategory());
    }

    method StartNewLocation()
      modifies this`newLocation
      ensures newLocation == Some(BlankLocation())
    {
      newLocation := Some(BlankLocation());
    }

    /** A keystroke in the new category row, which is only shown while a draft
        exists. */
    method EditNewCategory(name: string, value: string)
      requires newCategory.Some?
      modifies this`newCategory
      ensures newCategory == Some(old(newCategory).value[name := value])
    {
      newCategory := Some(newCategory.value[name := value]);
    }

    method EditNewLocation(name: string, value: string)
      requires newLocation.Some?
      modifies this`newLocation
      ensures newLocation == Some(old(newLocation).value[name := value])
    {
      newLocation := Some(newLocation.value[name := value]);
    }

    method CancelNewCategory()
      modifies this`newCategory
      ensures newCategory == None
    {
      newCategory := None;
    }

    method CancelNewLocation()
      modifies this`newLocation
      ensures newLocation == None
    {
      newLocation := None;
    }

    /** Whether the spinner and the error banner are on screen. */
    predicate ShowsSpinner()
      reads this
    {
      loading
    }

    predicate ShowsError()
      reads this
    {
      error.Some? && error.value != ""
    }
  }
}
