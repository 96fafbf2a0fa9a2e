/**
 * The category screens' navigation: the routes, the edit route's id argument, the name
 * sets the forms check uniqueness against, the edit destination's fallback for a missing
 * category, and the "category added" flag one back-stack entry leaves for the other.
 */
module Navigation {
  import opened Wrappers
  import opened Numbers
  import opened Text
  import opened CategoryList
  import opened CategoryForm

  const CategoryListRoute := "category_list"
  const AddCategoryRoute := "add_category"
  const ArgCategoryId := "categoryId"
  const EditCategoryRoutePrefix := "edit_category/"
  /** The edit destination's route template: the prefix, then the id argument. */
  const EditCategoryRoute := EditCategoryRoutePrefix + "{" + ArgCategoryId + "}"

  /** `Screen.EditCategory.routeWithId`: the prefix followed by the id in decimal. */
  function RouteWithId(id: Long): (route: string)
    ensures |route| > |EditCategoryRoutePrefix| && route[..|EditCategoryRoutePrefix|] == EditCategoryRoutePrefix
  {
    EditCategoryRoutePrefix + LongToString(id)
  }

  /** The `categoryId` argument a route gives the edit destination, read as a `Long`. */
  function EditRouteArgument(route: string): Option<Long> {
    if |route| >= |EditCategoryRoutePrefix| && route[..|EditCategoryRoutePrefix|] == EditCategoryRoutePrefix
    then ParseLong(route[|EditCategoryRoutePrefix|..])
    else None
  }

  /** The route built for an id leads the edit destination back to that same id. */
  lemma RouteWithIdRoundTrip(id: Long)
    ensures EditRouteArgument(RouteWithId(id)) == Some(id)
  {
    var route := RouteWithId(id);
    assert route[|EditCategoryRoutePrefix|..] == LongToString(id);
    LongRoundTrip(id);
  }

  /** Different ids give different routes. */
  lemma RouteWithIdInjective(a: Long, b: Long)
    requires RouteWithId(a) == RouteWithId(b)
    ensures a == b
  {
    RouteWithIdRoundTrip(a);
    RouteWithIdRoundTrip(b);
  }

  /** The names the add form checks uniqueness against: every listed name, trimmed and
      lower-cased. */
  function ExistingNamesLower(categories: seq<CategoryUi>): set<string> {
    set c | c in categories :: NameKey(c.name)
  }

  /** The names the edit form checks uniqueness against: those of every listed category
      with another id. */
  function OtherNamesLower(categories: seq<CategoryUi>, categoryId: Long): set<string> {
    set c | c in categories && c.id != categoryId :: NameKey(c.name)
  }

  /** The add form rejects a name that matches a listed one once both are trimmed and
      lower-cased, and accepts any other non-blank name. */
  lemma AddChecksAgainstEveryName(categories: seq<CategoryUi>, name: string)
    requires !IsBlank(name)
    ensures NameCheck(name, ExistingNamesLower(categories)) == Some(NameNotUnique)
      <==> exists i :: 0 <= i < |categories| && NameKey(categories[i].name) == NameKey(name)
  {
    if exists i :: 0 <= i < |categories| && NameKey(categories[i].name) == NameKey(name) {
      var i :| 0 <= i < |categories| && NameKey(categories[i].name) == NameKey(name);
      assert categories[i] in categories;
    }
  }

  /** While names are unique in the list, the edit form accepts a category's own name,
      in any case and with any surrounding whitespace, while the add form would reject it. */
  lemma OwnNamePassesEdit(categories: seq<CategoryUi>, k: nat, name: string)
    requires k < |categories|
    requires forall i :: (0 <= i < |categories| && categories[i].id != categories[k].id
      ==> NameKey(categories[i].name) != NameKey(categories[k].name))
    requires !IsBlank(name) && NameKey(name) == NameKey(categories[k].name)
    ensures NameCheck(name, OtherNamesLower(categories, categories[k].id)) == None
    ensures NameCheck(name, ExistingNamesLower(categories)) == Some(NameNotUnique)
  {
    assert categories[k] in categories;
  }

  /** `firstOrNull { it.id == categoryId }`: the first listed category with the id. */
  function FindCategory(categories: seq<CategoryUi>, categoryId: Long): (r: Option<CategoryUi>)
    ensures r.None? <==> forall i :: 0 <= i < |categories| ==> categories[i].id != categoryId
    ensures r.Some? ==> r.value.id == categoryId
    ensures r.Some? ==> exists i :: (0 <= i < |categories| && categories[i] == r.value
      && forall j :: 0 <= j < i ==> categories[j].id != categoryId)
  {
    if categories == [] then None
    else if categories[0].id == categoryId then Some(categories[0])
    else
      var r := FindCategory(categories[1..], categoryId);
      if r.Some? then
        assert forall j :: 1 <= j < |categories| ==> categories[j] == categories[1..][j - 1];
        r
      else r
  }

  /** What the edit destination does for an id: pop back when the category is missing,
      otherwise show the edit form for it. */
  datatype EditDestination =
    | PopBack
    | ShowEditForm(initialName: string, initialColorHex: string, initialDescription: string,
                   otherNamesLower: set<string>)

  function EditDestinationFor(categories: seq<CategoryUi>, categoryId: Long): (r: EditDestination)
    ensures r == PopBack <==> forall i :: 0 <= i < |categories| ==> categories[i].id != categoryId
  {
    match FindCategory(categories, categoryId)
    case None => PopBack
    case Some(c) => ShowEditForm(c.name, c.colorHex, c.description, OtherNamesLower(categories, categoryId))
  }

  /** Opening the edit form for a listed category starts it from that category's values. */
  lemma EditFormStartsFromCategory(categories: seq<CategoryUi>, k: nat)
    requires k < |categories|
    requires forall i :: 0 <= i < |categories| && i != k ==> categories[i].id != categories[k].id
    ensures EditDestinationFor(categories, categories[k].id)
      == ShowEditForm(categories[k].name, categories[k].colorHex, categories[k].description,
                      OtherNamesLower(categories, categories[k].id))
  {
    var r := FindCategory(categories, categories[k].id);
    var i :| 0 <= i < |categories| && categories[i] == r.value;
  }

  /** The key under which the add screen leaves its message flag for the list. */
  const CategoryAddedKey := "category_added"

  /** A back-stack entry's saved state, restricted to the boolean values the app stores. */
  class SavedStateHandle {
    var values: map<string, bool>

    constructor ()
      ensures values == map[]
    {
      values := map[];
    }

    function Get(key: string): (r: Option<bool>)
      reads this
      ensures r.Some? <==> key in values
    {
      if key in values then Some(values[key]) else None
    }

    method Set(key: string, value: bool)
      modifies this
      ensures values == old(values)[key := value]
    {
      values := values[key := value];
    }

    method Remove(key: string)
      modifies this
      ensures values == old(values) - {key}
    {
      values := values - {key};
    }
  }

  class BackStackEntry {
    const route: string
    const savedStateHandle: SavedStateHandle

    constructor (route: string)
      ensures this.route == route && fresh(savedStateHandle) && savedStateHandle.values == map[]
    {
      this.route := route;
      savedStateHandle := new SavedStateHandle();
    }
  }

  /** The list screen shows the "added" message exactly when the flag is present and true. */
  function CategoryAddedShown(entry: BackStackEntry): bool
    reads entry.savedStateHandle
  {
    entry.savedStateHandle.Get(CategoryAddedKey) == Some(true)
  }

  class NavController {
    var backStack: seq<BackStackEntry>

    constructor ()
      ensures backStack == []
    {
      backStack := [];
    }

    /** The entry below the top one, if there is one. */
    function PreviousBackStackEntry(): (r: BackStackEntry?)
      reads this
      ensures r != null <==> |backStack| >= 2
      ensures r != null ==> r == backStack[|backStack| - 2]
    {
      if |backStack| >= 2 then backStack[|backStack| - 2] else null
    }

    /** The saved state the add screen's flag is written to: the previous entry's. */
    function PreviousHandles(): set<SavedStateHandle>
      reads this
    {
      if |backStack| >= 2 then {backStack[|backStack| - 2].savedStateHandle} else {}
    }

    method Navigate(route: string) returns (entry: BackStackEntry)
      modifies this
      ensures fresh(entry) && fresh(entry.savedStateHandle)
      ensures entry.route == route && entry.savedStateHandle.values == map[]
      ensures backStack == old(backStack) + [entry]
    {
      entry := new BackStackEntry(route);
      backStack := backStack + [entry];
    }

    /** Removes the top entry; false when there is none. */
    method PopBackStack() returns (popped: bool)
      modifies this
      ensures popped <==> old(backStack) != []
      ensures backStack == if popped then old(backStack)[..|old(backStack)| - 1] else old(backStack)
    {
      if backStack == [] {
        return false;
      }
      backStack := backStack[..|backStack| - 1];
      return true;
    }

    /** The add screen's `onCategorySaved`: sets the flag to true on the previous entry,
        when there is one; nothing else changes. */
    method OnCategorySaved()
      modifies PreviousHandles()
      ensures PreviousBackStackEntry() != null ==>
        PreviousBackStackEntry().savedStateHandle.values
          == old(PreviousBackStackEntry().savedStateHandle.values)[CategoryAddedKey := true]
    {
      var previous := PreviousBackStackEntry();
      if previous != null {
        previous.savedStateHandle.Set(CategoryAddedKey, true);
      }
    }
  }

  /** The list's `onCategoryAddedMessageShown`: removes the flag from its own entry. */
  method OnCategoryAddedMessageShown(entry: BackStackEntry)
    modifies entry.savedStateHandle
    ensures entry.savedStateHandle.values == old(entry.savedStateHandle.values) - {CategoryAddedKey}
    ensures !CategoryAddedShown(entry)
  {
    entry.savedStateHandle.Remove(CategoryAddedKey);
  }

  /** The flag's whole round, from any back stack whose top is the list, whatever flag its
      entry held: the list opens the add screen, the add succeeds and goes back, the list
      is on top again and shows the message once, and after it has been shown the flag is
      gone. The back stack ends as it started. */
  method CategoryAddedRound(nav: NavController) returns (shownAfterAdd: bool, shownAfterMessage: bool, top: string)
    requires nav.backStack != [] && nav.backStack[|nav.backStack| - 1].route == CategoryListRoute
    modifies nav, nav.backStack[|nav.backStack| - 1].savedStateHandle
    ensures shownAfterAdd && !shownAfterMessage
    ensures top == CategoryListRoute
    ensures nav.backStack == old(nav.backStack)
  {
    var list := nav.backStack[|nav.backStack| - 1];
    ghost var before := nav.backStack;
    var add := nav.Navigate(AddCategoryRoute);
    assert nav.PreviousBackStackEntry() == list;
    nav.OnCategorySaved();
    var popped := nav.PopBackStack();
    assert nav.backStack == before;
    top := nav.backStack[|nav.backStack| - 1].route;
    shownAfterAdd := CategoryAddedShown(list);
    OnCategoryAddedMessageShown(list);
    shownAfterMessage := CategoryAddedShown(list);
  }
}
