/**
 * The category list view-model: the snapshot the list screen shows, the id rule for new
 * categories, and the load, add and delete operations with their failure branches. Each
 * block the view-model launches on its coroutine scope is one method here; a repository
 * call that throws is chosen by the `fault` parameter, since the in-memory store itself
 * never throws.
 */
module CategoryList {
  import opened Wrappers
  import opened Numbers
  import opened Text
  import opened Models
  import opened CategoryStore

  /** A category as the list shows it: the description is never null. */
  datatype CategoryUi = CategoryUi(id: Long, name: string, colorHex: string, description: string)

  datatype CategoryListUiState = CategoryListUiState(
    isLoading: bool := false,
    categories: seq<CategoryUi> := [],
    errorMessage: Option<string> := None)

  const LoadFailedMessage := "Failed to load categories"
  const AddFailedMessage := "Failed to add category"
  const DeleteFailedMessage := "Failed to delete category"

  /** Which repository call of an add or a delete throws, if any: one before the store
      changes (the read before an add, the add or the delete itself) or the reload after
      it. */
  datatype Fault = NoFault | FailsBeforeChange | FailsOnReload

  /** `Category.toUi()`: a missing description is shown as "". */
  function ToUi(c: Category): CategoryUi {
    CategoryUi(c.id, c.name, c.colorHex, c.description.GetOr(""))
  }

  /** `categories.map { it.toUi() }`. */
  function ToUiList(s: seq<Category>): seq<CategoryUi> {
    seq(|s|, i requires 0 <= i < |s| => ToUi(s[i]))
  }

  /** The list shows every category, in store order, with its id, name and colour. */
  lemma ToUiListPreservesFields(s: seq<Category>)
    ensures |ToUiList(s)| == |s|
    ensures forall i :: 0 <= i < |s| ==>
      var u := ToUiList(s)[i];
      u.id == s[i].id && u.name == s[i].name && u.colorHex == s[i].colorHex
  {
  }

  /** `description.ifBlank { null }`: how `addCategory` stores a description. */
  function StoredDescription(description: string): Option<string> {
    if IsBlank(description) then None else Some(description)
  }

  /** A blank description is stored as null and shown as "", any other one is shown as
      it was typed. */
  lemma BlankDescriptionShownEmpty(id: Long, name: string, colorHex: string, description: string)
    ensures var shown := ToUi(Category(id, name, colorHex, StoredDescription(description))).description;
      shown == if IsBlank(description) then "" else description
  {
  }

  /** `maxOfOrNull { it.id }`: the largest id in the list, or None when it is empty. */
  function MaxId(s: seq<Category>): (r: Option<Long>)
    ensures r.None? <==> s == []
    ensures r.Some? ==> exists i :: 0 <= i < |s| && s[i].id == r.value
    ensures r.Some? ==> forall i :: 0 <= i < |s| ==> s[i].id <= r.value
  {
    if s == [] then None
    else
      var last := s[|s| - 1].id;
      match MaxId(s[..|s| - 1])
      case None => Some(last)
      case Some(m) => Some(if m < last then last else m)
  }

  /** The id `addCategory` gives a new category: `(maxOfOrNull { it.id } ?: 0) + 1`, with
      the wrap-around of `Long` addition. */
  function NextId(s: seq<Category>): Long {
    AddLong(MaxId(s).GetOr(0), 1)
  }

  /** Unless some id is already `Long.MAX_VALUE`, the next id is larger than every id in
      the store, so it is fresh; it is 1 for an empty store and otherwise one more than
      an id present. */
  lemma NextIdFresh(s: seq<Category>)
    requires forall i :: 0 <= i < |s| ==> s[i].id < LONG_MAX
    ensures forall i :: 0 <= i < |s| ==> s[i].id < NextId(s)
    ensures s == [] ==> NextId(s) == 1
    ensures s != [] ==> exists i :: 0 <= i < |s| && s[i].id == NextId(s) - 1
  {
    var m := MaxId(s);
    if m.Some? {
      var i :| 0 <= i < |s| && s[i].id == m.value;
      assert m.value < LONG_MAX;
    }
  }

  /** When some id is `Long.MAX_VALUE` the next id wraps around to `Long.MIN_VALUE`. */
  lemma NextIdWrapsAtMax(s: seq<Category>, k: nat)
    requires k < |s| && s[k].id == LONG_MAX
    ensures NextId(s) == LONG_MIN
  {
  }

  /** The store's ids are 1, 2, ..., |s| in order. */
  predicate ConsecutiveIds(s: seq<Category>) {
    forall i :: 0 <= i < |s| ==> s[i].id == i + 1
  }

  /** Adds to a store whose ids are 1..n assign n + 1, so the store's ids stay 1..n+1:
      starting from an empty store, the ids handed out are 1, 2, 3, ... */
  lemma AddKeepsIdsConsecutive(s: seq<Category>, name: string, colorHex: string, description: Option<string>)
    requires ConsecutiveIds(s) && |s| < LONG_MAX
    ensures NextId(s) == |s| + 1
    ensures ConsecutiveIds(s + [Category(NextId(s), name, colorHex, description)])
  {
    if s != [] {
      NextIdFresh(s);
      assert s[|s| - 1].id == |s|;
    }
  }

  /** The category `addCategory` appends to the store `s`. */
  function AddedCategory(s: seq<Category>, name: string, colorHex: string, description: string): Category {
    Category(NextId(s), name, colorHex, StoredDescription(description))
  }

  class CategoryListViewModel {
    const repository: InMemoryCategoryRepository
    var uiState: CategoryListUiState

    /** A new view-model shows the loading indicator until its first load finishes. */
    constructor (repository: InMemoryCategoryRepository)
      ensures this.repository == repository
      ensures uiState == CategoryListUiState(isLoading := true)
    {
      this.repository := repository;
      uiState := CategoryListUiState(isLoading := true);
    }

    /** `loadInitialCategories`: shows the store's list, or an empty list and the load
        error. */
    method LoadInitialCategories(fails: bool)
      modifies this
      ensures uiState == if fails
        then CategoryListUiState(isLoading := false, categories := [], errorMessage := Some(LoadFailedMessage))
        else CategoryListUiState(isLoading := false, categories := ToUiList(repository.categories), errorMessage := None)
    {
      uiState := CategoryListUiState(isLoading := true);
      if fails {
        uiState := CategoryListUiState(isLoading := false, categories := [], errorMessage := Some(LoadFailedMessage));
        return;
      }
      var categories := repository.GetCategories();
      uiState := CategoryListUiState(isLoading := false, categories := ToUiList(categories), errorMessage := None);
    }

    /** `addCategory`: appends a category with the next id and the stored form of the
        description, then shows the reloaded list and clears the error; a failure only
        sets the add error. The loading flag is never touched. */
    method AddCategory(name: string, colorHex: string, description: string, fault: Fault)
      modifies this, repository
      ensures repository.categories == if fault == FailsBeforeChange
        then old(repository.categories)
        else old(repository.categories) + [AddedCategory(old(repository.categories), name, colorHex, description)]
      ensures uiState == if fault == NoFault
        then old(uiState).(categories := ToUiList(repository.categories), errorMessage := None)
        else old(uiState).(errorMessage := Some(AddFailedMessage))
    {
      if fault == FailsBeforeChange {
        uiState := uiState.(errorMessage := Some(AddFailedMessage));
        return;
      }
      var current := repository.GetCategories();
      repository.AddCategory(AddedCategory(current, name, colorHex, description));
      if fault == FailsOnReload {
        uiState := uiState.(errorMessage := Some(AddFailedMessage));
        return;
      }
      var updated := repository.GetCategories();
      uiState := uiState.(categories := ToUiList(updated), errorMessage := None);
    }

    /** `deleteCategory`: removes every category with `id`, then shows the reloaded list
        and clears the error; a failure only sets the delete error. */
    method DeleteCategory(id: Long, fault: Fault)
      modifies this, repository
      ensures repository.categories == if fault == FailsBeforeChange then old(repository.categories)
        else RemoveById(old(repository.categories), id)
      ensures uiState == if fault == NoFault
        then old(uiState).(categories := ToUiList(repository.categories), errorMessage := None)
        else old(uiState).(errorMessage := Some(DeleteFailedMessage))
    {
      if fault == FailsBeforeChange {
        uiState := uiState.(errorMessage := Some(DeleteFailedMessage));
        return;
      }
      repository.DeleteCategory(id);
      if fault == FailsOnReload {
        uiState := uiState.(errorMessage := Some(DeleteFailedMessage));
        return;
      }
      var updated := repository.GetCategories();
      uiState := uiState.(categories := ToUiList(updated), errorMessage := None);
    }
  }

  /** `init { loadInitialCategories() }`: a list screen opened over a new store shows the
      loading indicator first, then the three seed categories, or an empty list and the
      load error. */
  method OpenCategoryList(fails: bool) returns (before: CategoryListUiState, after: CategoryListUiState)
    ensures before.isLoading && before.categories == [] && before.errorMessage == None
    ensures !after.isLoading
    ensures !fails ==> after.categories == ToUiList(SeedCategories()) && after.errorMessage == None
    ensures fails ==> after.categories == [] && after.errorMessage == Some(LoadFailedMessage)
  {
    var repository := new InMemoryCategoryRepository();
    var viewModel := new CategoryListViewModel(repository);
    before := viewModel.uiState;
    viewModel.LoadInitialCategories(fails);
    after := viewModel.uiState;
  }
}
