/**
 * The in-memory category repository: a mutable list of categories seeded with three
 * entries, read by copy, appended to, and cleared of every entry with a given id.
 */
module CategoryStore {
  import opened Wrappers
  import opened Numbers
  import opened Text
  import opened Sequences
  import opened Models

  /** The categories a fresh store holds: ids 1, 2 and 3, in that order. */
  function SeedCategories(): (r: seq<Category>)
    ensures |r| == 3 && forall i :: 0 <= i < 3 ==> r[i].id == i + 1
  {
    [
      Category(1, "Electricity", "#FF9800", Some("Electricity provider bills")),
      Category(2, "Water", "#2196F3", Some("Water and sewage")),
      Category(3, "City Taxes", "#4CAF50", Some("Arnona / city hall payments"))
    ]
  }

  /** The seed names are pairwise different as the category forms compare them (ignoring
      case and surrounding whitespace), so the seed passes the uniqueness rule. */
  lemma SeedNamesDistinct()
    ensures NameKey("Electricity") != NameKey("Water")
    ensures NameKey("Electricity") != NameKey("City Taxes")
    ensures NameKey("Water") != NameKey("City Taxes")
    ensures SeedCategories()[0].name == "Electricity" && SeedCategories()[1].name == "Water"
      && SeedCategories()[2].name == "City Taxes"
  {
    NameKeysDiffer("Electricity", "Water");
    NameKeysDiffer("Electricity", "City Taxes");
    NameKeysDiffer("Water", "City Taxes");
  }

  /** The condition `removeAll { it.id == id }` negates: the entry has another id. */
  function HasOtherId(id: Long): Category -> bool {
    (c: Category) => c.id != id
  }

  /** The list without any entry that has `id`. */
  function RemoveById(s: seq<Category>, id: Long): seq<Category> {
    Filter(s, HasOtherId(id))
  }

  /** After a removal no entry has the id, every entry with another id is still there as
      often as before, and the survivors keep their relative order. */
  lemma RemoveByIdSpec(s: seq<Category>, id: Long)
    ensures forall c :: c in RemoveById(s, id) ==> c.id != id
    ensures forall c: Category :: c.id != id ==> multiset(RemoveById(s, id))[c] == multiset(s)[c]
    ensures IsSubsequence(RemoveById(s, id), s)
  {
    FilterCounts(s, HasOtherId(id));
    FilterIsSubsequence(s, HasOtherId(id));
  }

  /** Removing an id that no entry has changes nothing. */
  lemma RemoveAbsentId(s: seq<Category>, id: Long)
    requires forall i :: 0 <= i < |s| ==> s[i].id != id
    ensures RemoveById(s, id) == s
  {
    FilterKeepsAll(s, HasOtherId(id));
  }

  /** Removing the same id twice is removing it once. */
  lemma RemoveByIdIdempotent(s: seq<Category>, id: Long)
    ensures RemoveById(RemoveById(s, id), id) == RemoveById(s, id)
  {
    FilterIdempotent(s, HasOtherId(id));
  }

  class InMemoryCategoryRepository {
    var categories: seq<Category>

    constructor ()
      ensures categories == SeedCategories()
    {
      categories := SeedCategories();
    }

    /** A copy of the current list; the store is left as it was. */
    method GetCategories() returns (r: seq<Category>)
      ensures r == categories
    {
      r := categories;
    }

    /** Appends `category` at the end; ids are not checked for duplicates. */
    method AddCategory(category: Category)
      modifies this
      ensures categories == old(categories) + [category]
    {
      categories := categories + [category];
    }

    /** Removes every entry whose id is `id`. */
    method DeleteCategory(id: Long)
      modifies this
      ensures categories == RemoveById(old(categories), id)
    {
      categories := RemoveById(categories, id);
    }
  }
}
