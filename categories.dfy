/**
 * `/api/categories`: POST is a check-then-insert keyed on `code`; GET lists
 * every category by name with the number of products that reference it.
 */
module CategoriesRoute {
  import opened Schema
  import opened Sorting

  const CodeExists: string := "Category code already exists"

  ghost predicate CodesDistinct(rows: seq<Category>) {
    forall i, j :: 0 <= i < j < |rows| ==> rows[i].code != rows[j].code
  }

  class CategoryTable {
    var rows: seq<Category>
    var nextId: Id

    ghost predicate Valid()
      reads this
    {
      && CodesDistinct(rows)
      && (forall i :: 0 <= i < |rows| ==> rows[i].id < nextId)
      && (forall i, j :: 0 <= i < j < |rows| ==> rows[i].id != rows[j].id)
    }

    constructor ()
      ensures Valid() && rows == []
    {
      rows := [];
      nextId := 0;
    }

    /** POST /api/categories */
    method Create(name: string, description: Option<string>, code: string) returns (r: Created<Category>)
      requires Valid()
      modifies this
      ensures Valid()
      ensures FindBy(old(rows), CategoryCode, code).Some? ==>
        r == Rejected(400, CodeExists) && rows == old(rows) && nextId == old(nextId)
      ensures FindBy(old(rows), CategoryCode, code).None? ==>
        && r == Created(Category(old(nextId), name, description, code))
        && r.Status() == 201
        && rows == old(rows) + [r.row]
        && nextId == old(nextId) + 1
    {
      var existing := FindBy(rows, CategoryCode, code);
      if existing.Some? {
        return Rejected(400, CodeExists);
      }
      var category := Category(nextId, name, description, code);
      rows := rows + [category];
      nextId := nextId + 1;
      r := Created(category);
    }
  }

  /** A product references a category through its `categoryId`. */
  function InCategory(products: seq<ProductRow>, id: Id): (r: seq<ProductRow>)
    ensures |r| <= |products|
    ensures forall p :: p in r <==> p in products && p.categoryId == id
    ensures forall p :: multiset(r)[p] == if p.categoryId == id then multiset(products)[p] else 0
  {
    if products == [] then []
    else
      assert products == [products[0]] + products[1..];
      (if products[0].categoryId == id then [products[0]] else []) + InCategory(products[1..], id)
  }

  /** A category as GET lists it, with `_count.products`. */
  datatype CategoryEntry = CategoryEntry(category: Category, productCount: nat)

  function EntryName(e: CategoryEntry): string {
    e.category.name
  }

  /** The `_count.products` of category `c`. */
  function ProductCount(c: Category, products: seq<ProductRow>): nat {
    |InCategory(products, c.id)|
  }

  function Counted(rows: seq<Category>, products: seq<ProductRow>): (r: seq<CategoryEntry>)
    ensures |r| == |rows|
    ensures forall e :: e in r <==> e.category in rows && e.productCount == ProductCount(e.category, products)
    ensures forall i :: 0 <= i < |rows| ==> r[i] == CategoryEntry(rows[i], ProductCount(rows[i], products))
  {
    if rows == [] then []
    else [CategoryEntry(rows[0], ProductCount(rows[0], products))] + Counted(rows[1..], products)
  }

  /** GET /api/categories */
  function Listing(rows: seq<Category>, products: seq<ProductRow>): (r: seq<CategoryEntry>)
    ensures |r| == |rows|
    ensures SortedByName(r, EntryName)
    ensures multiset(r) == multiset(Counted(rows, products))
    ensures forall e :: e in r <==> e.category in rows && e.productCount == ProductCount(e.category, products)
  {
    var counted := Counted(rows, products);
    var r := ByName(counted, EntryName);
    SameMembers(r, counted);
    r
  }
}
