/**
 * `/api/products`: GET builds a filter from the query parameters, reads one
 * page of the matching products newest first and decodes their list
 * fields; POST refuses a duplicate code, coerces the optional fields and
 * stores the row.
 */
module ProductsRoute {
  import opened Schema
  import opened Text
  import opened Sorting
  import opened Paging

  const FetchError: string := "Error fetching products"
  const CodeExists: string := "Product code already exists"

  /** The query parameters of GET, numbers already parsed; None is an absent or empty parameter. */
  datatype ListQuery = ListQuery(
    page: Option<int>,
    limit: Option<int>,
    search: Option<string>,
    category: Option<string>,
    featured: Option<string>)

  function PageOf(q: ListQuery): int { Param(q.page, DefaultPage) }
  function LimitOf(q: ListQuery): int { Param(q.limit, DefaultLimit) }

  /** `searchParams.get('search') || ''` */
  function SearchOf(q: ListQuery): string { q.search.GetOr("") }

  /** `searchParams.get('category') || 'all'` */
  function CategoryOf(q: ListQuery): string {
    if q.category.Some? && q.category.value != "" then q.category.value else "all"
  }

  /** The `where` object: each part is present only when its filter applies. */
  datatype ProductWhere = ProductWhere(text: Option<string>, categoryId: Option<Id>, featuredOnly: bool)

  const AnyProduct: ProductWhere := ProductWhere(None, None, false)

  /** The `OR` of `contains` on name, description and code; a null description never matches. */
  predicate TextMatches(p: ProductRow, search: string) {
    || Includes(p.name, search)
    || (p.description.Some? && Includes(p.description.value, search))
    || Includes(p.code, search)
  }

  predicate Matches(p: ProductRow, w: ProductWhere) {
    && (w.text.Some? ==> TextMatches(p, w.text.value))
    && (w.categoryId.Some? ==> p.categoryId == w.categoryId.value)
    && (w.featuredOnly ==> p.featured)
  }

  /** `findFirst({ where: { name: { contains } } })`, taken in table order. */
  function FirstNamed(categories: seq<Category>, needle: string): (r: Option<Category>)
    ensures r.None? <==> forall i :: 0 <= i < |categories| ==> !Contains(categories[i].name, needle)
    ensures r.Some? ==> exists k :: (0 <= k < |categories| && categories[k] == r.value
      && Contains(r.value.name, needle)
      && forall j :: 0 <= j < k ==> !Contains(categories[j].name, needle))
  {
    if categories == [] then None
    else if Includes(categories[0].name, needle) then Some(categories[0])
    else
      var r := FirstNamed(categories[1..], needle);
      if r.Some? then
        ghost var k :| 0 <= k < |categories[1..]| && categories[1..][k] == r.value
          && Contains(r.value.name, needle)
          && forall j :: 0 <= j < k ==> !Contains(categories[1..][j].name, needle);
        assert categories[k + 1] == r.value;
        assert forall j :: 1 <= j < k + 1 ==> categories[j] == categories[1..][j - 1];
        r
      else r
  }

  /**
   * The filter GET applies, or None when a category was asked for and none
   * of the category names contains it.
   */
  function WhereFor(q: ListQuery, categories: seq<Category>): (r: Option<ProductWhere>)
    ensures r.None? <==> CategoryOf(q) != "all" && FirstNamed(categories, CategoryOf(q)).None?
    ensures r.Some? ==> r.value.text == (if SearchOf(q) == "" then None else Some(SearchOf(q)))
    ensures r.Some? ==> (r.value.featuredOnly <==> q.featured == Some("true"))
    ensures r.Some? ==> (r.value.categoryId.Some? <==> CategoryOf(q) != "all")
    ensures r.Some? && r.value.categoryId.Some? ==>
      exists c :: c in categories && c.id == r.value.categoryId.value && Contains(c.name, CategoryOf(q))
  {
    var text := if SearchOf(q) == "" then None else Some(SearchOf(q));
    var featuredOnly := q.featured == Some("true");
    if CategoryOf(q) == "all" then Some(ProductWhere(text, None, featuredOnly))
    else
      match FirstNamed(categories, CategoryOf(q))
      case None => None
      case Some(c) => Some(ProductWhere(text, Some(c.id), featuredOnly))
  }

  /** The rows the `where` object selects, in table order. */
  function Matching(rows: seq<ProductRow>, w: ProductWhere): (r: seq<ProductRow>)
    ensures |r| <= |rows|
    ensures forall p :: p in r <==> p in rows && Matches(p, w)
    ensures forall p {:trigger Matches(p, w), multiset(r)[p]} :: multiset(r)[p] == if Matches(p, w) then multiset(rows)[p] else 0
  {
    if rows == [] then []
    else
      assert rows == [rows[0]] + rows[1..];
      (if Matches(rows[0], w) then [rows[0]] else []) + Matching(rows[1..], w)
  }

  /** A product as GET returns it: list fields decoded, the owning category included. */
  datatype ProductOut = ProductOut(
    id: Id,
    name: string,
    description: Option<string>,
    code: string,
    price: Option<int>,
    image: Option<string>,
    images: seq<string>,
    featured: bool,
    minQuantity: Option<int>,
    maxQuantity: Option<int>,
    materials: seq<string>,
    colors: seq<string>,
    sizes: seq<string>,
    customizationInfo: Option<string>,
    categoryId: Id,
    category: Option<Category>,
    techniqueIds: set<Id>,
    createdAt: int)

  /** `stored ? JSON.parse(stored) : []` */
  function Decoded(stored: Option<seq<string>>): (r: seq<string>)
    ensures stored.Some? ==> r == stored.value
    ensures stored.None? ==> r == []
  {
    stored.GetOr([])
  }

  function CategoryById(categories: seq<Category>, id: Id): (r: Option<Category>)
    ensures r.Some? ==> r.value in categories && r.value.id == id
    ensures r.None? ==> forall i :: 0 <= i < |categories| ==> categories[i].id != id
  {
    if categories == [] then None
    else if categories[0].id == id then Some(categories[0])
    else CategoryById(categories[1..], id)
  }

  function Processed(p: ProductRow, categories: seq<Category>): ProductOut {
    ProductOut(p.id, p.name, p.description, p.code, p.price, p.image, Decoded(p.images), p.featured,
               p.minQuantity, p.maxQuantity, Decoded(p.materials), Decoded(p.colors), Decoded(p.sizes),
               p.customizationInfo, p.categoryId, CategoryById(categories, p.categoryId), p.techniqueIds,
               p.createdAt)
  }

  function ProcessAll(rows: seq<ProductRow>, categories: seq<Category>): (r: seq<ProductOut>)
    ensures |r| == |rows|
    ensures forall i :: 0 <= i < |r| ==> r[i] == Processed(rows[i], categories)
  {
    if rows == [] then [] else [Processed(rows[0], categories)] + ProcessAll(rows[1..], categories)
  }

  function RowStamp(p: ProductRow): int { p.createdAt }
  function OutStamp(p: ProductOut): int { p.createdAt }

  /** The rows `w` selects in the order GET pages through them, newest first. */
  function NewestMatching(rows: seq<ProductRow>, w: ProductWhere): seq<ProductRow> {
    ByStampDesc(Matching(rows, w), RowStamp)
  }

  /**
   * One page of the rows `w` selects: newest first, `skip` rows passed over,
   * at most `limit` taken, each decoded.
   */
  function PageRows(rows: seq<ProductRow>, w: ProductWhere, categories: seq<Category>, skip: nat, limit: nat)
    : (out: seq<ProductOut>)
    ensures |out| <= limit
    ensures skip >= |Matching(rows, w)| ==> out == []
    ensures var total := |Matching(rows, w)|;
      skip < total ==> |out| == if skip + limit <= total then limit else total - skip
    ensures forall i :: 0 <= i < |out| ==>
      skip + i < |NewestMatching(rows, w)| && out[i] == Processed(NewestMatching(rows, w)[skip + i], categories)
    ensures NewestFirst(out, OutStamp)
    ensures forall i :: 0 <= i < |out| ==>
      exists p :: p in rows && Matches(p, w) && out[i] == Processed(p, categories)
  {
    var matching := Matching(rows, w);
    var ordered := NewestMatching(rows, w);
    SameMembers(ordered, matching);
    var window := Window(ordered, skip, limit);
    WindowKeepsOrder(ordered, skip, limit, RowStamp);
    var out := ProcessAll(window, categories);
    ProcessKeepsOrder(window, categories);
    forall i | 0 <= i < |out|
      ensures exists p :: p in rows && Matches(p, w) && out[i] == Processed(p, categories)
    {
      assert window[i] in ordered;
      assert window[i] in rows && Matches(window[i], w) && out[i] == Processed(window[i], categories);
    }
    out
  }

  lemma ProcessKeepsOrder(rows: seq<ProductRow>, categories: seq<Category>)
    requires NewestFirst(rows, RowStamp)
    ensures NewestFirst(ProcessAll(rows, categories), OutStamp)
  {
    var out := ProcessAll(rows, categories);
    forall i, j | 0 <= i < j < |out| ensures OutStamp(out[i]) >= OutStamp(out[j]) {
      assert OutStamp(out[i]) == RowStamp(rows[i]) && OutStamp(out[j]) == RowStamp(rows[j]);
    }
  }

  /** When one page can hold every match, the first page shows every matching product. */
  lemma FirstPageHoldsAll(rows: seq<ProductRow>, w: ProductWhere, categories: seq<Category>, limit: nat)
    requires |Matching(rows, w)| <= limit
    ensures forall p :: p in rows && Matches(p, w) ==> Processed(p, categories) in PageRows(rows, w, categories, 0, limit)
  {
    var ordered := NewestMatching(rows, w);
    SameMembers(ordered, Matching(rows, w));
    forall p | p in rows && Matches(p, w)
      ensures Processed(p, categories) in PageRows(rows, w, categories, 0, limit)
    {
      var k :| 0 <= k < |ordered| && ordered[k] == p;
      OnFirstPage(rows, w, categories, limit, k);
    }
  }

  /** The row at offset `k` of the newest-first order is on a first page that holds every match. */
  lemma OnFirstPage(rows: seq<ProductRow>, w: ProductWhere, categories: seq<Category>, limit: nat, k: nat)
    requires |Matching(rows, w)| <= limit && k < |NewestMatching(rows, w)|
    ensures Processed(NewestMatching(rows, w)[k], categories) in PageRows(rows, w, categories, 0, limit)
  {
    var matching := Matching(rows, w);
    var ordered := NewestMatching(rows, w);
    SameMembers(ordered, matching);
    assert |ordered| == |multiset(ordered)| == |multiset(matching)| == |matching|;
    var out := PageRows(rows, w, categories, 0, limit);
    assert out[k] == Processed(ordered[k], categories);
  }

  /** A search for the empty string would keep every product, like no search at all. */
  lemma {:induction false} EmptySearchIsNoFilter(rows: seq<ProductRow>, w: ProductWhere)
    ensures Matching(rows, w.(text := Some(""))) == Matching(rows, w.(text := None))
  {
    if rows != [] {
      EmptyIsEverywhere(rows[0].name);
      EmptySearchIsNoFilter(rows[1..], w);
    }
  }

  /** What GET answers. */
  datatype ListResponse =
    | Listed(products: seq<ProductOut>, pagination: Pagination)
    | ListFailed(status: nat, error: string)

  /**
   * GET /api/products. A page below 1 makes the skip negative, which the
   * store rejects; a limit below 1 is rejected too (see the README).
   */
  function ListSpec(q: ListQuery, categories: seq<Category>, rows: seq<ProductRow>): (r: ListResponse)
    ensures WhereFor(q, categories).None? ==>
      r == Listed([], Pagination(PageOf(q), LimitOf(q), 0, 0))
    ensures WhereFor(q, categories).Some? ==>
      (r.ListFailed? <==> PageOf(q) < 1 || LimitOf(q) < 1)
    ensures r.ListFailed? ==> r == ListFailed(500, FetchError)
    ensures r.Listed? ==> r.pagination.page == PageOf(q) && r.pagination.limit == LimitOf(q)
    ensures r.Listed? && WhereFor(q, categories).Some? ==>
      var w := WhereFor(q, categories).value;
      var total := |Matching(rows, w)|;
      var skip := Skip(PageOf(q), LimitOf(q));
      && r.pagination.total == total
      && r.pagination.pages == PageCount(total, LimitOf(q))
      && |r.products| <= LimitOf(q)
      && (skip >= total ==> r.products == [])
      && (skip < total ==> |r.products| == if skip + LimitOf(q) <= total then LimitOf(q) else total - skip)
      && (forall i :: 0 <= i < |r.products| ==>
            0 <= skip + i < |NewestMatching(rows, w)|
            && r.products[i] == Processed(NewestMatching(rows, w)[skip + i], categories))
      && NewestFirst(r.products, OutStamp)
  {
    match WhereFor(q, categories)
    case None => Listed([], Pagination(PageOf(q), LimitOf(q), 0, 0))
    case Some(w) =>
      var page := PageOf(q);
      var limit := LimitOf(q);
      if page < 1 || limit < 1 then ListFailed(500, FetchError)
      else
        var total := |Matching(rows, w)|;
        Listed(PageRows(rows, w, categories, Skip(page, limit), limit),
               Pagination(page, limit, total, PageCount(total, limit)))
  }

  /** The body of POST. Numbers arrive already parsed; None is an absent field. */
  datatype ProductInput = ProductInput(
    name: string,
    description: Option<string>,
    code: string,
    price: Option<int>,
    image: Option<string>,
    images: Option<seq<string>>,
    featured: Option<bool>,
    minQuantity: Option<int>,
    maxQuantity: Option<int>,
    materials: Option<seq<string>>,
    colors: Option<seq<string>>,
    sizes: Option<seq<string>>,
    customizationInfo: Option<string>,
    categoryId: Id,
    printingTechniqueIds: Option<seq<Id>>)

  /** `n ? n : null`: zero is falsy like a missing number. */
  function NullIfFalsy(n: Option<int>): (r: Option<int>)
    ensures r.Some? <==> n.Some? && n.value != 0
    ensures r.Some? ==> r == n
  {
    if n.Some? && n.value != 0 then n else None
  }

  /** The row POST stores for `input`, with identifier `id` stamped at `now`. */
  function NewRow(input: ProductInput, id: Id, now: int): (p: ProductRow)
    ensures p.id == id && p.createdAt == now && p.code == input.code && p.name == input.name
    ensures p.description == input.description && p.image == input.image
    ensures p.customizationInfo == input.customizationInfo && p.categoryId == input.categoryId
    ensures p.price == NullIfFalsy(input.price)
    ensures p.minQuantity == NullIfFalsy(input.minQuantity) && p.maxQuantity == NullIfFalsy(input.maxQuantity)
    ensures p.featured <==> input.featured == Some(true)
    ensures p.images == input.images && p.materials == input.materials
    ensures p.colors == input.colors && p.sizes == input.sizes
    ensures forall t :: t in p.techniqueIds <==>
      input.printingTechniqueIds.Some? && t in input.printingTechniqueIds.value
  {
    ProductRow(
      id, input.name, input.description, input.code,
      NullIfFalsy(input.price),
      input.image,
      input.images,
      input.featured.GetOr(false),
      NullIfFalsy(input.minQuantity),
      NullIfFalsy(input.maxQuantity),
      input.materials, input.colors, input.sizes,
      input.customizationInfo,
      input.categoryId,
      if input.printingTechniqueIds.Some? then set t | t in input.printingTechniqueIds.value else {},
      now)
  }

  ghost predicate CodesDistinct(rows: seq<ProductRow>) {
    forall i, j :: 0 <= i < j < |rows| ==> rows[i].code != rows[j].code
  }

  class ProductStore {
    var rows: seq<ProductRow>
    var nextId: Id

    ghost predicate Valid()
      reads this
    {
      && CodesDistinct(rows)
      && (forall i :: 0 <= i < |rows| ==> rows[i].id < nextId)
      && (forall i, j :: 0 <= i < j < |rows| ==> rows[i].id != rows[j].id)
    }

    constructor ()
      ensures Valid() && rows == []
    {
      rows := [];
      nextId := 0;
    }

    /** GET /api/products: the `where` object is filled in field by field. */
    method List(q: ListQuery, categories: seq<Category>) returns (r: ListResponse)
      ensures r == ListSpec(q, categories, rows)
    {
      var page := Param(q.page, DefaultPage);
      var limit := Param(q.limit, DefaultLimit);
      var search := q.search.GetOr("");
      var category := if q.category.Some? && q.category.value != "" then q.category.value else "all";
      var w := AnyProduct;
      if search != "" {
        w := w.(text := Some(search));
      }
      if category != "all" {
        var record := FirstNamed(categories, category);
        if record.None? {
          return Listed([], Pagination(page, limit, 0, 0));
        }
        w := w.(categoryId := Some(record.value.id));
      }
      if q.featured == Some("true") {
        w := w.(featuredOnly := true);
      }
      assert WhereFor(q, categories) == Some(w);
      if page < 1 || limit < 1 {
        return ListFailed(500, FetchError);
      }
      var total := |Matching(rows, w)|;
      r := Listed(PageRows(rows, w, categories, Skip(page, limit), limit),
                  Pagination(page, limit, total, PageCount(total, limit)));
    }

    /** POST /api/products */
    method Create(input: ProductInput, now: int) returns (r: Created<ProductRow>)
      requires Valid()
      modifies this
      ensures Valid()
      ensures FindBy(old(rows), ProductCode, input.code).Some? ==>
        r == Rejected(400, CodeExists) && rows == old(rows) && nextId == old(nextId)
      ensures FindBy(old(rows), ProductCode, input.code).None? ==>
        && r == Created(NewRow(input, old(nextId), now))
        && rows == old(rows) + [r.row]
        && nextId == old(nextId) + 1
    {
      var existing := FindBy(rows, ProductCode, input.code);
      if existing.Some? {
        return Rejected(400, CodeExists);
      }
      var row := NewRow(input, nextId, now);
      rows := rows + [row];
      nextId := nextId + 1;
      r := Created(row);
    }
  }

  /** A list written by POST reads back from GET exactly, in order; an absent one reads back as []. */
  lemma ListFieldsRoundTrip(input: ProductInput, id: Id, now: int, categories: seq<Category>)
    ensures var out := Processed(NewRow(input, id, now), categories);
      && out.images == input.images.GetOr([])
      && out.materials == input.materials.GetOr([])
      && out.colors == input.colors.GetOr([])
      && out.sizes == input.sizes.GetOr([])
  {
  }
}
