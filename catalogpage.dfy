/**
 * The public catalogue page (`/products`): it turns its three filter
 * controls into the query string of `/api/products`, turns the products
 * the route answers with into view records, and posts a one-item quote for
 * the product being quoted.
 */
module CatalogPage {
  import opened Schema
  import opened ProductsRoute
  import QuotesRoute
  import opened Numbers

  const All: string := "all"
  const PageSize: int := 50
  const PlaceholderImage: string := "/placeholder-product.svg"
  const Uncategorized: string := "Sin categoría"

  /** The three filter controls. */
  datatype Filters = Filters(search: string, category: string, featured: string)

  const ClearedFilters: Filters := Filters("", All, All)

  /** One `name=value` pair of a `URLSearchParams`. */
  datatype QueryParam = QueryParam(key: string, value: string)

  /** `URLSearchParams.get`: the first value under `key`. */
  function Get(params: seq<QueryParam>, key: string): (r: Option<string>)
    ensures r.None? <==> forall i :: 0 <= i < |params| ==> params[i].key != key
    ensures r.Some? ==> exists i :: 0 <= i < |params| && params[i] == QueryParam(key, r.value)
  {
    if params == [] then None
    else if params[0].key == key then Some(params[0].value)
    else
      var r := Get(params[1..], key);
      if r.Some? then
        ghost var i :| 0 <= i < |params[1..]| && params[1..][i] == QueryParam(key, r.value);
        assert params[i + 1] == QueryParam(key, r.value);
        r
      else r
  }

  lemma {:induction false} GetAppend(a: seq<QueryParam>, b: seq<QueryParam>, key: string)
    ensures Get(a + b, key) == if Get(a, key).Some? then Get(a, key) else Get(b, key)
  {
    if a == [] {
      assert a + b == b;
    } else {
      assert (a + b)[1..] == a[1..] + b;
      GetAppend(a[1..], b, key);
    }
  }

  /** The parameters `fetchProducts` appends, in order. */
  function Params(f: Filters): (r: seq<QueryParam>)
    ensures 1 <= |r| <= 4 && r[|r| - 1] == QueryParam("limit", "50")
  {
    (if f.search != "" then [QueryParam("search", f.search)] else [])
    + (if f.category != All then [QueryParam("category", f.category)] else [])
    + (if f.featured != All then [QueryParam("featured", f.featured)] else [])
    + [QueryParam("limit", "50")]
  }

  /** `search` is sent only when non-empty, `category` and `featured` only when not "all"; `page` never. */
  lemma ParamsGet(f: Filters)
    ensures Get(Params(f), "search") == (if f.search != "" then Some(f.search) else None)
    ensures Get(Params(f), "category") == (if f.category != All then Some(f.category) else None)
    ensures Get(Params(f), "featured") == (if f.featured != All then Some(f.featured) else None)
    ensures Get(Params(f), "limit") == Some("50")
    ensures Get(Params(f), "page") == None
  {
    ParamsGetKey(f, "search");
    ParamsGetKey(f, "category");
    ParamsGetKey(f, "featured");
    ParamsGetKey(f, "limit");
    ParamsGetKey(f, "page");
  }

  /** `get` on the parameters looks through the three optional groups, then `limit`. */
  lemma ParamsGetKey(f: Filters, key: string)
    ensures Get(Params(f), key) ==
      if key == "search" && f.search != "" then Some(f.search)
      else if key == "category" && f.category != All then Some(f.category)
      else if key == "featured" && f.featured != All then Some(f.featured)
      else if key == "limit" then Some("50")
      else None
  {
    var s := if f.search != "" then [QueryParam("search", f.search)] else [];
    var c := if f.category != All then [QueryParam("category", f.category)] else [];
    var e := if f.featured != All then [QueryParam("featured", f.featured)] else [];
    var l := [QueryParam("limit", "50")];
    assert Params(f) == s + c + e + l;
    GetConcat(s, c, e, l, key);
  }

  /** `get` on four appended groups finds the first group holding the key. */
  lemma GetConcat(s: seq<QueryParam>, c: seq<QueryParam>, e: seq<QueryParam>, l: seq<QueryParam>, key: string)
    ensures Get(s + c + e + l, key) ==
      if Get(s, key).Some? then Get(s, key)
      else if Get(c, key).Some? then Get(c, key)
      else if Get(e, key).Some? then Get(e, key)
      else Get(l, key)
  {
    GetAppend(s + c + e, l, key);
    GetAppend(s + c, e, key);
    GetAppend(s, c, key);
  }

  /**
   * `parseInt` of a numeric parameter, as the route reads it; `None` when the
   * parameter is missing or does not start with a number.
   */
  function Parsed(raw: Option<string>): Option<int> {
    if raw.Some? then ParseInt(raw.value) else None
  }

  /** What the route reads from a query string: each parameter it knows, numbers parsed. */
  function RouteQuery(params: seq<QueryParam>): ListQuery {
    ListQuery(Parsed(Get(params, "page")), Parsed(Get(params, "limit")),
              Get(params, "search"), Get(params, "category"), Get(params, "featured"))
  }

  /**
   * The filters reach the route as they are: the first page of 50, the
   * search text, the category (an empty choice counts as "all" there) and
   * `featured` only when it is exactly "true".
   */
  lemma FiltersReachRoute(f: Filters)
    ensures PageOf(RouteQuery(Params(f))) == 1 && LimitOf(RouteQuery(Params(f))) == PageSize
    ensures SearchOf(RouteQuery(Params(f))) == f.search
    ensures CategoryOf(RouteQuery(Params(f))) == (if f.category == "" then All else f.category)
    ensures RouteQuery(Params(f)).featured == Some("true") <==> f.featured == "true"
  {
    ParamsGet(f);
    ParseLimit();
  }

  /** The route parses the `limit` the page sends as the page size. */
  lemma ParseLimit()
    ensures Parsed(Some("50")) == Some(PageSize)
  {
    assert Digits(5) == "5";
    assert Decimal(PageSize) == Digits(5) + [DigitChar(0)] == "50";
    ParseDecimal(PageSize);
  }

  /** After `clearFilters` the page asks for the first 50 products of every kind. */
  lemma ClearedFiltersSelectAll(categories: seq<Category>)
    ensures WhereFor(RouteQuery(Params(ClearedFilters)), categories) == Some(AnyProduct)
  {
    FiltersReachRoute(ClearedFilters);
  }

  /** A product as the page receives it; a list is `None` when the value is not an array. */
  datatype ApiProduct = ApiProduct(
    id: Id,
    name: string,
    code: string,
    description: Option<string>,
    price: Option<int>,
    image: Option<string>,
    images: Option<seq<string>>,
    featured: bool,
    category: Option<Category>,
    materials: Option<seq<string>>,
    colors: Option<seq<string>>,
    sizes: Option<seq<string>>)

  /** The JSON `/api/products` sends for a listed product. */
  function FromListed(p: ProductOut): ApiProduct {
    ApiProduct(p.id, p.name, p.code, p.description, p.price, p.image, Some(p.images), p.featured,
               p.category, Some(p.materials), Some(p.colors), Some(p.sizes))
  }

  /** The page's `Product` interface. */
  datatype ViewProduct = ViewProduct(
    id: Id,
    name: string,
    code: string,
    description: string,
    price: int,
    image: string,
    featured: bool,
    category: string,
    materials: seq<string>,
    colors: seq<string>,
    sizes: seq<string>)

  /** `x || fallback` for a string that may be missing. */
  function OrElse(x: Option<string>, fallback: string): (r: string)
    ensures r == fallback <==> x.None? || x.value == "" || x.value == fallback
    ensures x.Some? && x.value != "" ==> r == x.value
  {
    if x.Some? && x.value != "" then x.value else fallback
  }

  /** `Array.isArray(x) ? x : []` */
  function ArrayOr(x: Option<seq<string>>): (r: seq<string>)
    ensures x.Some? ==> r == x.value
    ensures x.None? ==> r == []
  {
    if x.Some? then x.value else []
  }

  /** The view record of one product. */
  function ToView(p: ApiProduct): (v: ViewProduct)
    ensures v.id == p.id && v.name == p.name && v.code == p.code && v.featured == p.featured
    ensures v.description == p.description.GetOr("")
    ensures v.price == p.price.GetOr(0)
    ensures p.images.Some? && |p.images.value| > 0 ==> v.image == p.images.value[0]
    ensures !(p.images.Some? && |p.images.value| > 0) ==>
      v.image == (if p.image.Some? && p.image.value != "" then p.image.value else PlaceholderImage)
    ensures v.category == (if p.category.Some? && p.category.value.name != "" then p.category.value.name else Uncategorized)
    ensures v.materials == ArrayOr(p.materials) && v.colors == ArrayOr(p.colors) && v.sizes == ArrayOr(p.sizes)
  {
    ViewProduct(
      p.id, p.name, p.code,
      OrElse(p.description, ""),
      if p.price.Some? && p.price.value != 0 then p.price.value else 0,
      if p.images.Some? && |p.images.value| > 0 then p.images.value[0] else OrElse(p.image, PlaceholderImage),
      p.featured,
      OrElse(if p.category.Some? then Some(p.category.value.name) else None, Uncategorized),
      ArrayOr(p.materials), ArrayOr(p.colors), ArrayOr(p.sizes))
  }

  /** `(data.products || []).map(...)` */
  function Transform(products: Option<seq<ApiProduct>>): (r: seq<ViewProduct>)
    ensures products.None? ==> r == []
    ensures products.Some? ==> |r| == |products.value|
    ensures products.Some? ==> forall i :: 0 <= i < |r| ==> r[i] == ToView(products.value[i])
  {
    if products.None? then [] else TransformAll(products.value)
  }

  function TransformAll(ps: seq<ApiProduct>): (r: seq<ViewProduct>)
    ensures |r| == |ps| && forall i :: 0 <= i < |r| ==> r[i] == ToView(ps[i])
  {
    if ps == [] then [] else [ToView(ps[0])] + TransformAll(ps[1..])
  }

  /** The lists a product was created with are the lists the catalogue shows, in order. */
  lemma CreatedListsReachView(input: ProductInput, id: Id, now: int, categories: seq<Category>)
    ensures var v := ToView(FromListed(Processed(NewRow(input, id, now), categories)));
      && v.materials == input.materials.GetOr([])
      && v.colors == input.colors.GetOr([])
      && v.sizes == input.sizes.GetOr([])
  {
    ListFieldsRoundTrip(input, id, now, categories);
  }

  /** The quote form's entries; `quantity` is already parsed, `None` when it is not a number. */
  datatype QuoteForm = QuoteForm(
    clientName: Option<string>,
    clientEmail: Option<string>,
    clientPhone: Option<string>,
    company: Option<string>,
    quantity: Option<int>,
    message: Option<string>)

  /** `parseInt(quantity) || 1` */
  function ItemQuantity(form: QuoteForm): (n: int)
    ensures n != 0
    ensures form.quantity.Some? && form.quantity.value != 0 ==> n == form.quantity.value
    ensures form.quantity.None? || form.quantity.value == 0 ==> n == 1
  {
    if form.quantity.Some? && form.quantity.value != 0 then form.quantity.value else 1
  }

  /** The body `handleQuoteSubmit` posts to `/api/quotes`. */
  function QuoteRequest(form: QuoteForm, selected: Option<ViewProduct>): (r: QuotesRoute.QuoteInput)
    ensures r.clientName == form.clientName && r.clientEmail == form.clientEmail
    ensures r.clientPhone == form.clientPhone && r.company == form.company && r.notes == form.message
    ensures r.items.Items?
    ensures selected.None? ==> r.items.list == []
    ensures selected.Some? ==> |r.items.list| == 1
    ensures selected.Some? ==>
      var item := r.items.list[0];
      && item.productId == Some(selected.value.id)
      && item.quantity == Some(ItemQuantity(form))
      && item.unitPrice == Some(selected.value.price)
      && item.totalPrice == Some(selected.value.price * ItemQuantity(form))
      && item.notes == form.message
  {
    var items :=
      if selected.None? then []
      else
        var p := selected.value;
        var qty := ItemQuantity(form);
        [QuotesRoute.ItemInput(Some(p.id), Some(qty), Some(p.price), Some(p.price * qty), form.message)];
    QuotesRoute.QuoteInput(form.clientName, form.clientEmail, form.clientPhone, form.company,
                           QuotesRoute.Items(items), form.message)
  }

  /** Without a selected product the item list is empty, so the quote route refuses the request. */
  lemma NoSelectionIsRejected(form: QuoteForm)
    ensures !QuotesRoute.HasRequiredFields(QuoteRequest(form, None))
  {
  }

  /** A quote for a selected product is stored with total price times quantity. */
  lemma QuotedTotal(form: QuoteForm, p: ViewProduct, id: Id, now: int)
    requires QuotesRoute.Truthy(form.clientName) && QuotesRoute.Truthy(form.clientEmail)
    ensures QuotesRoute.HasRequiredFields(QuoteRequest(form, Some(p)))
    ensures QuotesRoute.NewQuote(QuoteRequest(form, Some(p)), id, now).totalAmount == p.price * ItemQuantity(form)
  {
    var input := QuoteRequest(form, Some(p));
    var q := QuotesRoute.NewQuote(input, id, now);
    assert |q.items| == 1;
    assert q.items[0] == QuotesRoute.ItemRecord(input.items.list[0]);
    assert q.items[0].totalPrice == Some(p.price * ItemQuantity(form));
    assert q.items[1..] == [];
    assert QuotesRoute.LineSum(q.items) == q.items[0].totalPrice.GetOr(0) + QuotesRoute.LineSum(q.items[1..]);
  }

  class ProductsPage {
    var filters: Filters
    var products: seq<ViewProduct>
    var selectedProduct: Option<ViewProduct>
    var showQuoteDialog: bool
    var isSubmittingQuote: bool
    /** The quote requests posted, oldest first. */
    var posted: seq<QuotesRoute.QuoteInput>

    constructor ()
      ensures filters == ClearedFilters && products == [] && selectedProduct == None
      ensures !showQuoteDialog && !isSubmittingQuote && posted == []
    {
      filters := ClearedFilters;
      products := [];
      selectedProduct := None;
      showQuoteDialog := false;
      isSubmittingQuote := false;
      posted := [];
    }

    /** The query string of `fetchProducts`, appended parameter by parameter. */
    method FetchParams() returns (params: seq<QueryParam>)
      ensures params == Params(filters)
    {
      params := [];
      if filters.search != "" {
        params := params + [QueryParam("search", filters.search)];
      }
      if filters.category != All {
        params := params + [QueryParam("category", filters.category)];
      }
      if filters.featured != All {
        params := params + [QueryParam("featured", filters.featured)];
      }
      params := params + [QueryParam("limit", "50")];
    }

    /** `setProducts(transformedProducts)` with the route's answer. */
    method ShowProducts(data: Option<seq<ApiProduct>>)
      modifies this
      ensures products == Transform(data)
      ensures filters == old(filters) && selectedProduct == old(selectedProduct)
      ensures showQuoteDialog == old(showQuoteDialog) && isSubmittingQuote == old(isSubmittingQuote)
      ensures posted == old(posted)
    {
      products := Transform(data);
    }

    /** `clearFilters` */
    method ClearFilters()
      modifies this
      ensures filters == ClearedFilters
      ensures products == old(products) && selectedProduct == old(selectedProduct)
      ensures showQuoteDialog == old(showQuoteDialog) && isSubmittingQuote == old(isSubmittingQuote)
      ensures posted == old(posted)
    {
      filters := Filters("", All, All);
    }

    /** Opening the quote dialog for one product. */
    method OpenQuote(p: ViewProduct)
      modifies this
      ensures selectedProduct == Some(p) && showQuoteDialog
      ensures filters == old(filters) && products == old(products)
      ensures isSubmittingQuote == old(isSubmittingQuote) && posted == old(posted)
    {
      selectedProduct := Some(p);
      showQuoteDialog := true;
    }

    /** `handleQuoteSubmit`, with whether the route answered ok as a parameter. */
    method SubmitQuote(form: QuoteForm, ok: bool)
      modifies this
      ensures posted == old(posted) + [QuoteRequest(form, old(selectedProduct))]
      ensures !isSubmittingQuote
      ensures ok ==> !showQuoteDialog && selectedProduct == None
      ensures !ok ==> showQuoteDialog == old(showQuoteDialog) && selectedProduct == old(selectedProduct)
      ensures filters == old(filters) && products == old(products)
    {
      isSubmittingQuote := true;
      posted := posted + [QuoteRequest(form, selectedProduct)];
      if ok {
        showQuoteDialog := false;
        selectedProduct := None;
      }
      isSubmittingQuote := false;
    }
  }
}
