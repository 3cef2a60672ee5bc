/**
 * The entities of the catalogue's relational store, as the route handlers
 * see them once the ORM is replaced by in-memory tables.
 */
module Schema {

  datatype Option<+T> = None | Some(value: T) {
    function GetOr(default: T): (r: T)
      ensures Some? ==> r == value
      ensures None? ==> r == default
    {
      match this
      case Some(v) => v
      case None => default
    }
  }

  /** Row identifiers; the store hands them out from a per-table counter. */
  type Id = nat

  /** A category: `code` is the unique short key. */
  datatype Category = Category(id: Id, name: string, description: Option<string>, code: string)

  /** A printing technique: `name` is the unique key. */
  datatype Technique = Technique(id: Id, name: string, description: Option<string>, icon: Option<string>)

  /**
   * A stored product. The four list fields hold the stored list, or None
   * when nothing was stored (the column is null).
   */
  datatype ProductRow = ProductRow(
    id: Id,
    name: string,
    description: Option<string>,
    code: string,
    price: Option<int>,
    image: Option<string>,
    images: Option<seq<string>>,
    featured: bool,
    minQuantity: Option<int>,
    maxQuantity: Option<int>,
    materials: Option<seq<string>>,
    colors: Option<seq<string>>,
    sizes: Option<seq<string>>,
    customizationInfo: Option<string>,
    categoryId: Id,
    techniqueIds: set<Id>,
    createdAt: int)

  /** One line of a quote, copied from the request item as given. */
  datatype QuoteItem = QuoteItem(
    productId: Option<Id>,
    quantity: Option<int>,
    unitPrice: Option<int>,
    totalPrice: Option<int>,
    notes: Option<string>)

  datatype Quote = Quote(
    id: Id,
    clientName: string,
    clientEmail: string,
    clientPhone: Option<string>,
    company: Option<string>,
    totalAmount: int,
    notes: Option<string>,
    status: string,
    items: seq<QuoteItem>,
    createdAt: int)

  /** `findUnique` on a unique column: the first row whose `key` is `k`. */
  function FindBy<T>(rows: seq<T>, key: T -> string, k: string): (r: Option<T>)
    ensures r.Some? ==> r.value in rows && key(r.value) == k
    ensures r.None? <==> forall i :: 0 <= i < |rows| ==> key(rows[i]) != k
  {
    if rows == [] then None
    else if key(rows[0]) == k then Some(rows[0])
    else FindBy(rows[1..], key, k)
  }

  /** The key columns `findUnique` looks rows up by. */
  function ProductCode(p: ProductRow): string { p.code }
  function CategoryCode(c: Category): string { c.code }
  function TechniqueName(t: Technique): string { t.name }

  /** The paging block every list endpoint returns. */
  datatype Pagination = Pagination(page: int, limit: int, total: nat, pages: int)

  /** The outcome of a create handler: 201 with the row, or an error body. */
  datatype Created<T> =
    | Created(row: T)
    | Rejected(status: nat, error: string)
  {
    function Status(): nat {
      if Created? then 201 else status
    }
  }
}
