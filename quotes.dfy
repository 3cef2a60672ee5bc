/**
 * `/api/quotes`: POST validates the request, totals its items and stores
 * the quote with one item per request item; GET pages through the quotes
 * newest first, optionally only those with a given status.
 */
module QuotesRoute {
  import opened Schema
  import opened Sorting
  import opened Paging

  const MissingFields: string := "Missing required fields"
  const FetchError: string := "Error fetching quotes"
  const Pending: string := "pending"

  /** One element of the request's `items` array. */
  datatype ItemInput = ItemInput(
    productId: Option<Id>,
    quantity: Option<int>,
    unitPrice: Option<int>,
    totalPrice: Option<int>,
    notes: Option<string>)

  /** The request's `items` field: missing, something other than an array, or an array. */
  datatype ItemsField = Absent | NotAList | Items(list: seq<ItemInput>)

  datatype QuoteInput = QuoteInput(
    clientName: Option<string>,
    clientEmail: Option<string>,
    clientPhone: Option<string>,
    company: Option<string>,
    items: ItemsField,
    notes: Option<string>)

  /** A string field is truthy when present and not empty. */
  predicate Truthy(s: Option<string>) {
    s.Some? && s.value != ""
  }

  /** The guard of POST: name and email truthy, items a non-empty array. */
  predicate HasRequiredFields(input: QuoteInput) {
    Truthy(input.clientName) && Truthy(input.clientEmail) && input.items.Items? && |input.items.list| > 0
  }

  /** `item.totalPrice || 0` */
  function Contribution(item: ItemInput): int {
    item.totalPrice.GetOr(0)
  }

  /** `items.reduce((sum, item) => sum + (item.totalPrice || 0), 0)`, folding from the left. */
  function Reduce(items: seq<ItemInput>): int {
    if items == [] then 0 else Reduce(items[..|items| - 1]) + Contribution(items[|items| - 1])
  }

  /** The line totals of stored items, summed from the front. */
  function LineSum(items: seq<QuoteItem>): int {
    if items == [] then 0 else items[0].totalPrice.GetOr(0) + LineSum(items[1..])
  }

  lemma {:induction false} LineSumAppend(a: seq<QuoteItem>, b: seq<QuoteItem>)
    ensures LineSum(a + b) == LineSum(a) + LineSum(b)
  {
    if a == [] {
      assert a + b == b;
    } else {
      assert (a + b)[1..] == a[1..] + b;
      LineSumAppend(a[1..], b);
    }
  }

  /** The stored item for a request item: its five fields copied as given. */
  function ItemRecord(item: ItemInput): (r: QuoteItem)
    ensures r.productId == item.productId && r.quantity == item.quantity && r.unitPrice == item.unitPrice
    ensures r.totalPrice == item.totalPrice && r.notes == item.notes
  {
    QuoteItem(item.productId, item.quantity, item.unitPrice, item.totalPrice, item.notes)
  }

  /** `items.map(...)` in the nested create. */
  function ItemRecords(items: seq<ItemInput>): (r: seq<QuoteItem>)
    ensures |r| == |items|
    ensures forall i :: 0 <= i < |r| ==> r[i] == ItemRecord(items[i])
  {
    if items == [] then [] else [ItemRecord(items[0])] + ItemRecords(items[1..])
  }

  /** The total POST computes is the sum of the line totals of the items it stores. */
  lemma {:induction false} ReduceIsLineSum(items: seq<ItemInput>)
    ensures Reduce(items) == LineSum(ItemRecords(items))
  {
    if items != [] {
      var init := items[..|items| - 1];
      var last := items[|items| - 1];
      ReduceIsLineSum(init);
      assert items == init + [last];
      assert ItemRecords(items) == ItemRecords(init) + [ItemRecord(last)];
      LineSumAppend(ItemRecords(init), [ItemRecord(last)]);
    }
  }

  /** The quote POST stores for a request that passed the guard. */
  function NewQuote(input: QuoteInput, id: Id, now: int): (q: Quote)
    requires HasRequiredFields(input)
    ensures q.id == id && q.createdAt == now && q.status == Pending
    ensures q.clientName == input.clientName.value && q.clientEmail == input.clientEmail.value
    ensures q.clientPhone == input.clientPhone && q.company == input.company && q.notes == input.notes
    ensures |q.items| == |input.items.list| > 0
    ensures forall i :: 0 <= i < |q.items| ==> q.items[i] == ItemRecord(input.items.list[i])
    ensures q.totalAmount == LineSum(q.items)
  {
    ReduceIsLineSum(input.items.list);
    Quote(id, input.clientName.value, input.clientEmail.value, input.clientPhone, input.company,
          Reduce(input.items.list), input.notes, Pending, ItemRecords(input.items.list), now)
  }

  /** Every stored quote is pending, has items, and its total is the sum of its line totals. */
  ghost predicate WellFormed(q: Quote) {
    q.status == Pending && |q.items| > 0 && q.totalAmount == LineSum(q.items)
  }

  /** The query parameters of GET, numbers already parsed. */
  datatype QuoteQuery = QuoteQuery(page: Option<int>, limit: Option<int>, status: Option<string>)

  function PageOf(q: QuoteQuery): int { Param(q.page, DefaultPage) }
  function LimitOf(q: QuoteQuery): int { Param(q.limit, DefaultLimit) }

  /** `if (status) where.status = status` */
  predicate StatusMatches(quote: Quote, status: Option<string>) {
    Truthy(status) ==> quote.status == status.value
  }

  function Selected(rows: seq<Quote>, status: Option<string>): (r: seq<Quote>)
    ensures |r| <= |rows|
    ensures forall q :: q in r <==> q in rows && StatusMatches(q, status)
    ensures forall q {:trigger StatusMatches(q, status), multiset(r)[q]} :: multiset(r)[q] == if StatusMatches(q, status) then multiset(rows)[q] else 0
  {
    if rows == [] then []
    else
      assert rows == [rows[0]] + rows[1..];
      (if StatusMatches(rows[0], status) then [rows[0]] else []) + Selected(rows[1..], status)
  }

  function QuoteStamp(q: Quote): int { q.createdAt }

  datatype ListResponse =
    | Listed(quotes: seq<Quote>, pagination: Pagination)
    | ListFailed(status: nat, error: string)

  /** The selected quotes in the order GET pages through them, newest first. */
  function NewestSelected(rows: seq<Quote>, status: Option<string>): seq<Quote> {
    ByStampDesc(Selected(rows, status), QuoteStamp)
  }

  /** The quotes of one page: the selected quotes, newest first, from offset `skip` on. */
  function PageQuotes(rows: seq<Quote>, status: Option<string>, skip: nat, limit: nat): (r: seq<Quote>)
    ensures |r| <= limit
    ensures skip >= |Selected(rows, status)| ==> r == []
    ensures var total := |Selected(rows, status)|;
      skip < total ==> |r| == if skip + limit <= total then limit else total - skip
    ensures forall i :: 0 <= i < |r| ==>
      skip + i < |NewestSelected(rows, status)| && r[i] == NewestSelected(rows, status)[skip + i]
    ensures NewestFirst(r, QuoteStamp)
    ensures forall x :: x in r ==> x in rows && StatusMatches(x, status)
  {
    var selected := Selected(rows, status);
    var ordered := NewestSelected(rows, status);
    SameMembers(ordered, selected);
    assert |ordered| == |multiset(ordered)| == |multiset(selected)| == |selected|;
    var window := Window(ordered, skip, limit);
    WindowKeepsOrder(ordered, skip, limit, QuoteStamp);
    assert forall i :: 0 <= i < |window| ==> window[i] in ordered;
    window
  }

  /** GET /api/quotes. A page below 1 gives a negative skip, which the store rejects. */
  function ListSpec(q: QuoteQuery, rows: seq<Quote>): (r: ListResponse)
    ensures r.ListFailed? <==> PageOf(q) < 1 || LimitOf(q) < 1
    ensures r.ListFailed? ==> r == ListFailed(500, FetchError)
    ensures r.Listed? ==>
      var total := |Selected(rows, q.status)|;
      var skip := Skip(PageOf(q), LimitOf(q));
      && r.pagination == Pagination(PageOf(q), LimitOf(q), total, PageCount(total, LimitOf(q)))
      && |r.quotes| <= LimitOf(q)
      && (skip >= total ==> r.quotes == [])
      && (skip < total ==> |r.quotes| == if skip + LimitOf(q) <= total then LimitOf(q) else total - skip)
      && (forall i :: 0 <= i < |r.quotes| ==>
            0 <= skip + i < |NewestSelected(rows, q.status)| && r.quotes[i] == NewestSelected(rows, q.status)[skip + i])
      && NewestFirst(r.quotes, QuoteStamp)
      && (forall x :: x in r.quotes ==> x in rows && StatusMatches(x, q.status))
  {
    var page := PageOf(q);
    var limit := LimitOf(q);
    if page < 1 || limit < 1 then ListFailed(500, FetchError)
    else
      var total := |Selected(rows, q.status)|;
      Listed(PageQuotes(rows, q.status, Skip(page, limit), limit),
             Pagination(page, limit, total, PageCount(total, limit)))
  }

  class QuoteStore {
    var rows: seq<Quote>
    var nextId: Id

    ghost predicate Valid()
      reads this
    {
      && (forall i :: 0 <= i < |rows| ==> rows[i].id < nextId && WellFormed(rows[i]))
      && (forall i, j :: 0 <= i < j < |rows| ==> rows[i].id != rows[j].id)
    }

    constructor ()
      ensures Valid() && rows == []
    {
      rows := [];
      nextId := 0;
    }

    /** POST /api/quotes: the quote and its items are written together or not at all. */
    method Create(input: QuoteInput, now: int) returns (r: Created<Quote>)
      requires Valid()
      modifies this
      ensures Valid()
      ensures !HasRequiredFields(input) ==>
        r == Rejected(400, MissingFields) && rows == old(rows) && nextId == old(nextId)
      ensures HasRequiredFields(input) ==>
        && r == Created(NewQuote(input, old(nextId), now))
        && r.Status() == 201
        && rows == old(rows) + [r.row]
        && nextId == old(nextId) + 1
    {
      if !HasRequiredFields(input) {
        return Rejected(400, MissingFields);
      }
      var quote := NewQuote(input, nextId, now);
      rows := rows + [quote];
      nextId := nextId + 1;
      r := Created(quote);
    }

    /** GET /api/quotes: `where.status` is set only for a non-empty status. */
    method List(q: QuoteQuery) returns (r: ListResponse)
      ensures r == ListSpec(q, rows)
    {
      var page := Param(q.page, DefaultPage);
      var limit := Param(q.limit, DefaultLimit);
      var status: Option<string> := None;
      if q.status.Some? && q.status.value != "" {
        status := q.status;
      }
      assert Selected(rows, status) == Selected(rows, q.status) by {
        SelectedIgnoresEmptyStatus(rows, q.status, status);
      }
      if page < 1 || limit < 1 {
        return ListFailed(500, FetchError);
      }
      var selected := Selected(rows, status);
      r := Listed(PageQuotes(rows, status, Skip(page, limit), limit),
                  Pagination(page, limit, |selected|, PageCount(|selected|, limit)));
    }
  }

  /** An empty status parameter filters nothing, like an absent one. */
  lemma {:induction false} SelectedIgnoresEmptyStatus(rows: seq<Quote>, a: Option<string>, b: Option<string>)
    requires Truthy(a) == Truthy(b) && (Truthy(a) ==> a == b)
    ensures Selected(rows, a) == Selected(rows, b)
  {
    if rows != [] {
      SelectedIgnoresEmptyStatus(rows[1..], a, b);
    }
  }

  /** Without a status parameter GET counts every stored quote. */
  lemma {:induction false} UnfilteredCountsAll(rows: seq<Quote>)
    ensures Selected(rows, None) == rows
  {
    if rows != [] {
      UnfilteredCountsAll(rows[1..]);
    }
  }
}
