/**
 * `/api/printing-techniques`: POST is a check-then-insert keyed on `name`
 * only (icons and descriptions may repeat); GET lists every technique by
 * name with the number of products linked to it.
 */
module TechniquesRoute {
  import opened Schema
  import opened Sorting

  const NameExists: string := "Printing technique name already exists"

  ghost predicate NamesDistinct(rows: seq<Technique>) {
    forall i, j :: 0 <= i < j < |rows| ==> rows[i].name != rows[j].name
  }

  class TechniqueTable {
    var rows: seq<Technique>
    var nextId: Id

    ghost predicate Valid()
      reads this
    {
      && NamesDistinct(rows)
      && (forall i :: 0 <= i < |rows| ==> rows[i].id < nextId)
      && (forall i, j :: 0 <= i < j < |rows| ==> rows[i].id != rows[j].id)
    }

    constructor ()
      ensures Valid() && rows == []
    {
      rows := [];
      nextId := 0;
    }

    /** POST /api/printing-techniques */
    method Create(name: string, description: Option<string>, icon: Option<string>) returns (r: Created<Technique>)
      requires Valid()
      modifies this
      ensures Valid()
      ensures FindBy(old(rows), TechniqueName, name).Some? ==>
        r == Rejected(400, NameExists) && rows == old(rows) && nextId == old(nextId)
      ensures FindBy(old(rows), TechniqueName, name).None? ==>
        && r == Created(Technique(old(nextId), name, description, icon))
        && r.Status() == 201
        && rows == old(rows) + [r.row]
        && nextId == old(nextId) + 1
    {
      var existing := FindBy(rows, TechniqueName, name);
      if existing.Some? {
        return Rejected(400, NameExists);
      }
      var technique := Technique(nextId, name, description, icon);
      rows := rows + [technique];
      nextId := nextId + 1;
      r := Created(technique);
    }
  }

  /** The products linked to technique `id` through the many-to-many relation. */
  function LinkedTo(products: seq<ProductRow>, id: Id): (r: seq<ProductRow>)
    ensures |r| <= |products|
    ensures forall p :: p in r <==> p in products && id in p.techniqueIds
    ensures forall p :: multiset(r)[p] == if id in p.techniqueIds then multiset(products)[p] else 0
  {
    if products == [] then []
    else
      assert products == [products[0]] + products[1..];
      (if id in products[0].techniqueIds then [products[0]] else []) + LinkedTo(products[1..], id)
  }

  /** A technique as GET lists it, with `_count.products`. */
  datatype TechniqueEntry = TechniqueEntry(technique: Technique, productCount: nat)

  function EntryName(e: TechniqueEntry): string {
    e.technique.name
  }

  /** The `_count.products` of technique `t`. */
  function ProductCount(t: Technique, products: seq<ProductRow>): nat {
    |LinkedTo(products, t.id)|
  }

  function Counted(rows: seq<Technique>, products: seq<ProductRow>): (r: seq<TechniqueEntry>)
    ensures |r| == |rows|
    ensures forall e :: e in r <==> e.technique in rows && e.productCount == ProductCount(e.technique, products)
    ensures forall i :: 0 <= i < |rows| ==> r[i] == TechniqueEntry(rows[i], ProductCount(rows[i], products))
  {
    if rows == [] then []
    else [TechniqueEntry(rows[0], ProductCount(rows[0], products))] + Counted(rows[1..], products)
  }

  /** GET /api/printing-techniques */
  function Listing(rows: seq<Technique>, products: seq<ProductRow>): (r: seq<TechniqueEntry>)
    ensures |r| == |rows|
    ensures SortedByName(r, EntryName)
    ensures multiset(r) == multiset(Counted(rows, products))
    ensures forall e :: e in r <==> e.technique in rows && e.productCount == ProductCount(e.technique, products)
  {
    var counted := Counted(rows, products);
    var r := ByName(counted, EntryName);
    SameMembers(r, counted);
    r
  }
}
