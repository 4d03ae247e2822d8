/** The sale repository (ORM/Repositories/SaleRepository.cs) over the database it writes
    to: the committed sales, keyed by id. Loading a sale materialises new objects;
    changes made to them reach the store only through `Create` or `Update`. */
module SaleStore {
  import opened SalesCommon
  import opened SaleItemModel
  import opened SaleItemEntity
  import opened SaleModel
  import opened SaleEntity

  /** Every stored sale sits under its own id, and no sale has the empty id. */
  predicate WellKeyed(store: map<Guid, SaleData>) {
    && Empty !in store
    && forall id :: id in store ==> store[id].id == id
  }

  /** `GetBySaleNumberAsync` finds a sale. */
  predicate HasSaleNumber(store: map<Guid, SaleData>, saleNumber: string) {
    exists id :: id in store && store[id].saleNumber == saleNumber
  }

  /** Key generation on insert for one item: an empty id gets the generated key, and the
      foreign key is fixed up to the owning sale. */
  function KeyedItem(item: SaleItemData, key: Guid, saleId: Guid): SaleItemData {
    item.(id := if item.id == Empty then key else item.id, saleId := saleId)
  }

  /** The id the inserted sale ends up with. */
  function KeyOf(s: SaleData, saleKey: Guid): Guid {
    if s.id == Empty then saleKey else s.id
  }

  /** The sale as it is after insertion: keys generated where empty, item foreign keys
      fixed up, nothing else touched. */
  function Keyed(s: SaleData, saleKey: Guid, itemKeys: seq<Guid>): (r: SaleData)
    requires |itemKeys| == |s.items|
    ensures r.id == KeyOf(s, saleKey) && |r.items| == |s.items|
    ensures forall i :: 0 <= i < |s.items| ==> r.items[i] == KeyedItem(s.items[i], itemKeys[i], r.id)
    ensures r.(id := s.id, items := s.items) == s
  {
    var id := KeyOf(s, saleKey);
    s.(id := id, items := seq(|s.items|, i requires 0 <= i < |s.items| => KeyedItem(s.items[i], itemKeys[i], id)))
  }

  /** Insertion keeps every business field of every item: only ids and foreign keys move. */
  lemma KeyedKeepsBusinessFields(s: SaleData, saleKey: Guid, itemKeys: seq<Guid>, i: nat)
    requires |itemKeys| == |s.items| && i < |s.items|
    ensures var k := Keyed(s, saleKey, itemKeys).items[i];
      k.(id := s.items[i].id, saleId := s.items[i].saleId) == s.items[i]
    ensures Consistent(s) ==> Consistent(Keyed(s, saleKey, itemKeys))
  {
    var r := Keyed(s, saleKey, itemKeys);
    if Consistent(s) {
      TotalIgnoresKeys(s.items, r.items);
    }
  }

  /** The sale total reads only the totals and cancellation flags of the items. */
  lemma {:induction false} TotalIgnoresKeys(xs: seq<SaleItemData>, ys: seq<SaleItemData>)
    requires |xs| == |ys|
    requires forall i :: 0 <= i < |xs| ==> xs[i].totalAmount == ys[i].totalAmount && xs[i].isCancelled == ys[i].isCancelled
    ensures ActiveTotal(xs) == ActiveTotal(ys)
    decreases |xs|
  {
    if xs != [] {
      TotalIgnoresKeys(xs[1..], ys[1..]);
      ActiveTotalSplit(xs, 0);
      ActiveTotalSplit(ys, 0);
      assert xs[..0] == [] && ys[..0] == [];
    }
  }

  /** Assigns generated keys and the owning sale's id to each item object in turn. */
  method AssignKeys(items: seq<SaleItem>, keys: seq<Guid>, saleId: Guid)
    requires Distinct(items) && |keys| == |items|
    modifies items
    ensures forall i :: 0 <= i < |items| ==> items[i].Value() == KeyedItem(old(items[i].Value()), keys[i], saleId)
  {
    var i := 0;
    while i < |items|
      invariant 0 <= i <= |items|
      invariant forall j :: 0 <= j < i ==> items[j].Value() == KeyedItem(old(items[j].Value()), keys[j], saleId)
      invariant forall j :: i <= j < |items| ==> items[j].Value() == old(items[j].Value())
    {
      var item := items[i];
      if item.id == Empty {
        item.id := keys[i];
      }
      item.saleId := saleId;
      i := i + 1;
    }
  }

  /** New, distinct item objects holding the given values, in order. */
  method Materialise(values: seq<SaleItemData>) returns (objects: seq<SaleItem>)
    ensures Snapshot(objects) == values && Distinct(objects)
    ensures forall i :: 0 <= i < |objects| ==> fresh(objects[i])
  {
    objects := [];
    var i := 0;
    while i < |values|
      invariant 0 <= i <= |values| && |objects| == i
      invariant forall j :: 0 <= j < i ==> fresh(objects[j]) && objects[j].Value() == values[j]
      invariant Distinct(objects)
    {
      var item := new SaleItem(values[i]);
      objects := objects + [item];
      i := i + 1;
    }
  }

  class SaleRepository {
    /** The committed sales. */
    var sales: map<Guid, SaleData>

    predicate Valid()
      reads this
    {
      WellKeyed(sales)
    }

    /** An empty store. */
    constructor ()
      ensures sales == map[] && Valid()
    {
      sales := map[];
    }

    /** `GetBySaleNumberAsync(n) != null`. */
    method ExistsSaleNumber(saleNumber: string) returns (found: bool)
      ensures found == HasSaleNumber(sales, saleNumber)
    {
      found := exists id :: id in sales && sales[id].saleNumber == saleNumber;
    }

    /** `GetByIdAsync` with its items: a new Sale object over new, distinct item objects
        holding the stored values, or null when no sale has the id. */
    method GetById(id: Guid) returns (sale: Sale?)
      ensures sale == null <==> id !in sales
      ensures sale != null ==> && fresh(sale) && sale.Value() == sales[id]
                               && Distinct(sale.items)
                               && forall i :: 0 <= i < |sale.items| ==> fresh(sale.items[i])
    {
      if id !in sales {
        return null;
      }
      var objects := Materialise(sales[id].items);
      sale := new Sale.Load(sales[id], objects);
    }

    /** `CreateAsync`: inserts the sale, generating the keys that are empty and fixing up
        the items' foreign key; the object is updated with its keys and stored. */
    method Create(sale: Sale, saleKey: Guid, itemKeys: seq<Guid>)
      requires Valid() && Distinct(sale.items) && |itemKeys| == |sale.items|
      requires KeyOf(sale.Value(), saleKey) != Empty && KeyOf(sale.Value(), saleKey) !in sales
      modifies this, sale, sale.items
      ensures Valid()
      ensures sale.items == old(sale.items)
      ensures sale.Value() == Keyed(old(sale.Value()), saleKey, itemKeys)
      ensures sales == old(sales)[sale.id := sale.Value()]
    {
      var key := KeyOf(sale.Value(), saleKey);
      sale.id := key;
      AssignKeys(sale.items, itemKeys, key);
      assert Snapshot(sale.items) == Keyed(old(sale.Value()), saleKey, itemKeys).items;
      sales := sales[key := sale.Value()];
    }

    /** `UpdateAsync` of a loaded sale: its current state is committed under its id. */
    method Update(sale: Sale)
      requires Valid() && sale.id in sales
      modifies this
      ensures Valid()
      ensures sales == old(sales)[sale.id := sale.Value()]
    {
      sales := sales[sale.id := sale.Value()];
    }

    /** `DeleteAsync`: false when no sale has the id, otherwise removes it and returns true. */
    method Delete(id: Guid) returns (removed: bool)
      requires Valid()
      modifies this
      ensures Valid()
      ensures removed <==> id in old(sales)
      ensures sales == old(sales) - {id}
    {
      if id !in sales {
        return false;
      }
      sales := sales - {id};
      removed := true;
    }
  }
}
