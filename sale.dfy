/** The sale aggregate (Domain/Entities/Sale.cs) as values: the snapshot of its fields
    and what each of its operations makes of that snapshot. */
module SaleModel {
  import opened SalesCommon
  import opened SaleItemModel

  /** A snapshot of every field of a Sale, its items included. */
  datatype SaleData = SaleData(
    id: Guid,
    saleNumber: string,
    saleDate: DateTime,
    customer: string,
    totalAmount: real,
    branch: string,
    isCancelled: bool,
    createdAt: DateTime,
    updatedAt: Option<DateTime>,
    items: seq<SaleItemData>)

  /** `Items.Where(i => !i.IsCancelled)`: the items still counted, in order. */
  function Active(items: seq<SaleItemData>): (r: seq<SaleItemData>)
    ensures |r| <= |items|
    ensures forall x :: x in r <==> x in items && !x.isCancelled
  {
    if items == [] then []
    else (if items[0].isCancelled then [] else [items[0]]) + Active(items[1..])
  }

  /** The filter keeps every active item as often as the list holds it and drops every
      cancelled one, so a repeated item is counted in the total each time. */
  lemma {:induction false} ActiveCounts(items: seq<SaleItemData>)
    ensures forall x :: multiset(Active(items))[x] == (if x.isCancelled then 0 else multiset(items)[x])
  {
    if items != [] {
      ActiveCounts(items[1..]);
      assert items == [items[0]] + items[1..];
    }
  }

  /** `Sum(i => i.TotalAmount)`. */
  function SumTotals(items: seq<SaleItemData>): real {
    if items == [] then 0.0 else items[0].totalAmount + SumTotals(items[1..])
  }

  /** The total `CalculateTotalAmount` assigns: the sum of the totals of the items that
      are not cancelled. */
  function ActiveTotal(items: seq<SaleItemData>): real {
    SumTotals(Active(items))
  }

  /** What one item adds to the sale total. */
  function Contribution(item: SaleItemData): real {
    if item.isCancelled then 0.0 else item.totalAmount
  }

  /** The stored total agrees with the items. */
  predicate Consistent(s: SaleData) {
    s.totalAmount == ActiveTotal(s.items)
  }

  /** A freshly constructed Sale: both CreatedAt and SaleDate read the clock, every other
      field has its default. */
  function NewSale(now: DateTime): SaleData {
    SaleData(Empty, "", now, "", 0.0, "", false, now, None, [])
  }

  /** The sale after `CalculateTotalAmount`. */
  function Recalculated(s: SaleData, now: DateTime): SaleData {
    s.(totalAmount := ActiveTotal(s.items), updatedAt := Some(now))
  }

  /** The sale after `Cancel`; the prior state is not consulted. */
  function Cancelled(s: SaleData, now: DateTime): SaleData {
    s.(isCancelled := true, updatedAt := Some(now))
  }

  /** The sale after `AddItem`. */
  function WithItemAdded(s: SaleData, item: SaleItemData, now: DateTime): SaleData {
    Recalculated(s.(items := s.items + [item]), now)
  }

  /** `FirstOrDefault(i => i.Id == id)`, as a position. */
  function FirstIndexOf(items: seq<SaleItemData>, id: Guid): (r: Option<nat>)
    ensures r.Some? ==> r.value < |items| && items[r.value].id == id
    ensures r.Some? ==> forall j :: 0 <= j < r.value ==> items[j].id != id
    ensures r.None? <==> forall j :: 0 <= j < |items| ==> items[j].id != id
  {
    if items == [] then None
    else if items[0].id == id then Some(0)
    else match FirstIndexOf(items[1..], id)
      case None => None
      case Some(k) => Some(k + 1)
  }

  /** The items without position `k`. */
  function RemoveAt(items: seq<SaleItemData>, k: nat): (r: seq<SaleItemData>)
    requires k < |items|
    ensures |r| == |items| - 1
    ensures forall j :: 0 <= j < k ==> r[j] == items[j]
    ensures forall j :: k <= j < |r| ==> r[j] == items[j + 1]
  {
    items[..k] + items[k + 1..]
  }

  /** The sale after `RemoveItem(id)`: the first item with that id is removed and the
      total recomputed; with no such item nothing changes, UpdatedAt included. */
  function WithItemRemoved(s: SaleData, id: Guid, now: DateTime): SaleData {
    match FirstIndexOf(s.items, id)
    case None => s
    case Some(k) => Recalculated(s.(items := RemoveAt(s.items, k)), now)
  }

  /** The items with the one at position `k` cancelled. */
  function CancelAt(items: seq<SaleItemData>, k: nat): (r: seq<SaleItemData>)
    requires k < |items|
    ensures |r| == |items| && r[k] == CancelledItem(items[k])
    ensures forall j :: 0 <= j < |items| && j != k ==> r[j] == items[j]
  {
    items[k := CancelledItem(items[k])]
  }

  lemma {:induction false} SumTotalsAppend(xs: seq<SaleItemData>, ys: seq<SaleItemData>)
    ensures SumTotals(xs + ys) == SumTotals(xs) + SumTotals(ys)
    decreases |xs|
  {
    if xs == [] {
      assert xs + ys == ys;
    } else {
      assert (xs + ys)[1..] == xs[1..] + ys;
      SumTotalsAppend(xs[1..], ys);
    }
  }

  lemma {:induction false} ActiveAppend(xs: seq<SaleItemData>, ys: seq<SaleItemData>)
    ensures Active(xs + ys) == Active(xs) + Active(ys)
    decreases |xs|
  {
    if xs == [] {
      assert xs + ys == ys;
    } else {
      assert (xs + ys)[1..] == xs[1..] + ys;
      ActiveAppend(xs[1..], ys);
    }
  }

  /** The sale total is additive over a split of the items. */
  lemma {:induction false} ActiveTotalAppend(xs: seq<SaleItemData>, ys: seq<SaleItemData>)
    ensures ActiveTotal(xs + ys) == ActiveTotal(xs) + ActiveTotal(ys)
  {
    ActiveAppend(xs, ys);
    SumTotalsAppend(Active(xs), Active(ys));
  }

  lemma ActiveTotalSingle(x: SaleItemData)
    ensures ActiveTotal([x]) == Contribution(x)
  {
    assert [x][1..] == [];
    assert Active([x]) == (if x.isCancelled then [] else [x]);
    if !x.isCancelled {
      assert SumTotals([x]) == x.totalAmount + SumTotals([]);
    }
  }

  /** Splitting the items around position `k`. */
  lemma {:induction false} ActiveTotalSplit(items: seq<SaleItemData>, k: nat)
    requires k < |items|
    ensures ActiveTotal(items) == ActiveTotal(items[..k]) + Contribution(items[k]) + ActiveTotal(items[k + 1..])
  {
    assert items == items[..k] + [items[k]] + items[k + 1..];
    ActiveTotalAppend(items[..k] + [items[k]], items[k + 1..]);
    ActiveTotalAppend(items[..k], [items[k]]);
    ActiveTotalSingle(items[k]);
  }

  /** With no items the total is 0. */
  lemma EmptyTotal()
    ensures ActiveTotal([]) == 0.0
  {
  }

  /** Cancelled items add nothing: a sale whose items are all cancelled totals 0. */
  lemma {:induction false} AllCancelledTotal(items: seq<SaleItemData>)
    requires forall i :: 0 <= i < |items| ==> items[i].isCancelled
    ensures ActiveTotal(items) == 0.0
    decreases |items|
  {
    if items != [] {
      AllCancelledTotal(items[1..]);
      assert Active(items) == Active(items[1..]);
    }
  }

  /** With no item cancelled the total is the sum of every item's total. */
  lemma {:induction false} NoneCancelledTotal(items: seq<SaleItemData>)
    requires forall i :: 0 <= i < |items| ==> !items[i].isCancelled
    ensures ActiveTotal(items) == SumTotals(items)
    decreases |items|
  {
    if items != [] {
      NoneCancelledTotal(items[1..]);
    }
  }

  /** Item totals that are not negative give a sale total that is not negative. */
  lemma {:induction false} ActiveTotalNonNegative(items: seq<SaleItemData>)
    requires forall i :: 0 <= i < |items| ==> items[i].totalAmount >= 0.0
    ensures ActiveTotal(items) >= 0.0
    decreases |items|
  {
    if items != [] {
      ActiveTotalNonNegative(items[1..]);
      assert Active(items) == (if items[0].isCancelled then [] else [items[0]]) + Active(items[1..]);
      SumTotalsAppend(if items[0].isCancelled then [] else [items[0]], Active(items[1..]));
    }
  }

  /** Cancelling the item at `k` lowers the total by exactly what that item contributed;
      if it was already cancelled the total does not move. */
  lemma {:induction false} ActiveTotalCancelAt(items: seq<SaleItemData>, k: nat)
    requires k < |items|
    ensures ActiveTotal(CancelAt(items, k)) == ActiveTotal(items) - Contribution(items[k])
  {
    var after := CancelAt(items, k);
    ActiveTotalSplit(items, k);
    ActiveTotalSplit(after, k);
    assert after[..k] == items[..k];
    assert after[k + 1..] == items[k + 1..];
  }

  /** Removing the item at `k` lowers the total by exactly what that item contributed. */
  lemma {:induction false} ActiveTotalRemoveAt(items: seq<SaleItemData>, k: nat)
    requires k < |items|
    ensures ActiveTotal(RemoveAt(items, k)) == ActiveTotal(items) - Contribution(items[k])
  {
    ActiveTotalSplit(items, k);
    ActiveTotalAppend(items[..k], items[k + 1..]);
  }

  /** `CalculateTotalAmount` makes the sale consistent, keeps its items, and a second
      call changes nothing but the UpdatedAt stamp. */
  lemma RecalculatedIsConsistent(s: SaleData, now: DateTime, later: DateTime)
    ensures Consistent(Recalculated(s, now))
    ensures Recalculated(s, now).items == s.items
    ensures Recalculated(Recalculated(s, now), later) == Recalculated(s, later)
  {
  }

  /** `AddItem` appends the item after the untouched existing items and, on a consistent
      sale, raises the total by the item's contribution. */
  lemma {:induction false} AddItemAppends(s: SaleData, item: SaleItemData, now: DateTime)
    requires Consistent(s)
    ensures var r := WithItemAdded(s, item, now);
      && r.items == s.items + [item]
      && Consistent(r)
      && r.totalAmount == s.totalAmount + Contribution(item)
      && r.updatedAt == Some(now)
      && r.(totalAmount := s.totalAmount, updatedAt := s.updatedAt, items := s.items) == s
  {
    ActiveTotalAppend(s.items, [item]);
    ActiveTotalSingle(item);
  }

  /** `RemoveItem` with a present id drops exactly the first item carrying it and, on a
      consistent sale, lowers the total by that item's contribution. */
  lemma {:induction false} RemoveItemPresent(s: SaleData, id: Guid, now: DateTime, k: nat)
    requires Consistent(s)
    requires k < |s.items| && s.items[k].id == id
    requires forall j :: 0 <= j < k ==> s.items[j].id != id
    ensures var r := WithItemRemoved(s, id, now);
      && r.items == s.items[..k] + s.items[k + 1..]
      && Consistent(r)
      && r.totalAmount == s.totalAmount - Contribution(s.items[k])
      && r.updatedAt == Some(now)
      && r.(totalAmount := s.totalAmount, updatedAt := s.updatedAt, items := s.items) == s
  {
    assert FirstIndexOf(s.items, id) == Some(k);
    ActiveTotalRemoveAt(s.items, k);
  }

  /** `RemoveItem` with an absent id leaves the whole sale as it was. */
  lemma RemoveItemAbsent(s: SaleData, id: Guid, now: DateTime)
    requires forall j :: 0 <= j < |s.items| ==> s.items[j].id != id
    ensures WithItemRemoved(s, id, now) == s
  {
  }

  /** `Cancel` keeps the items and the total (so a consistent sale stays consistent). */
  lemma CancelKeepsItems(s: SaleData, now: DateTime)
    ensures Cancelled(s, now).isCancelled && Cancelled(s, now).updatedAt == Some(now)
    ensures Cancelled(s, now).items == s.items
    ensures Cancelled(s, now).totalAmount == s.totalAmount
    ensures Consistent(s) ==> Consistent(Cancelled(s, now))
  {
  }

  /** Two items totalling 50 and 15: cancelling the first leaves a total of 15. */
  lemma {:induction false} CancelFirstOfTwo(a: SaleItemData, b: SaleItemData)
    requires a.totalAmount == 50.0 && b.totalAmount == 15.0
    requires !a.isCancelled && !b.isCancelled
    ensures ActiveTotal([a, b]) == 65.0
    ensures ActiveTotal(CancelAt([a, b], 0)) == 15.0
  {
    assert [a, b] == [a] + [b];
    ActiveTotalAppend([a], [b]);
    ActiveTotalSingle(a);
    ActiveTotalSingle(b);
    ActiveTotalCancelAt([a, b], 0);
  }
}

/** The Sale entity, whose operations assign its fields and its item list in place. */
module SaleEntity {
  import opened SalesCommon
  import opened SaleItemModel
  import opened SaleItemEntity
  import opened SaleModel
  import SaleValidation

  /** No item object appears twice in the list. */
  predicate Distinct(items: seq<SaleItem>) {
    forall i, j :: 0 <= i < j < |items| ==> items[i] != items[j]
  }

  class Sale {
    var id: Guid
    var saleNumber: string
    var saleDate: DateTime
    var customer: string
    var totalAmount: real
    var branch: string
    var isCancelled: bool
    var createdAt: DateTime
    var updatedAt: Option<DateTime>
    var items: seq<SaleItem>

    /** `new Sale()`: CreatedAt and SaleDate both read the clock (`now`). */
    constructor (now: DateTime)
      ensures Value() == NewSale(now)
      ensures items == []
    {
      id, saleNumber, saleDate, customer := Empty, "", now, "";
      totalAmount, branch, isCancelled := 0.0, "", false;
      createdAt, updatedAt, items := now, None, [];
    }

    /** A sale loaded from the store over already materialised item objects. */
    constructor Load(d: SaleData, objects: seq<SaleItem>)
      requires Snapshot(objects) == d.items
      ensures Value() == d && items == objects
    {
      id, saleNumber, saleDate, customer := d.id, d.saleNumber, d.saleDate, d.customer;
      totalAmount, branch, isCancelled := d.totalAmount, d.branch, d.isCancelled;
      createdAt, updatedAt, items := d.createdAt, d.updatedAt, objects;
    }

    function Value(): SaleData
      reads this, items
    {
      SaleData(id, saleNumber, saleDate, customer, totalAmount, branch, isCancelled,
               createdAt, updatedAt, Snapshot(items))
    }

    /** `Validate`: valid exactly when the sale validator, built at time `now`, reports
        nothing, with its failures passed on unchanged. */
    function Validate(now: DateTime): (r: ValidationResultDetail)
      reads this, items
      ensures r.isValid <==> SaleValidation.IsValid(Value(), now)
      ensures r.errors == SaleValidation.Errors(Value(), now)
    {
      var errors := SaleValidation.Errors(Value(), now);
      ValidationResultDetail(errors == [], errors)
    }

    /** `Cancel`: IsCancelled and UpdatedAt only. */
    method Cancel(now: DateTime)
      modifies this
      ensures Value() == Cancelled(old(Value()), now)
      ensures items == old(items)
    {
      isCancelled := true;
      updatedAt := Some(now);
    }

    /** `CalculateTotalAmount`: TotalAmount and UpdatedAt only. */
    method CalculateTotalAmount(now: DateTime)
      modifies this
      ensures Value() == Recalculated(old(Value()), now)
      ensures items == old(items)
    {
      totalAmount := ActiveTotal(Snapshot(items));
      updatedAt := Some(now);
    }

    /** `AddItem`: appends the item object, then recalculates. */
    method AddItem(item: SaleItem, now: DateTime)
      modifies this
      ensures items == old(items) + [item]
      ensures Value() == WithItemAdded(old(Value()), item.Value(), now)
    {
      items := items + [item];
      assert Snapshot(items) == old(Snapshot(items)) + [item.Value()];
      CalculateTotalAmount(now);
    }

    /** `RemoveItem`: finds the first item with the id; when there is one, removes it
        and recalculates, otherwise does nothing. */
    method RemoveItem(itemId: Guid, now: DateTime)
      modifies this
      ensures Value() == WithItemRemoved(old(Value()), itemId, now)
    {
      ghost var before := Snapshot(items);
      var i := 0;
      while i < |items| && items[i].id != itemId
        invariant 0 <= i <= |items|
        invariant forall j :: 0 <= j < i ==> before[j].id != itemId
      {
        i := i + 1;
      }
      if i < |items| {
        assert FirstIndexOf(before, itemId) == Some(i);
        RemoveAtIndex(i, now);
      } else {
        assert FirstIndexOf(before, itemId) == None;
      }
    }

    /** `Items.Remove(item)` for the item at position `k`, then `CalculateTotalAmount`. */
    method RemoveAtIndex(k: nat, now: DateTime)
      requires k < |items|
      modifies this
      ensures Value() == Recalculated(old(Value()).(items := RemoveAt(old(Snapshot(items)), k)), now)
    {
      ghost var before := Snapshot(items);
      items := items[..k] + items[k + 1..];
      assert Snapshot(items) == RemoveAt(before, k);
      CalculateTotalAmount(now);
    }
  }
}
