/** Cancelling one item of a sale (Application/Sales/CancelSaleItem/CancelSaleItemHandler.cs):
    id validation, load, the cancelled-sale guard, the search for the first item with
    the id, the already-cancelled guard, `Cancel` on the item, the total recomputed,
    `UpdateAsync`, then a best-effort "sale.item.cancelled" publish. No domain validation
    runs on this path. */
module CancelSaleItemHandling {
  import opened SalesCommon
  import opened SaleItemModel
  import opened SaleItemEntity
  import opened SaleModel
  import opened SaleEntity
  import opened SaleCommands
  import opened SaleStore
  import opened Messaging

  /** The position of the item the handler cancels: the first with the id. */
  function TargetIndex(store: map<Guid, SaleData>, c: CancelSaleItemCommand): Option<nat>
    requires c.saleId in store
  {
    FirstIndexOf(store[c.saleId].items, c.itemId)
  }

  /** The outcome of the handler: the sale as committed, or the failure that stops it
      first. */
  function CancelItemOutcome(store: map<Guid, SaleData>, c: CancelSaleItemCommand, now: DateTime): Result<SaleData, Fault> {
    var errors := CancelSaleItemErrors(c);
    if errors != [] then Err(ValidationFailed(errors))
    else if c.saleId !in store then Err(SaleNotFound(c.saleId))
    else if store[c.saleId].isCancelled then Err(CancelledSaleItemNotCancellable)
    else ItemCancelledIn(store[c.saleId], c.itemId, now)
  }

  /** The steps on the loaded sale `s`: the search, the item guard, the cancellation and
      the total. */
  function ItemCancelledIn(s: SaleData, itemId: Guid, now: DateTime): Result<SaleData, Fault> {
    match FirstIndexOf(s.items, itemId)
    case None => Err(ItemNotFound(itemId))
    case Some(k) =>
      if s.items[k].isCancelled then Err(ItemAlreadyCancelled)
      else Ok(Recalculated(s.(items := CancelAt(s.items, k)), now))
  }

  /** The failures, in the handler's order: the ids, a missing sale, a cancelled sale, no
      item with the id, the first such item already cancelled. */
  lemma CancelItemFailures(store: map<Guid, SaleData>, c: CancelSaleItemCommand, now: DateTime)
    ensures c.saleId == Empty || c.itemId == Empty ==>
      CancelItemOutcome(store, c, now) == Err(ValidationFailed(CancelSaleItemErrors(c)))
    ensures c.saleId != Empty && c.itemId != Empty && c.saleId !in store ==>
      CancelItemOutcome(store, c, now) == Err(SaleNotFound(c.saleId))
    ensures c.saleId != Empty && c.itemId != Empty && c.saleId in store && store[c.saleId].isCancelled ==>
      CancelItemOutcome(store, c, now) == Err(CancelledSaleItemNotCancellable)
    ensures && c.saleId != Empty && c.itemId != Empty && c.saleId in store && !store[c.saleId].isCancelled
            && (forall j :: 0 <= j < |store[c.saleId].items| ==> store[c.saleId].items[j].id != c.itemId)
        ==> CancelItemOutcome(store, c, now) == Err(ItemNotFound(c.itemId))
    ensures && c.saleId != Empty && c.itemId != Empty && c.saleId in store && !store[c.saleId].isCancelled
            && TargetIndex(store, c).Some? && store[c.saleId].items[TargetIndex(store, c).value].isCancelled
        ==> CancelItemOutcome(store, c, now) == Err(ItemAlreadyCancelled)
  {
  }

  /** Cancelling item `k`, the first with the id: only that item changes (it becomes
      cancelled), the sale keeps its identity and state, and its total is the sum of the
      items still active; when the stored total agreed with the items, it drops by exactly
      the cancelled item's total. */
  lemma {:induction false} ItemCancellation(store: map<Guid, SaleData>, c: CancelSaleItemCommand, now: DateTime)
    requires WellKeyed(store)
    requires CancelItemOutcome(store, c, now).Ok?
    ensures c.saleId in store && TargetIndex(store, c).Some?
    ensures var s, before, k := CancelItemOutcome(store, c, now).value, store[c.saleId], TargetIndex(store, c).value;
      && s.id == c.saleId && !s.isCancelled && s.updatedAt == Some(now)
      && s.saleNumber == before.saleNumber && s.customer == before.customer && s.branch == before.branch
      && |s.items| == |before.items|
      && s.items[k].id == c.itemId && !before.items[k].isCancelled
      && s.items[k] == before.items[k].(isCancelled := true)
      && (forall j :: 0 <= j < |s.items| && j != k ==> s.items[j] == before.items[j])
      && s.totalAmount == ActiveTotal(before.items) - before.items[k].totalAmount
      && (Consistent(before) ==> s.totalAmount == before.totalAmount - before.items[k].totalAmount)
  {
    var before := store[c.saleId];
    var k := TargetIndex(store, c).value;
    ActiveTotalCancelAt(before.items, k);
  }

  /** Cancelling the same item twice: the second attempt fails, at any later time. */
  lemma {:induction false} CancelItemTwice(store: map<Guid, SaleData>, c: CancelSaleItemCommand, now: DateTime, later: DateTime)
    requires WellKeyed(store)
    requires CancelItemOutcome(store, c, now).Ok?
    ensures var after := store[c.saleId := CancelItemOutcome(store, c, now).value];
      CancelItemOutcome(after, c, later) == Err(ItemAlreadyCancelled)
  {
    ItemCancellation(store, c, now);
    var s := CancelItemOutcome(store, c, now).value;
    var before := store[c.saleId];
    var k := TargetIndex(store, c).value;
    var after := store[c.saleId := s];
    assert FirstIndexOf(s.items, c.itemId) == Some(k) by {
      forall j | 0 <= j < k
        ensures s.items[j].id != c.itemId
      {
        assert s.items[j] == before.items[j];
      }
    }
    assert TargetIndex(after, c) == Some(k);
  }

  /** `FirstOrDefault(i => i.Id == itemId)` over the sale's item objects. */
  method FindItem(sale: Sale, itemId: Guid) returns (index: Option<nat>)
    ensures index == FirstIndexOf(Snapshot(sale.items), itemId)
  {
    ghost var values := Snapshot(sale.items);
    var i := 0;
    while i < |sale.items| && sale.items[i].id != itemId
      invariant 0 <= i <= |sale.items|
      invariant forall j :: 0 <= j < i ==> values[j].id != itemId
    {
      i := i + 1;
    }
    if i == |sale.items| {
      return None;
    }
    assert FirstIndexOf(values, itemId) == Some(i);
    return Some(i);
  }

  /** `item.Cancel()` on the item object at position `k`, then `CalculateTotalAmount`. */
  method CancelItemAt(sale: Sale, ghost loaded: SaleData, k: nat, now: DateTime)
    requires k < |sale.items| && Distinct(sale.items) && sale.Value() == loaded
    modifies sale, sale.items[k]
    ensures sale.Value() == Recalculated(loaded.(items := CancelAt(loaded.items, k)), now)
  {
    sale.items[k].Cancel();
    assert Snapshot(sale.items) == CancelAt(loaded.items, k);
    sale.CalculateTotalAmount(now);
  }

  /** The handler's steps on the loaded Sale object after the sale guards. */
  method CancelInLoaded(sale: Sale, ghost loaded: SaleData, itemId: Guid, now: DateTime) returns (k: nat, fault: Option<Fault>)
    requires Distinct(sale.items) && sale.Value() == loaded
    modifies sale, sale.items
    ensures var r := ItemCancelledIn(loaded, itemId, now);
      && (fault.None? <==> r.Ok?)
      && (fault.None? ==> sale.Value() == r.value && FirstIndexOf(loaded.items, itemId) == Some(k))
      && (fault.Some? ==> fault.value == r.error)
  {
    k := 0;
    var index := FindItem(sale, itemId);
    if index.None? {
      return k, Some(ItemNotFound(itemId));
    }
    k := index.value;
    if sale.items[k].isCancelled {
      return k, Some(ItemAlreadyCancelled);
    }
    CancelItemAt(sale, loaded, k, now);
    fault := None;
  }

  /** The handler's steps up to and including `UpdateAsync`, shared by both cancel-item
      handlers: the committed sale and the position of the cancelled item, or the
      failure. */
  method CancelItem(repository: SaleRepository, c: CancelSaleItemCommand, now: DateTime)
    returns (sale: Sale?, k: nat, fault: Option<Fault>)
    requires repository.Valid()
    modifies repository
    ensures repository.Valid()
    ensures var outcome := CancelItemOutcome(old(repository.sales), c, now);
      && (sale != null <==> outcome.Ok?)
      && (sale != null ==> && sale.Value() == outcome.value && fault == None
                           && TargetIndex(old(repository.sales), c) == Some(k))
      && (sale == null ==> fault == Some(outcome.error))
      && repository.sales == (if outcome.Ok? then old(repository.sales)[c.saleId := outcome.value] else old(repository.sales))
  {
    k := 0;
    var errors := CancelSaleItemErrors(c);
    if errors != [] {
      return null, k, Some(ValidationFailed(errors));
    }
    sale := repository.GetById(c.saleId);
    if sale == null {
      return null, k, Some(SaleNotFound(c.saleId));
    }
    if sale.isCancelled {
      return null, k, Some(CancelledSaleItemNotCancellable);
    }
    k, fault := CancelInLoaded(sale, old(repository.sales)[c.saleId], c.itemId, now);
    if fault.Some? {
      return null, k, fault;
    }
    assert sale.id == c.saleId;
    repository.Update(sale);
  }

  class CancelSaleItemHandler {
    const repository: SaleRepository
    const publisher: MessagePublisher

    constructor (repository: SaleRepository, publisher: MessagePublisher)
      ensures this.repository == repository && this.publisher == publisher
    {
      this.repository := repository;
      this.publisher := publisher;
    }

    /** `Handle`: on success the result names the sale, the item and the new total, and
        exactly one "sale.item.cancelled" publish is attempted, after the commit, carrying
        the cancelled item and correlated by the sale's id; a failed publish is
        swallowed. No failure publishes. */
    method Handle(c: CancelSaleItemCommand, now: DateTime, messageId: Guid, publishFails: bool)
      returns (result: Result<CancelSaleItemResult, Fault>)
      requires repository.Valid()
      modifies repository, publisher
      ensures repository.Valid()
      ensures var outcome := CancelItemOutcome(old(repository.sales), c, now);
        && result == (if outcome.Ok? then Ok(CancelSaleItemResult(c.saleId, c.itemId, true, outcome.value.totalAmount))
                      else Err(outcome.error))
        && repository.sales == (if outcome.Ok? then old(repository.sales)[c.saleId := outcome.value] else old(repository.sales))
      ensures var outcome := CancelItemOutcome(old(repository.sales), c, now);
        publisher.published == old(publisher.published)
          + (if outcome.Ok? && !publishFails
             then [ItemCancelledEnvelope(outcome.value, outcome.value.items[TargetIndex(old(repository.sales), c).value],
                                         now, messageId)]
             else [])
    {
      var sale, k, fault := CancelItem(repository, c, now);
      if sale == null {
        return Err(fault.value);
      }
      var s := sale.Value();
      var item := sale.items[k].Value();
      var message := ItemCancelledMessage(s.id, item.id, s.saleNumber, item.product, item.quantity, item.unitPrice,
                                          item.totalAmount, now);
      var delivered := publisher.Publish(message, ItemCancelledRoute, messageId, s.id, publishFails);
      return Ok(CancelSaleItemResult(s.id, item.id, item.isCancelled, s.totalAmount));
    }
  }
}
