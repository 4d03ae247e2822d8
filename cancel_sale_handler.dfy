/** Cancelling a sale (Application/Sales/CancelSale/CancelSaleHandler.cs): id validation,
    load, the already-cancelled guard, `Cancel` and `UpdateAsync`. The handler only logs
    the cancellation: nothing reaches the broker. */
module CancelSaleHandling {
  import opened SalesCommon
  import opened SaleModel
  import opened SaleEntity
  import opened SaleCommands
  import opened SaleStore
  import UpdateSaleValidation
  import UpdateSaleHandling

  /** The outcome of the handler: the sale as committed, or the failure that stops it
      first. */
  function CancelOutcome(store: map<Guid, SaleData>, c: CancelSaleCommand, now: DateTime): Result<SaleData, Fault> {
    var errors := SaleIdErrors(c.id);
    if errors != [] then Err(ValidationFailed(errors))
    else if c.id !in store then Err(SaleNotFound(c.id))
    else if store[c.id].isCancelled then Err(SaleAlreadyCancelled)
    else Ok(Cancelled(store[c.id], now))
  }

  /** The failures, in the handler's order: an empty id, a missing sale, a sale already
      cancelled; anything else succeeds. */
  lemma CancelFailures(store: map<Guid, SaleData>, c: CancelSaleCommand, now: DateTime)
    ensures c.id == Empty ==>
      CancelOutcome(store, c, now) == Err(ValidationFailed([ValidationError(Named("Id"), SaleIdRequired)]))
    ensures c.id != Empty && c.id !in store ==> CancelOutcome(store, c, now) == Err(SaleNotFound(c.id))
    ensures c.id != Empty && c.id in store && store[c.id].isCancelled ==>
      CancelOutcome(store, c, now) == Err(SaleAlreadyCancelled)
    ensures CancelOutcome(store, c, now).Ok? <==> c.id != Empty && c.id in store && !store[c.id].isCancelled
  {
  }

  /** A cancelled sale keeps its id, its items and its total (cancelling the sale does not
      cancel its items), is marked cancelled and stamped with the time; a total that
      agreed with the items still does. */
  lemma CancelledSale(store: map<Guid, SaleData>, c: CancelSaleCommand, now: DateTime)
    requires WellKeyed(store)
    requires CancelOutcome(store, c, now).Ok?
    ensures var s, before := CancelOutcome(store, c, now).value, store[c.id];
      && s.id == c.id && s.isCancelled && s.updatedAt == Some(now)
      && s.items == before.items && s.totalAmount == before.totalAmount
      && s.saleNumber == before.saleNumber && s.customer == before.customer && s.branch == before.branch
      && (Consistent(before) ==> Consistent(s))
  {
    CancelKeepsItems(store[c.id], now);
  }

  /** Once cancelled, a sale stays cancelled: cancelling it again fails, and an update of
      it fails, at any later time. */
  lemma {:induction false} CancelIsFinal(store: map<Guid, SaleData>, c: CancelSaleCommand, now: DateTime, later: DateTime,
                                         u: UpdateSaleCommand, freshIds: seq<Guid>)
    requires WellKeyed(store) && CancelOutcome(store, c, now).Ok?
    requires u.id == c.id && |freshIds| == |u.items|
    ensures var after := store[c.id := CancelOutcome(store, c, now).value];
      && CancelOutcome(after, c, later) == Err(SaleAlreadyCancelled)
      && UpdateSaleHandling.UpdateOutcome(after, u, later, freshIds).Err?
      && (UpdateSaleValidation.IsValid(u) ==>
            UpdateSaleHandling.UpdateOutcome(after, u, later, freshIds) == Err(CancelledSaleNotUpdatable))
  {
    var after := store[c.id := CancelOutcome(store, c, now).value];
    UpdateSaleHandling.UpdateFailureOrder(after, u, later, freshIds);
  }

  /** The handler's steps on the store. */
  method CancelSale(repository: SaleRepository, c: CancelSaleCommand, now: DateTime)
    returns (cancelled: Sale?, fault: Option<Fault>)
    requires repository.Valid()
    modifies repository
    ensures repository.Valid()
    ensures var outcome := CancelOutcome(old(repository.sales), c, now);
      && (cancelled != null <==> outcome.Ok?)
      && (cancelled != null ==> cancelled.Value() == outcome.value && fault == None)
      && (cancelled == null ==> fault == Some(outcome.error))
      && repository.sales == (if outcome.Ok? then old(repository.sales)[c.id := outcome.value] else old(repository.sales))
  {
    var errors := SaleIdErrors(c.id);
    if errors != [] {
      return null, Some(ValidationFailed(errors));
    }
    var sale := repository.GetById(c.id);
    if sale == null {
      return null, Some(SaleNotFound(c.id));
    }
    if sale.isCancelled {
      return null, Some(SaleAlreadyCancelled);
    }
    sale.Cancel(now);
    assert sale.id == c.id;
    repository.Update(sale);
    return sale, None;
  }

  class CancelSaleHandler {
    const repository: SaleRepository

    constructor (repository: SaleRepository)
      ensures this.repository == repository
    {
      this.repository := repository;
    }

    /** `Handle`: commits the cancelled sale and returns its id, number, flag and update
        time, or fails and leaves the store as it was. */
    method Handle(c: CancelSaleCommand, now: DateTime) returns (result: Result<CancelSaleResult, Fault>)
      requires repository.Valid()
      modifies repository
      ensures repository.Valid()
      ensures var outcome := CancelOutcome(old(repository.sales), c, now);
        && result == (if outcome.Ok? then Ok(CancelResultOf(outcome.value)) else Err(outcome.error))
        && repository.sales == (if outcome.Ok? then old(repository.sales)[c.id := outcome.value] else old(repository.sales))
    {
      var cancelled, fault := CancelSale(repository, c, now);
      if cancelled == null {
        return Err(fault.value);
      }
      return Ok(CancelResultOf(cancelled.Value()));
    }
  }
}
