/** Deleting a sale (Application/Sales/DeleteSale/DeleteSaleHandler.cs): id validation,
    then `DeleteAsync`, whose false answer becomes a not-found failure. */
module DeleteSaleHandling {
  import opened SalesCommon
  import opened SaleModel
  import opened SaleCommands
  import opened SaleStore

  /** The outcome of the handler and the store it leaves. */
  function DeleteOutcome(store: map<Guid, SaleData>, c: DeleteSaleCommand): Result<DeleteSaleResult, Fault> {
    var errors := SaleIdErrors(c.id);
    if errors != [] then Err(ValidationFailed(errors))
    else if c.id !in store then Err(SaleNotFound(c.id))
    else Ok(DeleteSaleResult(true))
  }

  function StoreAfterDelete(store: map<Guid, SaleData>, c: DeleteSaleCommand): map<Guid, SaleData> {
    if DeleteOutcome(store, c).Ok? then store - {c.id} else store
  }

  /** A delete succeeds exactly for a stored sale, always answering `true`; it removes
      that sale and nothing else, and deleting it again fails as not found. */
  lemma {:induction false} DeleteRemovesOnlyTarget(store: map<Guid, SaleData>, c: DeleteSaleCommand)
    requires WellKeyed(store)
    ensures DeleteOutcome(store, c).Ok? <==> c.id in store
    ensures DeleteOutcome(store, c).Ok? ==> DeleteOutcome(store, c).value.success
    ensures var after := StoreAfterDelete(store, c);
      && WellKeyed(after)
      && c.id !in after
      && (forall id :: id != c.id ==> (id in after <==> id in store) && (id in after ==> after[id] == store[id]))
      && (DeleteOutcome(store, c).Ok? ==> DeleteOutcome(after, c) == Err(SaleNotFound(c.id)))
  {
    assert c.id == Empty ==> c.id !in store;
  }

  class DeleteSaleHandler {
    const repository: SaleRepository

    constructor (repository: SaleRepository)
      ensures this.repository == repository
    {
      this.repository := repository;
    }

    method Handle(c: DeleteSaleCommand) returns (result: Result<DeleteSaleResult, Fault>)
      requires repository.Valid()
      modifies repository
      ensures repository.Valid()
      ensures result == DeleteOutcome(old(repository.sales), c)
      ensures repository.sales == StoreAfterDelete(old(repository.sales), c)
    {
      var errors := SaleIdErrors(c.id);
      if errors != [] {
        return Err(ValidationFailed(errors));
      }
      var success := repository.Delete(c.id);
      if !success {
        return Err(SaleNotFound(c.id));
      }
      return Ok(DeleteSaleResult(true));
    }
  }
}
