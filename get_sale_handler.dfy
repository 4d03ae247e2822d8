/** Reading a sale (Application/Sales/GetSale/GetSaleHandler.cs): id validation, then
    `GetByIdAsync`, whose null answer becomes a not-found failure. */
module GetSaleHandling {
  import opened SalesCommon
  import opened SaleModel
  import opened SaleCommands
  import opened SaleStore
  import CreateSaleHandling
  import UpdateSaleHandling
  import DeleteSaleHandling

  /** The outcome of the handler. */
  function GetOutcome(store: map<Guid, SaleData>, c: GetSaleCommand): Result<GetSaleResult, Fault> {
    var errors := SaleIdErrors(c.id);
    if errors != [] then Err(ValidationFailed(errors))
    else if c.id !in store then Err(SaleNotFound(c.id))
    else Ok(GetResultOf(store[c.id]))
  }

  /** A read succeeds exactly for a stored sale and returns the sale with the requested
      id, every item of it included. */
  lemma GetReturnsStored(store: map<Guid, SaleData>, c: GetSaleCommand)
    requires WellKeyed(store)
    ensures GetOutcome(store, c).Ok? <==> c.id in store
    ensures GetOutcome(store, c).Ok? ==>
      var r, s := GetOutcome(store, c).value, store[c.id];
      && r.id == c.id
      && r.saleNumber == s.saleNumber && r.saleDate == s.saleDate
      && r.customer == s.customer && r.branch == s.branch
      && r.totalAmount == s.totalAmount && r.isCancelled == s.isCancelled
      && r.createdAt == s.createdAt && r.updatedAt == s.updatedAt
      && |r.items| == |s.items|
      && forall i :: 0 <= i < |s.items| ==>
           r.items[i] == ItemResult(s.items[i].id, s.items[i].product, s.items[i].quantity, s.items[i].unitPrice,
                                    s.items[i].discount, s.items[i].totalAmount, s.items[i].isCancelled)
  {
  }

  /** A created sale can be read back at once under its new id, and the read shows what
      the create handler returned, plus its timestamps. */
  lemma {:induction false} ReadAfterCreate(store: map<Guid, SaleData>, c: CreateSaleCommand,
                                           shapeErrors: seq<ValidationError>, now: DateTime,
                                           saleKey: Guid, itemKeys: seq<Guid>)
    requires saleKey != Empty && |itemKeys| == |c.items|
    requires CreateSaleHandling.CreateOutcome(store, c, shapeErrors, now, saleKey, itemKeys).Ok?
    ensures var s := CreateSaleHandling.CreateOutcome(store, c, shapeErrors, now, saleKey, itemKeys).value;
      var created := CreateResultOf(s);
      var read := GetOutcome(store[saleKey := s], GetSaleCommand(saleKey));
      && read.Ok?
      && read.value.id == created.id == saleKey && read.value.saleNumber == created.saleNumber
      && read.value.saleDate == created.saleDate && read.value.customer == created.customer
      && read.value.totalAmount == created.totalAmount && read.value.branch == created.branch
      && read.value.isCancelled == created.isCancelled && read.value.items == created.items
      && read.value.createdAt == now && read.value.updatedAt == Some(now)
  {
    CreateSaleHandling.CreatedSale(store, c, shapeErrors, now, saleKey, itemKeys);
  }

  /** An updated sale reads back as the update handler returned it. */
  lemma {:induction false} ReadAfterUpdate(store: map<Guid, SaleData>, c: UpdateSaleCommand, now: DateTime, freshIds: seq<Guid>)
    requires WellKeyed(store) && |freshIds| == |c.items|
    requires UpdateSaleHandling.UpdateOutcome(store, c, now, freshIds).Ok?
    ensures var s := UpdateSaleHandling.UpdateOutcome(store, c, now, freshIds).value;
      var updated := UpdateResultOf(s);
      var read := GetOutcome(store[c.id := s], GetSaleCommand(c.id));
      && read.Ok?
      && read.value.id == updated.id && read.value.saleNumber == updated.saleNumber
      && read.value.saleDate == updated.saleDate && read.value.customer == updated.customer
      && read.value.totalAmount == updated.totalAmount && read.value.branch == updated.branch
      && read.value.isCancelled == updated.isCancelled && read.value.items == updated.items
      && read.value.updatedAt == updated.updatedAt
  {
    UpdateSaleHandling.UpdatedSale(store, c, now, freshIds);
  }

  /** A deleted sale can no longer be read. */
  lemma ReadAfterDelete(store: map<Guid, SaleData>, c: DeleteSaleCommand)
    requires WellKeyed(store)
    requires DeleteSaleHandling.DeleteOutcome(store, c).Ok?
    ensures GetOutcome(DeleteSaleHandling.StoreAfterDelete(store, c), GetSaleCommand(c.id)) == Err(SaleNotFound(c.id))
  {
  }

  class GetSaleHandler {
    const repository: SaleRepository

    constructor (repository: SaleRepository)
      ensures this.repository == repository
    {
      this.repository := repository;
    }

    /** `Handle`: reads without changing the store. */
    method Handle(c: GetSaleCommand) returns (result: Result<GetSaleResult, Fault>)
      ensures result == GetOutcome(repository.sales, c)
    {
      var errors := SaleIdErrors(c.id);
      if errors != [] {
        return Err(ValidationFailed(errors));
      }
      var sale := repository.GetById(c.id);
      if sale == null {
        return Err(SaleNotFound(c.id));
      }
      return Ok(GetResultOf(sale.Value()));
    }
  }
}
