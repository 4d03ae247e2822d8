/** The Web API's own cancel-item handler (WebApi/Features/Sales/CancelSaleItem/CancelSaleItemHandler.cs):
    the same steps as the Application handler up to `UpdateAsync`, after which it only
    logs the event, so nothing reaches the broker. */
module WebApiCancelSaleItemHandling {
  import opened SalesCommon
  import opened SaleStore
  import opened SaleCommands
  import opened CancelSaleItemHandling

  class CancelSaleItemHandler {
    const repository: SaleRepository

    constructor (repository: SaleRepository)
      ensures this.repository == repository
    {
      this.repository := repository;
    }

    /** `Handle`: the result and the store are exactly those of the Application handler
        for the same command and time. */
    method Handle(c: CancelSaleItemCommand, now: DateTime) returns (result: Result<CancelSaleItemResult, Fault>)
      requires repository.Valid()
      modifies repository
      ensures repository.Valid()
      ensures var outcome := CancelItemOutcome(old(repository.sales), c, now);
        && result == (if outcome.Ok? then Ok(CancelSaleItemResult(c.saleId, c.itemId, true, outcome.value.totalAmount))
                      else Err(outcome.error))
        && repository.sales == (if outcome.Ok? then old(repository.sales)[c.saleId := outcome.value] else old(repository.sales))
    {
      var sale, k, fault := CancelItem(repository, c, now);
      if sale == null {
        return Err(fault.value);
      }
      var s := sale.Value();
      var item := sale.items[k].Value();
      return Ok(CancelSaleItemResult(s.id, item.id, item.isCancelled, s.totalAmount));
    }
  }
}
