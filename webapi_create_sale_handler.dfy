/** The Web API's own create handler (WebApi/Features/Sales/CreateSale/CreateSaleHandler.cs):
    the same steps as the Application handler up to `CreateAsync`, after which it only logs
    the event, so nothing reaches the broker. */
module WebApiCreateSaleHandling {
  import opened SalesCommon
  import opened SaleStore
  import opened SaleCommands
  import opened CreateSaleHandling

  class CreateSaleHandler {
    const repository: SaleRepository

    constructor (repository: SaleRepository)
      ensures this.repository == repository
    {
      this.repository := repository;
    }

    /** `Handle`: the result and the store are exactly those of the Application handler
        for the same command, keys and time. */
    method Handle(c: CreateSaleCommand, shapeErrors: seq<ValidationError>, now: DateTime,
                  saleKey: Guid, itemKeys: seq<Guid>)
      returns (result: Result<CreateSaleResult, Fault>)
      requires repository.Valid()
      requires saleKey != Empty && saleKey !in repository.sales && |itemKeys| == |c.items|
      modifies repository
      ensures repository.Valid()
      ensures var outcome := CreateOutcome(old(repository.sales), c, shapeErrors, now, saleKey, itemKeys);
        && result == (if outcome.Ok? then Ok(CreateResultOf(outcome.value)) else Err(outcome.error))
        && repository.sales == (if outcome.Ok? then old(repository.sales)[outcome.value.id := outcome.value]
                                else old(repository.sales))
    {
      var created, fault := CreateSale(repository, c, shapeErrors, now, saleKey, itemKeys);
      if created == null {
        return Err(fault.value);
      }
      return Ok(CreateResultOf(created.Value()));
    }
  }
}
