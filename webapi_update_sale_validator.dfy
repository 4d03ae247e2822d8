/** The WebApi copy of the update-command validator
    (WebApi/Features/Sales/UpdateSale/UpdateSaleValidator.cs): the id rule followed by the
    rules of the request validator. */
module WebApiUpdateSaleValidation {
  import opened SalesCommon
  import opened ValidationRules
  import opened SaleCommands
  import UpdateSaleValidation
  import UpdateSaleRequestValidation

  function RequestOf(c: UpdateSaleCommand): UpdateSaleRequest {
    UpdateSaleRequest(c.customer, c.branch, c.items)
  }

  /** UpdateSaleValidator of the WebApi layer. */
  function Errors(c: UpdateSaleCommand): (errs: seq<ValidationError>)
    ensures errs == [] <==> UpdateSaleValidation.IsValid(c)
    ensures c.id == Empty ==> errs[0] == ValidationError(Named("Id"), SaleIdRequired)
  {
    Rule(Named("Id"), c.id != Empty, SaleIdRequired) + UpdateSaleRequestValidation.Errors(RequestOf(c))
  }

  /** The two copies of the update validator report the same failures for every command. */
  lemma AgreesWithApplicationValidator(c: UpdateSaleCommand)
    ensures Errors(c) == UpdateSaleValidation.Errors(c)
  {
    UpdateSaleRequestValidation.CommandErrorsExtendRequestErrors(RequestOf(c), c.id);
  }
}
