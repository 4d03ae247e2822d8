/** The shape rules of an update request body
    (WebApi/Features/Sales/UpdateSale/UpdateSaleRequestValidator.cs): those of the update
    command without the id rule, the id coming from the route. */
module UpdateSaleRequestValidation {
  import opened SalesCommon
  import opened ValidationRules
  import opened SaleCommands
  import SaleValidation
  import UpdateSaleValidation

  /** UpdateSaleRequestValidator. */
  function Errors(r: UpdateSaleRequest): (errs: seq<ValidationError>)
    ensures errs == [] <==> && TextOk(r.customer, 100) && TextOk(r.branch, 100) && |r.items| > 0
                            && forall i :: 0 <= i < |r.items| ==> ItemShapeOk(r.items[i].product, r.items[i].quantity, r.items[i].unitPrice)
  {
    RequiredText("Customer", r.customer, 100, SaleValidation.CustomerRequired, SaleValidation.CustomerTooLong)
    + RequiredText("Branch", r.branch, 100, SaleValidation.BranchRequired, SaleValidation.BranchTooLong)
    + Rule(Named("Items"), |r.items| > 0, SaleValidation.ItemsRequired)
    + ForEach("Items", r.items, UpdateSaleValidation.ItemErrors)
  }

  /** The command built from a request and a route id fails exactly as the request does,
      after the id failure when the route id is empty: the request validator is the
      command validator less its first rule. */
  lemma CommandErrorsExtendRequestErrors(r: UpdateSaleRequest, id: Guid)
    ensures UpdateSaleValidation.Errors(UpdateSaleCommand(id, r.customer, r.branch, r.items))
      == Rule(Named("Id"), id != Empty, SaleIdRequired) + Errors(r)
  {
    var idRule := Rule(Named("Id"), id != Empty, SaleIdRequired);
    var customer := RequiredText("Customer", r.customer, 100, SaleValidation.CustomerRequired, SaleValidation.CustomerTooLong);
    var branch := RequiredText("Branch", r.branch, 100, SaleValidation.BranchRequired, SaleValidation.BranchTooLong);
    var items := Rule(Named("Items"), |r.items| > 0, SaleValidation.ItemsRequired);
    var each := ForEach("Items", r.items, UpdateSaleValidation.ItemErrors);
    calc {
      UpdateSaleValidation.Errors(UpdateSaleCommand(id, r.customer, r.branch, r.items));
      idRule + customer + branch + items + each;
      { SeqAssoc4(idRule, customer, branch, items, each); }
      idRule + (customer + branch + items + each);
      idRule + Errors(r);
    }
  }

  lemma SeqAssoc4<T>(a: seq<T>, b: seq<T>, c: seq<T>, d: seq<T>, e: seq<T>)
    ensures a + b + c + d + e == a + (b + c + d + e)
  {
  }
}
