/** The shape rules of a create request (WebApi/Features/Sales/CreateSale/CreateSaleRequestValidator.cs).
    The validator reads the clock when it is built; that instant is `now`. */
module CreateSaleRequestValidation {
  import opened SalesCommon
  import opened ValidationRules
  import opened SaleItemModel
  import opened SaleCommands
  import SaleItemValidation
  import SaleValidation

  /** CreateSaleItemRequestValidator. */
  function ItemErrors(item: CreateSaleItemCommand): seq<ValidationError> {
    ItemShapeErrors(item.product, item.quantity, item.unitPrice)
  }

  predicate IsValid(r: CreateSaleRequest, now: DateTime) {
    && TextOk(r.saleNumber, 50)
    && TextOk(r.customer, 100)
    && TextOk(r.branch, 100)
    && r.saleDate != DefaultDateTime
    && r.saleDate <= now
    && |r.items| > 0
    && forall i :: 0 <= i < |r.items| ==> ItemShapeOk(r.items[i].product, r.items[i].quantity, r.items[i].unitPrice)
  }

  /** CreateSaleRequestValidator: the failures, in declaration order, the failures of
      item `i` under `Items[i]`. */
  function Errors(r: CreateSaleRequest, now: DateTime): (errs: seq<ValidationError>)
    ensures errs == [] <==> IsValid(r, now)
    ensures IsBlank(r.saleNumber) ==> ValidationError(Named("SaleNumber"), SaleValidation.SaleNumberRequired) in errs
    ensures |r.saleNumber| > 50 ==> ValidationError(Named("SaleNumber"), SaleValidation.SaleNumberTooLong) in errs
    ensures IsBlank(r.customer) ==> ValidationError(Named("Customer"), SaleValidation.CustomerRequired) in errs
    ensures |r.customer| > 100 ==> ValidationError(Named("Customer"), SaleValidation.CustomerTooLong) in errs
    ensures IsBlank(r.branch) ==> ValidationError(Named("Branch"), SaleValidation.BranchRequired) in errs
    ensures |r.branch| > 100 ==> ValidationError(Named("Branch"), SaleValidation.BranchTooLong) in errs
    ensures r.saleDate == DefaultDateTime ==> ValidationError(Named("SaleDate"), SaleValidation.SaleDateRequired) in errs
    ensures r.saleDate > now ==> ValidationError(Named("SaleDate"), SaleValidation.SaleDateInFuture) in errs
    ensures r.items == [] ==> ValidationError(Named("Items"), SaleValidation.ItemsRequired) in errs
  {
    RequiredText("SaleNumber", r.saleNumber, 50, SaleValidation.SaleNumberRequired, SaleValidation.SaleNumberTooLong)
    + RequiredText("Customer", r.customer, 100, SaleValidation.CustomerRequired, SaleValidation.CustomerTooLong)
    + RequiredText("Branch", r.branch, 100, SaleValidation.BranchRequired, SaleValidation.BranchTooLong)
    + Rule(Named("SaleDate"), r.saleDate != DefaultDateTime, SaleValidation.SaleDateRequired)
    + Rule(Named("SaleDate"), r.saleDate <= now, SaleValidation.SaleDateInFuture)
    + Rule(Named("Items"), |r.items| > 0, SaleValidation.ItemsRequired)
    + ForEach("Items", r.items, ItemErrors)
  }
}
