/** The shape rules of an update command (Application/Sales/UpdateSale/UpdateSaleValidator.cs),
    run by the update handler before it loads anything. */
module UpdateSaleValidation {
  import opened SalesCommon
  import opened ValidationRules
  import opened SaleItemModel
  import opened SaleCommands
  import SaleItemValidation
  import SaleValidation

  /** UpdateSaleItemValidator. */
  function ItemErrors(item: UpdateSaleItemCommand): seq<ValidationError> {
    ItemShapeErrors(item.product, item.quantity, item.unitPrice)
  }

  predicate IsValid(c: UpdateSaleCommand) {
    && c.id != Empty
    && TextOk(c.customer, 100)
    && TextOk(c.branch, 100)
    && |c.items| > 0
    && forall i :: 0 <= i < |c.items| ==> ItemShapeOk(c.items[i].product, c.items[i].quantity, c.items[i].unitPrice)
  }

  /** UpdateSaleValidator: the failures, in declaration order, of the id, customer,
      branch and item-list rules and then of each item under `Items[i]`. */
  function Errors(c: UpdateSaleCommand): (errs: seq<ValidationError>)
    ensures errs == [] <==> IsValid(c)
    ensures c.id == Empty ==> ValidationError(Named("Id"), SaleIdRequired) in errs
    ensures IsBlank(c.customer) ==> ValidationError(Named("Customer"), SaleValidation.CustomerRequired) in errs
    ensures |c.customer| > 100 ==> ValidationError(Named("Customer"), SaleValidation.CustomerTooLong) in errs
    ensures IsBlank(c.branch) ==> ValidationError(Named("Branch"), SaleValidation.BranchRequired) in errs
    ensures |c.branch| > 100 ==> ValidationError(Named("Branch"), SaleValidation.BranchTooLong) in errs
    ensures c.items == [] ==> ValidationError(Named("Items"), SaleValidation.ItemsRequired) in errs
  {
    Rule(Named("Id"), c.id != Empty, SaleIdRequired)
    + RequiredText("Customer", c.customer, 100, SaleValidation.CustomerRequired, SaleValidation.CustomerTooLong)
    + RequiredText("Branch", c.branch, 100, SaleValidation.BranchRequired, SaleValidation.BranchTooLong)
    + Rule(Named("Items"), |c.items| > 0, SaleValidation.ItemsRequired)
    + ForEach("Items", c.items, ItemErrors)
  }

  /** An item above 20 units is reported under its own position with the limit message. */
  lemma QuantityAboveLimitReported(c: UpdateSaleCommand, i: nat)
    requires i < |c.items| && c.items[i].quantity > 20
    ensures ValidationError(Element("Items", i, Named("Quantity")), SaleItemValidation.QuantityAboveLimit) in Errors(c)
  {
    var e := ItemErrors(c.items[i]);
    assert ValidationError(Named("Quantity"), SaleItemValidation.QuantityAboveLimit) in e;
    var k :| 0 <= k < |e| && e[k] == ValidationError(Named("Quantity"), SaleItemValidation.QuantityAboveLimit);
    assert ValidationError(Element("Items", 0 + i, e[k].property), e[k].message) in ForEach("Items", c.items, ItemErrors);
  }

  /** A command the validator accepts never reaches the quantity-limit failure of
      `ApplyDiscount`: discounting its mapped items succeeds, and every discounted item
      passes the domain item validator. */
  lemma {:induction false} ValidCommandDiscounts(c: UpdateSaleCommand, freshIds: seq<Guid>, saleId: Guid)
    requires IsValid(c) && |freshIds| == |c.items|
    ensures var r := DiscountAll(UpdatedItemsOf(c.items, freshIds, saleId));
      && r.Ok?
      && forall i :: 0 <= i < |r.value| ==> SaleItemValidation.IsValid(r.value[i])
  {
    var items := UpdatedItemsOf(c.items, freshIds, saleId);
    var r := DiscountAll(items);
    forall i | 0 <= i < |items|
      ensures items[i].quantity <= 20
    {
      assert ItemShapeOk(c.items[i].product, c.items[i].quantity, c.items[i].unitPrice);
    }
    forall i | 0 <= i < |r.value|
      ensures SaleItemValidation.IsValid(r.value[i])
    {
      assert ItemShapeOk(c.items[i].product, c.items[i].quantity, c.items[i].unitPrice);
      ShapeOkItemIsDiscountedValid(items[i]);
    }
  }
}
