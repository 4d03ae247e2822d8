/** The rules a sale item must satisfy (Domain/Validation/SaleItemValidator.cs). */
module SaleItemValidation {
  import opened SalesCommon
  import opened ValidationRules
  import opened SaleItemModel

  const ProductRequired: string := "Product is required"
  const ProductTooLong: string := "Product name cannot exceed 100 characters"
  const QuantityNotPositive: string := "Quantity must be greater than 0"
  const QuantityAboveLimit: string := "Cannot sell more than 20 identical items"
  const UnitPriceNotPositive: string := "Unit price must be greater than 0"
  const DiscountOutOfRange: string := "Discount must be between 0 and 1"
  const DiscountRulesViolated: string :=
    "Discount rules violated: purchases below 4 items cannot have a discount"

  /** `ValidateDiscountRules`: fewer than 4 units cannot carry a discount. The tier of
      larger quantities is not checked. */
  predicate DiscountRulesHold(item: SaleItemData) {
    !(item.quantity < 4 && item.discount > 0.0)
  }

  /** An item every rule accepts. */
  predicate IsValid(item: SaleItemData) {
    && TextOk(item.product, 100)
    && 0 < item.quantity <= 20
    && item.unitPrice > 0.0
    && 0.0 <= item.discount <= 1.0
    && DiscountRulesHold(item)
  }

  /** The failures of the item validator, rule by rule in declaration order. Nothing is
      reported exactly for a valid item, and each broken rule reports its own failure. */
  function Errors(item: SaleItemData): (errs: seq<ValidationError>)
    ensures errs == [] <==> IsValid(item)
    ensures IsBlank(item.product) ==> ValidationError(Named("Product"), ProductRequired) in errs
    ensures |item.product| > 100 ==> ValidationError(Named("Product"), ProductTooLong) in errs
    ensures item.quantity <= 0 ==> ValidationError(Named("Quantity"), QuantityNotPositive) in errs
    ensures item.quantity > 20 ==> ValidationError(Named("Quantity"), QuantityAboveLimit) in errs
    ensures item.unitPrice <= 0.0 ==> ValidationError(Named("UnitPrice"), UnitPriceNotPositive) in errs
    ensures !(0.0 <= item.discount <= 1.0) ==> ValidationError(Named("Discount"), DiscountOutOfRange) in errs
    ensures !DiscountRulesHold(item) ==> ValidationError(Self, DiscountRulesViolated) in errs
  {
    RequiredText("Product", item.product, 100, ProductRequired, ProductTooLong)
    + Rule(Named("Quantity"), item.quantity > 0, QuantityNotPositive)
    + Rule(Named("Quantity"), item.quantity <= 20, QuantityAboveLimit)
    + Rule(Named("UnitPrice"), item.unitPrice > 0.0, UnitPriceNotPositive)
    + Rule(Named("Discount"), 0.0 <= item.discount <= 1.0, DiscountOutOfRange)
    + Rule(Self, DiscountRulesHold(item), DiscountRulesViolated)
  }

  /** The validator reads only Product, Quantity, UnitPrice and Discount. */
  lemma ErrorsIgnoreOtherFields(item: SaleItemData, id: Guid, saleId: Guid, total: real, cancelled: bool)
    ensures Errors(item.(id := id, saleId := saleId, totalAmount := total, isCancelled := cancelled))
      == Errors(item)
  {
  }

  /** The boundary table of (quantity, discount) pairs, for an item whose product and
      price are acceptable; a tier is not enforced above 3 units, so 20 units at no
      discount pass. */
  lemma DiscountBoundaryTable(item: SaleItemData)
    requires TextOk(item.product, 100) && item.unitPrice > 0.0
    ensures IsValid(item.(quantity := 1, discount := 0.0))
    ensures IsValid(item.(quantity := 3, discount := 0.0))
    ensures !IsValid(item.(quantity := 3, discount := 0.10))
    ensures IsValid(item.(quantity := 4, discount := 0.10))
    ensures IsValid(item.(quantity := 10, discount := 0.20))
    ensures IsValid(item.(quantity := 20, discount := 0.20))
    ensures IsValid(item.(quantity := 20, discount := 0.0))
    ensures !IsValid(item.(quantity := 21, discount := 0.0))
  {
  }

  /** An item whose product and price are acceptable and whose quantity is within 1..20
      passes the validator once `ApplyDiscount` has run on it. */
  lemma DiscountedItemIsValid(item: SaleItemData)
    requires TextOk(item.product, 100) && item.unitPrice > 0.0
    requires 0 < item.quantity <= 20
    ensures Discounted(item).Some? && IsValid(Discounted(item).value)
  {
    DiscountMeetsValidatorRules(item);
  }
}
