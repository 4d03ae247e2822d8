/** The rules a sale must satisfy (Domain/Validation/SaleValidator.cs). The validator
    reads the clock once, when it is built; that instant is the parameter `now`. */
module SaleValidation {
  import opened SalesCommon
  import opened ValidationRules
  import opened SaleItemModel
  import opened SaleModel
  import SaleItemValidation

  const SaleNumberRequired: string := "Sale number is required"
  const SaleNumberTooLong: string := "Sale number cannot exceed 50 characters"
  const CustomerRequired: string := "Customer is required"
  const CustomerTooLong: string := "Customer name cannot exceed 100 characters"
  const BranchRequired: string := "Branch is required"
  const BranchTooLong: string := "Branch name cannot exceed 100 characters"
  const SaleDateRequired: string := "Sale date is required"
  const SaleDateInFuture: string := "Sale date cannot be in the future"
  const ItemsRequired: string := "Sale must have at least one item"

  /** A sale every rule accepts, every item (cancelled or not) included. */
  predicate IsValid(s: SaleData, now: DateTime) {
    && TextOk(s.saleNumber, 50)
    && TextOk(s.customer, 100)
    && TextOk(s.branch, 100)
    && s.saleDate != DefaultDateTime
    && s.saleDate <= now
    && |s.items| > 0
    && forall i :: 0 <= i < |s.items| ==> SaleItemValidation.IsValid(s.items[i])
  }

  /** The failures of the sale validator, in declaration order, the failures of item `i`
      reported under `Items[i]`. */
  function Errors(s: SaleData, now: DateTime): (errs: seq<ValidationError>)
    ensures errs == [] <==> IsValid(s, now)
    ensures IsBlank(s.saleNumber) ==> ValidationError(Named("SaleNumber"), SaleNumberRequired) in errs
    ensures |s.saleNumber| > 50 ==> ValidationError(Named("SaleNumber"), SaleNumberTooLong) in errs
    ensures IsBlank(s.customer) ==> ValidationError(Named("Customer"), CustomerRequired) in errs
    ensures |s.customer| > 100 ==> ValidationError(Named("Customer"), CustomerTooLong) in errs
    ensures IsBlank(s.branch) ==> ValidationError(Named("Branch"), BranchRequired) in errs
    ensures |s.branch| > 100 ==> ValidationError(Named("Branch"), BranchTooLong) in errs
    ensures s.saleDate == DefaultDateTime ==> ValidationError(Named("SaleDate"), SaleDateRequired) in errs
    ensures s.saleDate > now ==> ValidationError(Named("SaleDate"), SaleDateInFuture) in errs
    ensures s.items == [] ==> ValidationError(Named("Items"), ItemsRequired) in errs
    ensures forall i, k :: 0 <= i < |s.items| && 0 <= k < |SaleItemValidation.Errors(s.items[i])| ==>
      var e := SaleItemValidation.Errors(s.items[i])[k];
      ValidationError(Element("Items", i, e.property), e.message) in errs
  {
    RequiredText("SaleNumber", s.saleNumber, 50, SaleNumberRequired, SaleNumberTooLong)
    + RequiredText("Customer", s.customer, 100, CustomerRequired, CustomerTooLong)
    + RequiredText("Branch", s.branch, 100, BranchRequired, BranchTooLong)
    + Rule(Named("SaleDate"), s.saleDate != DefaultDateTime, SaleDateRequired)
    + Rule(Named("SaleDate"), s.saleDate <= now, SaleDateInFuture)
    + Rule(Named("Items"), |s.items| > 0, ItemsRequired)
    + ForEach("Items", s.items, SaleItemValidation.Errors)
  }

  /** In a valid sale every item, cancelled or not, has a quantity in 1..20 and no
      discount unless it has at least 4 units. */
  lemma ValidSaleItems(s: SaleData, now: DateTime, i: nat)
    requires IsValid(s, now) && i < |s.items|
    ensures 1 <= s.items[i].quantity <= 20
    ensures s.items[i].quantity < 4 ==> s.items[i].discount == 0.0
    ensures s.items[i].unitPrice > 0.0
  {
    assert SaleItemValidation.IsValid(s.items[i]);
  }

  /** The validator never reads the id, the total, the cancellation flag or the
      timestamps of the sale, nor the id, sale id, total or cancellation of its items:
      two sales that agree on the validated fields get the same failures. */
  lemma {:induction false} ErrorsReadOnlyValidatedFields(s: SaleData, t: SaleData, now: DateTime)
    requires s.saleNumber == t.saleNumber && s.customer == t.customer && s.branch == t.branch
    requires s.saleDate == t.saleDate && |s.items| == |t.items|
    requires forall i :: 0 <= i < |s.items| ==>
      var a, b := s.items[i], t.items[i];
      a.product == b.product && a.quantity == b.quantity && a.unitPrice == b.unitPrice && a.discount == b.discount
    ensures Errors(s, now) == Errors(t, now)
  {
    forall i | 0 <= i < |s.items|
      ensures SaleItemValidation.Errors(s.items[i]) == SaleItemValidation.Errors(t.items[i])
    {
      var a, b := s.items[i], t.items[i];
      SaleItemValidation.ErrorsIgnoreOtherFields(a, b.id, b.saleId, b.totalAmount, b.isCancelled);
      assert b == a.(id := b.id, saleId := b.saleId, totalAmount := b.totalAmount, isCancelled := b.isCancelled);
    }
    ForEachCongruent("Items", s.items, t.items, SaleItemValidation.Errors, 0);
  }

  /** A sale with no items, or dated after `now`, is never valid. */
  lemma RejectedSales(s: SaleData, now: DateTime)
    ensures s.items == [] ==> !IsValid(s, now)
    ensures s.saleDate > now ==> !IsValid(s, now)
  {
  }
}
