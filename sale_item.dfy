/** The line item of a sale and its quantity-tiered discount policy
    (Domain/Entities/SaleItem.cs). Amounts are C# `decimal`, which is exact for
    these sums and products, and are modelled as `real`. */
module SaleItemModel {
  import opened SalesCommon

  /** Message of the InvalidOperationException thrown by `ApplyDiscount`. */
  const QuantityLimitMessage: string := "Cannot sell more than 20 identical items"

  /** A snapshot of every field of a SaleItem. */
  datatype SaleItemData = SaleItemData(
    id: Guid,
    saleId: Guid,
    product: string,
    quantity: int,
    unitPrice: real,
    discount: real,
    totalAmount: real,
    isCancelled: bool)

  /** The discount rate `ApplyDiscount` assigns for a quantity, or None where it throws. */
  function TierDiscount(quantity: int): Option<real> {
    if quantity < 4 then Some(0.0)
    else if quantity >= 4 && quantity < 10 then Some(0.10)
    else if quantity >= 10 && quantity <= 20 then Some(0.20)
    else None
  }

  /** `CalculateTotalAmount`: subtotal minus the discounted part of the subtotal. */
  function LineTotal(quantity: int, unitPrice: real, discount: real): real {
    var subtotal := quantity as real * unitPrice;
    subtotal - subtotal * discount
  }

  /** The item after `CalculateTotalAmount`. */
  function WithTotal(item: SaleItemData): SaleItemData {
    item.(totalAmount := LineTotal(item.quantity, item.unitPrice, item.discount))
  }

  /** The item after a successful `ApplyDiscount`, or None where it throws (and then
      neither Discount nor TotalAmount has been touched). */
  function Discounted(item: SaleItemData): Option<SaleItemData> {
    match TierDiscount(item.quantity)
    case None => None
    case Some(d) => Some(WithTotal(item.(discount := d)))
  }

  /** The item after `Cancel`. */
  function CancelledItem(item: SaleItemData): SaleItemData {
    item.(isCancelled := true)
  }

  /** `ApplyDiscount` applied to each item in turn, as the create and update handlers
      do: either every discounted item, in order, or the product of the first item
      whose quantity exceeds the limit (where the loop stops). */
  function DiscountAll(items: seq<SaleItemData>): (r: Result<seq<SaleItemData>, string>)
    ensures r.Ok? <==> forall i :: 0 <= i < |items| ==> items[i].quantity <= 20
    ensures r.Ok? ==> |r.value| == |items|
    ensures r.Ok? ==> forall i :: 0 <= i < |items| ==> Discounted(items[i]) == Some(r.value[i])
    ensures r.Err? ==>
      exists k :: (0 <= k < |items| && items[k].quantity > 20 && r.error == items[k].product
                   && forall j :: 0 <= j < k ==> items[j].quantity <= 20)
    decreases |items|
  {
    if items == [] then Ok([])
    else
      var n := |items| - 1;
      assert forall i :: 0 <= i < n ==> items[..n][i] == items[i];
      match DiscountAll(items[..n])
      case Err(p) => Err(p)
      case Ok(done) =>
        match Discounted(items[n])
        case None => Err(items[n].product)
        case Some(d) => Ok(done + [d])
  }

  /** The first item above the limit is the one whose product the failure names. */
  lemma DiscountAllStopsAtFirst(items: seq<SaleItemData>, k: nat)
    requires k < |items| && items[k].quantity > 20
    requires forall j :: 0 <= j < k ==> items[j].quantity <= 20
    ensures DiscountAll(items) == Err(items[k].product)
  {
    var r := DiscountAll(items);
    var m :| 0 <= m < |items| && items[m].quantity > 20 && r.error == items[m].product
             && forall j :: 0 <= j < m ==> items[j].quantity <= 20;
    assert m == k;
  }

  /** The tier table for every quantity: below 4 (zero and negatives included) no
      discount, 4 to 9 ten percent, 10 to 20 twenty percent, above 20 a failure. */
  lemma TierTable(quantity: int)
    ensures quantity < 4 ==> TierDiscount(quantity) == Some(0.0)
    ensures 4 <= quantity < 10 ==> TierDiscount(quantity) == Some(0.10)
    ensures 10 <= quantity <= 20 ==> TierDiscount(quantity) == Some(0.20)
    ensures TierDiscount(quantity).None? <==> quantity > 20
  {
  }

  /** A larger quantity (within the limit) never gets a smaller discount. */
  lemma TierMonotone(q1: int, q2: int)
    requires q1 <= q2 <= 20
    ensures TierDiscount(q1).Some? && TierDiscount(q2).Some?
    ensures TierDiscount(q1).value <= TierDiscount(q2).value
  {
  }

  /** The total of the specification, `quantity * unitPrice * (1 - discount)`, is the one
      the code computes. */
  lemma {:induction false} LineTotalFactored(quantity: int, unitPrice: real, discount: real)
    ensures LineTotal(quantity, unitPrice, discount) == quantity as real * unitPrice * (1.0 - discount)
  {
    var subtotal := quantity as real * unitPrice;
    calc {
      LineTotal(quantity, unitPrice, discount);
      subtotal - subtotal * discount;
      subtotal * (1.0 - discount);
    }
  }

  /** For a non-negative quantity and price and a rate in [0, 1], the line total lies
      between 0 and the undiscounted subtotal. */
  lemma {:induction false} LineTotalBounds(quantity: int, unitPrice: real, discount: real)
    requires quantity >= 0 && unitPrice >= 0.0
    requires 0.0 <= discount <= 1.0
    ensures 0.0 <= LineTotal(quantity, unitPrice, discount) <= quantity as real * unitPrice
  {
    var subtotal := quantity as real * unitPrice;
    assert subtotal >= 0.0;
    assert 0.0 <= subtotal * discount <= subtotal by {
      assert subtotal * discount >= 0.0;
      assert subtotal * (1.0 - discount) >= 0.0;
    }
  }

  /** After a successful `ApplyDiscount` the item meets the discount rules of the item
      validator: a rate in [0, 1], and no discount below 4 units. Quantity, price,
      product, identifiers and cancellation are untouched and the total is consistent. */
  lemma DiscountMeetsValidatorRules(item: SaleItemData)
    requires Discounted(item).Some?
    ensures var d := Discounted(item).value;
      && 0.0 <= d.discount <= 1.0
      && (d.quantity < 4 ==> d.discount == 0.0)
      && d.totalAmount == LineTotal(d.quantity, d.unitPrice, d.discount)
      && d.(discount := item.discount, totalAmount := item.totalAmount) == item
  {
  }

  /** `ApplyDiscount` is idempotent: a second call gives the same Discount and TotalAmount. */
  lemma DiscountIdempotent(item: SaleItemData)
    requires Discounted(item).Some?
    ensures Discounted(Discounted(item).value) == Discounted(item)
  {
  }

  /** Quantity 4 at price 10 gets 10% off, a total of 36; quantity 20 at price 10 gets
      20% off, a total of 160; a quantity of 0 or below gets no discount. */
  lemma DiscountExamples(item: SaleItemData)
    ensures Discounted(item.(quantity := 4, unitPrice := 10.0))
      == Some(item.(quantity := 4, unitPrice := 10.0, discount := 0.10, totalAmount := 36.0))
    ensures Discounted(item.(quantity := 20, unitPrice := 10.0))
      == Some(item.(quantity := 20, unitPrice := 10.0, discount := 0.20, totalAmount := 160.0))
    ensures item.quantity <= 0 ==>
      (Discounted(item).Some? && Discounted(item).value.discount == 0.0
       && Discounted(item).value.totalAmount == item.quantity as real * item.unitPrice)
  {
  }

  /** Totals keep every decimal digit: 10 units at 123.456 with 20% off make 987.648. */
  lemma HighPrecisionTotal()
    ensures LineTotal(10, 123.456, 0.20) == 987.648
  {
  }
}

/** The SaleItem entity, whose operations assign its fields in place. */
module SaleItemEntity {
  import opened SalesCommon
  import opened SaleItemModel
  import SaleItemValidation

  /** The field values of a list of item objects, in order. */
  function Snapshot(items: seq<SaleItem>): (r: seq<SaleItemData>)
    reads items
    ensures |r| == |items|
    ensures forall i :: 0 <= i < |items| ==> r[i] == items[i].Value()
  {
    seq(|items|, i requires 0 <= i < |items| reads items => items[i].Value())
  }

  class SaleItem {
    var id: Guid
    var saleId: Guid
    var product: string
    var quantity: int
    var unitPrice: real
    var discount: real
    var totalAmount: real
    var isCancelled: bool

    /** An item with the given field values (object initialiser or materialisation). */
    constructor (data: SaleItemData)
      ensures Value() == data
    {
      id, saleId, product := data.id, data.saleId, data.product;
      quantity, unitPrice, discount := data.quantity, data.unitPrice, data.discount;
      totalAmount, isCancelled := data.totalAmount, data.isCancelled;
    }

    function Value(): SaleItemData
      reads this
    {
      SaleItemData(id, saleId, product, quantity, unitPrice, discount, totalAmount, isCancelled)
    }

    /** `Validate`: valid exactly when the item validator reports nothing, with its
        failures passed on unchanged. */
    function Validate(): (r: ValidationResultDetail)
      reads this
      ensures r.isValid <==> SaleItemValidation.IsValid(Value())
      ensures r.errors == SaleItemValidation.Errors(Value())
    {
      var errors := SaleItemValidation.Errors(Value());
      ValidationResultDetail(errors == [], errors)
    }

    /** `ApplyDiscount`: assigns the tier rate and recomputes the total, or fails with
        the quantity-limit message before touching any field. */
    method ApplyDiscount() returns (outcome: Outcome)
      modifies this
      ensures outcome.Pass? <==> old(quantity) <= 20
      ensures outcome.Fail? ==> outcome.message == QuantityLimitMessage && Value() == old(Value())
      ensures outcome.Pass? ==> Discounted(old(Value())) == Some(Value())
    {
      if quantity < 4 {
        discount := 0.0;
      } else if quantity >= 4 && quantity < 10 {
        discount := 0.10;
      } else if quantity >= 10 && quantity <= 20 {
        discount := 0.20;
      } else {
        return Fail(QuantityLimitMessage);
      }
      CalculateTotalAmount();
      outcome := Pass;
    }

    /** `CalculateTotalAmount`: only TotalAmount changes. */
    method CalculateTotalAmount()
      modifies this
      ensures Value() == WithTotal(old(Value()))
    {
      var subtotal := quantity as real * unitPrice;
      totalAmount := subtotal - subtotal * discount;
    }

    /** `Cancel`: sets IsCancelled and changes no other field. */
    method Cancel()
      modifies this
      ensures Value() == CancelledItem(old(Value()))
    {
      isCancelled := true;
    }
  }
}
