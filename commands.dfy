/** The commands the handlers accept, the results they return, and the one-rule id
    validators (CancelSaleValidator, DeleteSaleValidator, GetSaleValidator,
    CancelSaleItemValidator) that each handler runs first. */
module SaleCommands {
  import opened SalesCommon
  import opened ValidationRules
  import opened SaleItemModel
  import opened SaleModel
  import SaleItemValidation

  datatype CreateSaleItemCommand = CreateSaleItemCommand(product: string, quantity: int, unitPrice: real)

  datatype CreateSaleCommand = CreateSaleCommand(
    saleNumber: string,
    saleDate: DateTime,
    customer: string,
    branch: string,
    items: seq<CreateSaleItemCommand>)

  /** An item of an update; `id` is the optional `Guid?` of an item being kept. */
  datatype UpdateSaleItemCommand = UpdateSaleItemCommand(id: Option<Guid>, product: string, quantity: int, unitPrice: real)

  datatype UpdateSaleCommand = UpdateSaleCommand(
    id: Guid,
    customer: string,
    branch: string,
    items: seq<UpdateSaleItemCommand>)

  /** The HTTP request bodies carry the same fields as the commands they are mapped to;
      the update request has no id (it comes from the route). */
  type CreateSaleRequest = CreateSaleCommand

  datatype UpdateSaleRequest = UpdateSaleRequest(customer: string, branch: string, items: seq<UpdateSaleItemCommand>)

  datatype CancelSaleCommand = CancelSaleCommand(id: Guid)

  datatype CancelSaleItemCommand = CancelSaleItemCommand(saleId: Guid, itemId: Guid)

  datatype DeleteSaleCommand = DeleteSaleCommand(id: Guid)

  datatype GetSaleCommand = GetSaleCommand(id: Guid)

  /** An item as every result DTO shows it. */
  datatype ItemResult = ItemResult(
    id: Guid, product: string, quantity: int, unitPrice: real, discount: real, totalAmount: real, isCancelled: bool)

  datatype CreateSaleResult = CreateSaleResult(
    id: Guid, saleNumber: string, saleDate: DateTime, customer: string, totalAmount: real,
    branch: string, isCancelled: bool, items: seq<ItemResult>)

  datatype UpdateSaleResult = UpdateSaleResult(
    id: Guid, saleNumber: string, saleDate: DateTime, customer: string, totalAmount: real,
    branch: string, isCancelled: bool, updatedAt: Option<DateTime>, items: seq<ItemResult>)

  datatype GetSaleResult = GetSaleResult(
    id: Guid, saleNumber: string, saleDate: DateTime, customer: string, totalAmount: real,
    branch: string, isCancelled: bool, createdAt: DateTime, updatedAt: Option<DateTime>, items: seq<ItemResult>)

  datatype CancelSaleResult = CancelSaleResult(id: Guid, saleNumber: string, isCancelled: bool, updatedAt: Option<DateTime>)

  datatype CancelSaleItemResult = CancelSaleItemResult(saleId: Guid, itemId: Guid, isCancelled: bool, newTotalAmount: real)

  datatype DeleteSaleResult = DeleteSaleResult(success: bool)

  function ItemResultOf(item: SaleItemData): ItemResult {
    ItemResult(item.id, item.product, item.quantity, item.unitPrice, item.discount, item.totalAmount, item.isCancelled)
  }

  /** The item list of a result: the sale's items, in order, field by field. */
  function ItemResults(items: seq<SaleItemData>): (r: seq<ItemResult>)
    ensures |r| == |items|
    ensures forall i :: 0 <= i < |items| ==> r[i] == ItemResultOf(items[i])
  {
    seq(|items|, i requires 0 <= i < |items| => ItemResultOf(items[i]))
  }

  function CreateResultOf(s: SaleData): CreateSaleResult {
    CreateSaleResult(s.id, s.saleNumber, s.saleDate, s.customer, s.totalAmount, s.branch, s.isCancelled, ItemResults(s.items))
  }

  function UpdateResultOf(s: SaleData): UpdateSaleResult {
    UpdateSaleResult(s.id, s.saleNumber, s.saleDate, s.customer, s.totalAmount, s.branch, s.isCancelled,
                     s.updatedAt, ItemResults(s.items))
  }

  function GetResultOf(s: SaleData): GetSaleResult {
    GetSaleResult(s.id, s.saleNumber, s.saleDate, s.customer, s.totalAmount, s.branch, s.isCancelled,
                  s.createdAt, s.updatedAt, ItemResults(s.items))
  }

  function CancelResultOf(s: SaleData): CancelSaleResult {
    CancelSaleResult(s.id, s.saleNumber, s.isCancelled, s.updatedAt)
  }

  const SaleIdRequired: string := "Sale ID is required"
  const ItemIdRequired: string := "Item ID is required"

  /** CancelSaleValidator, DeleteSaleValidator and GetSaleValidator: `Id` must not be
      the empty Guid. */
  function SaleIdErrors(id: Guid): (errs: seq<ValidationError>)
    ensures errs == [] <==> id != Empty
    ensures errs != [] ==> errs == [ValidationError(Named("Id"), SaleIdRequired)]
  {
    Rule(Named("Id"), id != Empty, SaleIdRequired)
  }

  /** CancelSaleItemValidator: both ids must be non-empty; both rules are checked. */
  function CancelSaleItemErrors(c: CancelSaleItemCommand): (errs: seq<ValidationError>)
    ensures errs == [] <==> c.saleId != Empty && c.itemId != Empty
    ensures c.saleId == Empty ==> ValidationError(Named("SaleId"), SaleIdRequired) in errs
    ensures c.itemId == Empty ==> ValidationError(Named("ItemId"), ItemIdRequired) in errs
  {
    Rule(Named("SaleId"), c.saleId != Empty, SaleIdRequired)
    + Rule(Named("ItemId"), c.itemId != Empty, ItemIdRequired)
  }

  /** `_mapper.Map<SaleItem>` of a create item: Product, Quantity and UnitPrice copied,
      every other field at its default. */
  function CreatedItemOf(c: CreateSaleItemCommand): SaleItemData {
    SaleItemData(Empty, Empty, c.product, c.quantity, c.unitPrice, 0.0, 0.0, false)
  }

  function CreatedItemsOf(items: seq<CreateSaleItemCommand>): (r: seq<SaleItemData>)
    ensures |r| == |items|
    ensures forall i :: 0 <= i < |items| ==> r[i] == CreatedItemOf(items[i])
  {
    seq(|items|, i requires 0 <= i < |items| => CreatedItemOf(items[i]))
  }

  /** `_mapper.Map<SaleItem>` of an update item, followed by `item.SaleId = sale.Id`: the
      given id or, when there is none, a newly generated one (`freshId`). */
  function UpdatedItemOf(c: UpdateSaleItemCommand, freshId: Guid, saleId: Guid): SaleItemData {
    SaleItemData(c.id.GetOr(freshId), saleId, c.product, c.quantity, c.unitPrice, 0.0, 0.0, false)
  }

  function UpdatedItemsOf(items: seq<UpdateSaleItemCommand>, freshIds: seq<Guid>, saleId: Guid): (r: seq<SaleItemData>)
    requires |freshIds| == |items|
    ensures |r| == |items|
    ensures forall i :: 0 <= i < |items| ==> r[i] == UpdatedItemOf(items[i], freshIds[i], saleId)
  {
    seq(|items|, i requires 0 <= i < |items| => UpdatedItemOf(items[i], freshIds[i], saleId))
  }

  /** The item rules every command-shape validator repeats: a required Product of at most
      100 characters, a Quantity in 1..20 and a positive UnitPrice. */
  predicate ItemShapeOk(product: string, quantity: int, unitPrice: real) {
    TextOk(product, 100) && 0 < quantity <= 20 && unitPrice > 0.0
  }

  /** The failures of those item rules, in declaration order. */
  function ItemShapeErrors(product: string, quantity: int, unitPrice: real): (errs: seq<ValidationError>)
    ensures errs == [] <==> ItemShapeOk(product, quantity, unitPrice)
    ensures IsBlank(product) ==> ValidationError(Named("Product"), SaleItemValidation.ProductRequired) in errs
    ensures |product| > 100 ==> ValidationError(Named("Product"), SaleItemValidation.ProductTooLong) in errs
    ensures quantity <= 0 ==> ValidationError(Named("Quantity"), SaleItemValidation.QuantityNotPositive) in errs
    ensures quantity > 20 ==> ValidationError(Named("Quantity"), SaleItemValidation.QuantityAboveLimit) in errs
    ensures unitPrice <= 0.0 ==> ValidationError(Named("UnitPrice"), SaleItemValidation.UnitPriceNotPositive) in errs
  {
    RequiredText("Product", product, 100, SaleItemValidation.ProductRequired, SaleItemValidation.ProductTooLong)
    + Rule(Named("Quantity"), quantity > 0, SaleItemValidation.QuantityNotPositive)
    + Rule(Named("Quantity"), quantity <= 20, SaleItemValidation.QuantityAboveLimit)
    + Rule(Named("UnitPrice"), unitPrice > 0.0, SaleItemValidation.UnitPriceNotPositive)
  }

  /** An item that passes the shape rules is accepted by the domain item validator once
      `ApplyDiscount` has run on it, whatever its ids. */
  lemma ShapeOkItemIsDiscountedValid(item: SaleItemData)
    requires ItemShapeOk(item.product, item.quantity, item.unitPrice)
    ensures Discounted(item).Some? && SaleItemValidation.IsValid(Discounted(item).value)
  {
    SaleItemValidation.DiscountedItemIsValid(item);
  }
}
