# Sales aggregate and command handlers of the Ambev developer-evaluation backend

This project models, in Dafny, the core of the sales back end:

- the `SaleItem` and `Sale` domain entities;
- their FluentValidation validators;
- the MediatR command handlers that drive them: create, update, cancel sale, cancel item, delete and get. Both the Application layer and the duplicated Web API layer handlers are covered, together with their command-shape validators.

## How the model is built

Entities and state:
- `SaleItem` and `Sale` are classes whose methods update their fields in place, as the C# does.
- Each has a `Value()` snapshot: a `SaleItemData` or `SaleData` datatype.
- Every method states its new state as a specification function of the old snapshot, and the lemmas beside those functions prove what the source promises.

Validators:
- Each validator is a predicate, `IsValid`, plus the error list it reports, `Errors`.
- All rules are evaluated and their failures collected, in declaration order.
- Failures of item `i` are reported under `Items[i]`.

Repository and publisher:
- The EF Core repository is a class holding `map<Guid, SaleData>` of committed sales.
- `GetById` materialises fresh entity objects. `Update` commits the object's snapshot. A handler that fails after changing the loaded entity therefore commits nothing, as the database would.
- The message publisher is an append-only log of envelopes (message, routing key, message id, correlation id). A `fails` flag says whether the broker call throws; the handlers swallow that failure.

Outcomes and handler structure:
- Exceptions are `Fault` values in a `Result`.
- The clock (`DateTime.UtcNow`), generated Guids and message ids are parameters. Every clock read in one handler call sees the same `now`.
- Each handler has a specification function giving its outcome on a store, e.g. `CreateOutcome` and `UpdateOutcome`. The handler method is proved to return that outcome and to leave exactly the corresponding store.
- The lemmas state, on those functions, the failure order, what a success contains, and how the operations compose: read after create, update or delete; cancel then update; cancelling twice.

Types:
- `decimal` is `real`, which is exact like `decimal` over the values involved.
- `Guid` is `nat` with `Empty == 0`; `DateTime` is `nat` with `0` as `default(DateTime)`.

Where the code and its comments or tests disagree, the model follows the code:
- `SaleItem.ApplyDiscount` gives 10% from 4 units (`Quantity >= 4`), although its comment says "above 4".
- The update handler discards every item and rebuilds the list from the command. It never reconciles items.
- The Application `UpdateSaleHandler` and `CancelSaleHandler` take no publisher and only log their event. Their unit tests construct them with a publisher and expect `sale.modified` / `sale.cancelled` publishes. The model has no publish on these paths: `UpdateSaleHandler.Handle` and `CancelSaleHandler.Handle` have no publisher in their frames.

## Model

| member | source | states |
|---|---|---|
| SaleItemModel.DiscountAll | template/backend/src/Ambev.DeveloperEvaluation.Application/Sales/CreateSale/CreateSaleHandler.cs:73-83 | The foreach over `ApplyDiscount` succeeds iff every quantity is at most 20, and then yields each item discounted, in order. Otherwise it fails with the product of the first item over 20 (earlier items all within the limit). |
| SaleItemModel.DiscountAllStopsAtFirst | template/backend/src/Ambev.DeveloperEvaluation.Application/Sales/UpdateSale/UpdateSaleHandler.cs:48-60 | When item `k` is the first with quantity above 20, the loop's failure names exactly `items[k].product`. |
| SaleItemModel.TierTable | template/backend/src/Ambev.DeveloperEvaluation.Domain/Entities/SaleItem.cs:76-91 | Quantity below 4 (including 0 and negatives) gives discount 0; 4..9 gives 0.10; 10..20 gives 0.20; the discount is undefined exactly above 20. |
| SaleItemModel.TierMonotone | template/backend/src/Ambev.DeveloperEvaluation.Domain/Entities/SaleItem.cs:76-91 | A larger quantity, within the limit, never gets a smaller discount. |
| SaleItemModel.LineTotalFactored | template/backend/src/Ambev.DeveloperEvaluation.Domain/Entities/SaleItem.cs:99-103 | `q*p - q*p*d` equals `q*p*(1-d)`. |
| SaleItemModel.LineTotalBounds | template/backend/src/Ambev.DeveloperEvaluation.Domain/Entities/SaleItem.cs:99-103 | For non-negative quantity and price and a discount in [0,1], the line total lies between 0 and `q*p`. |
| SaleItemModel.DiscountMeetsValidatorRules | template/backend/src/Ambev.DeveloperEvaluation.Domain/Entities/SaleItem.cs:74-94 | A successful `ApplyDiscount` leaves a discount in [0,1], and 0 when fewer than 4 units. The total is the line total. No field other than Discount and TotalAmount changes. |
| SaleItemModel.DiscountIdempotent | template/backend/src/Ambev.DeveloperEvaluation.Domain/Entities/SaleItem.cs:74-94 | Applying the discount a second time yields the same item as applying it once. |
| SaleItemModel.DiscountExamples | template/backend/src/Ambev.DeveloperEvaluation.Domain/Entities/SaleItem.cs:76-93 | q=4, p=10 gives discount 0.10 and total 36; q=20, p=10 gives 0.20 and 160. A non-positive quantity gets no discount and the total `q*p`. |
| SaleItemModel.HighPrecisionTotal | template/backend/src/Ambev.DeveloperEvaluation.Domain/Entities/SaleItem.cs:99-103 | 10 × 123.456 at 20% is exactly 987.648, with no binary rounding. |
| SaleItemEntity.Snapshot | template/backend/src/Ambev.DeveloperEvaluation.Domain/Entities/Sale.cs:55 | The value of an item list is the list of its items' values, position by position. |
| SaleItemEntity.SaleItem.constructor | template/backend/src/Ambev.DeveloperEvaluation.Domain/Entities/SaleItem.cs:10-45 | A new item holds exactly the given field values. |
| SaleItemEntity.SaleItem.Validate | template/backend/src/Ambev.DeveloperEvaluation.Domain/Entities/SaleItem.cs:55-64 | Valid iff `SaleItemValidator` reports nothing; its failures are passed on unchanged. |
| SaleItemEntity.SaleItem.ApplyDiscount | template/backend/src/Ambev.DeveloperEvaluation.Domain/Entities/SaleItem.cs:74-94 | Succeeds iff quantity ≤ 20, leaving the item discounted by its tier with its total recomputed. Above 20 it fails with "Cannot sell more than 20 identical items", and Discount and TotalAmount keep their old values. |
| SaleItemEntity.SaleItem.CalculateTotalAmount | template/backend/src/Ambev.DeveloperEvaluation.Domain/Entities/SaleItem.cs:99-103 | TotalAmount becomes `q*p - q*p*d`; nothing else changes. |
| SaleItemEntity.SaleItem.Cancel | template/backend/src/Ambev.DeveloperEvaluation.Domain/Entities/SaleItem.cs:108-111 | IsCancelled becomes true; nothing else changes. |
| SaleModel.Active | template/backend/src/Ambev.DeveloperEvaluation.Domain/Entities/Sale.cs:94 | The items counted in the total are those not cancelled: an item is in the result iff it is in the list and not cancelled (multiplicity is stated by `SaleModel.ActiveCounts`). |
| SaleModel.ActiveCounts | template/backend/src/Ambev.DeveloperEvaluation.Domain/Entities/Sale.cs:94 | The filter keeps every non-cancelled item exactly as many times as the list holds it and keeps no cancelled item, so equal items each count in the total. |
| SaleModel.FirstIndexOf | template/backend/src/Ambev.DeveloperEvaluation.Domain/Entities/Sale.cs:112 | `FirstOrDefault` by id: the position of the first item with the id, or none iff no item has it. |
| SaleModel.RemoveAt | template/backend/src/Ambev.DeveloperEvaluation.Domain/Entities/Sale.cs:115 | `List.Remove` of the item at `k`: items before `k` stay, later items shift down by one. |
| SaleModel.CancelAt | template/backend/src/Ambev.DeveloperEvaluation.Application/Sales/CancelSaleItem/CancelSaleItemHandler.cs:52 | Only the item at `k` changes, and it becomes cancelled. |
| SaleModel.SumTotalsAppend | template/backend/src/Ambev.DeveloperEvaluation.Domain/Entities/Sale.cs:94 | The sum of item totals distributes over concatenation. |
| SaleModel.ActiveAppend | template/backend/src/Ambev.DeveloperEvaluation.Domain/Entities/Sale.cs:94 | The non-cancelled filter distributes over concatenation. |
| SaleModel.ActiveTotalAppend | template/backend/src/Ambev.DeveloperEvaluation.Domain/Entities/Sale.cs:94 | The sale total of concatenated item lists is the sum of their totals. |
| SaleModel.ActiveTotalSingle | template/backend/src/Ambev.DeveloperEvaluation.Domain/Entities/Sale.cs:94 | A single item contributes its total when active, and 0 when cancelled. |
| SaleModel.ActiveTotalSplit | template/backend/src/Ambev.DeveloperEvaluation.Domain/Entities/Sale.cs:94 | The total splits around any position into prefix, item and suffix. |
| SaleModel.EmptyTotal | template/backend/src/Ambev.DeveloperEvaluation.Domain/Entities/Sale.cs:94 | With no items the total is 0. |
| SaleModel.AllCancelledTotal | template/backend/src/Ambev.DeveloperEvaluation.Domain/Entities/Sale.cs:94 | If every item is cancelled, the total is 0. |
| SaleModel.NoneCancelledTotal | template/backend/src/Ambev.DeveloperEvaluation.Domain/Entities/Sale.cs:94 | If no item is cancelled, the total is the plain sum of item totals. |
| SaleModel.ActiveTotalNonNegative | template/backend/src/Ambev.DeveloperEvaluation.Domain/Entities/Sale.cs:94 | Non-negative item totals give a non-negative sale total. |
| SaleModel.ActiveTotalCancelAt | template/backend/src/Ambev.DeveloperEvaluation.Application/Sales/CancelSaleItem/CancelSaleItemHandler.cs:52-53 | Cancelling item `k` lowers the active total by exactly that item's contribution. |
| SaleModel.ActiveTotalRemoveAt | template/backend/src/Ambev.DeveloperEvaluation.Domain/Entities/Sale.cs:115-116 | Removing item `k` lowers the active total by exactly that item's contribution. |
| SaleModel.RecalculatedIsConsistent | template/backend/src/Ambev.DeveloperEvaluation.Domain/Entities/Sale.cs:92-96 | After `CalculateTotalAmount` the total is the sum over non-cancelled items and the items are untouched. Recalculating again changes only UpdatedAt. |
| SaleModel.AddItemAppends | template/backend/src/Ambev.DeveloperEvaluation.Domain/Entities/Sale.cs:101-105 | The item is appended at the end and the earlier items are unchanged. The total grows by the item's contribution and stays consistent. UpdatedAt is set; nothing else changes. |
| SaleModel.RemoveItemPresent | template/backend/src/Ambev.DeveloperEvaluation.Domain/Entities/Sale.cs:110-118 | With the id present, exactly the first item with it is removed, the rest keep their order, and the total drops by its contribution. UpdatedAt is set; nothing else changes. |
| SaleModel.RemoveItemAbsent | template/backend/src/Ambev.DeveloperEvaluation.Domain/Entities/Sale.cs:112-117 | With the id absent, the sale (items, total, UpdatedAt) is unchanged. |
| SaleModel.CancelKeepsItems | template/backend/src/Ambev.DeveloperEvaluation.Domain/Entities/Sale.cs:83-87 | Cancel sets IsCancelled and UpdatedAt, and leaves the items and the total as they were, consistent if they were. |
| SaleModel.CancelFirstOfTwo | template/backend/src/Ambev.DeveloperEvaluation.Application/Sales/CancelSaleItem/CancelSaleItemHandler.cs:52-53 | Items of 50 and 15 total 65; cancelling the first leaves 15. |
| SaleEntity.Sale.constructor | template/backend/src/Ambev.DeveloperEvaluation.Domain/Entities/Sale.cs:60-64 | A new sale has CreatedAt = SaleDate = now, no items, total 0 and is not cancelled. |
| SaleEntity.Sale.Load | template/backend/src/Ambev.DeveloperEvaluation.ORM/Repositories/SaleRepository.cs:36-41 | A sale loaded with its items holds exactly the stored value. |
| SaleEntity.Sale.Validate | template/backend/src/Ambev.DeveloperEvaluation.Domain/Entities/Sale.cs:69-78 | Valid iff `SaleValidator` reports nothing at time `now`; its failures are passed on unchanged. |
| SaleEntity.Sale.Cancel | template/backend/src/Ambev.DeveloperEvaluation.Domain/Entities/Sale.cs:83-87 | The new state is the cancelled value of the old one: flag set, UpdatedAt = now, no prior-state check. |
| SaleEntity.Sale.CalculateTotalAmount | template/backend/src/Ambev.DeveloperEvaluation.Domain/Entities/Sale.cs:92-96 | The new state is the recalculated old one: the total over non-cancelled items and UpdatedAt = now. The item list is not modified. |
| SaleEntity.Sale.AddItem | template/backend/src/Ambev.DeveloperEvaluation.Domain/Entities/Sale.cs:101-105 | The item object is appended to the list and the state is the old one with the item added and the total recalculated. |
| SaleEntity.Sale.RemoveItem | template/backend/src/Ambev.DeveloperEvaluation.Domain/Entities/Sale.cs:110-118 | The new state is the old one with the first item of that id removed and the total recalculated, or the old one unchanged when no item has the id. |
| SaleEntity.Sale.RemoveAtIndex | template/backend/src/Ambev.DeveloperEvaluation.Domain/Entities/Sale.cs:115-116 | `Items.Remove` of the found item followed by `CalculateTotalAmount`. |
| ValidationRules.RequiredText | template/backend/src/Ambev.DeveloperEvaluation.Domain/Validation/SaleValidator.cs:13-23 | `NotEmpty().MaximumLength(n)`: no failure iff the text is not blank and at most `n` long; blank and too-long each report their message. |
| ValidationRules.Nest | template/backend/src/Ambev.DeveloperEvaluation.Domain/Validation/SaleValidator.cs:32-33 | A child validator's failures are reported under `Items[i]`, one for one, with their messages. |
| ValidationRules.ForEachFrom | template/backend/src/Ambev.DeveloperEvaluation.Domain/Validation/SaleValidator.cs:32-33 | `RuleForEach`: no failure iff every element passes; every failure of element `i` appears under index `i`. |
| ValidationRules.ForEachCongruent | template/backend/src/Ambev.DeveloperEvaluation.Domain/Validation/SaleValidator.cs:32-33 | Collections whose elements fail alike, position by position, report the same failures. |
| SaleItemValidation.Errors | template/backend/src/Ambev.DeveloperEvaluation.Domain/Validation/SaleItemValidator.cs:13-41 | No failure iff the item is valid. A blank or over-100 product, a quantity ≤ 0 or > 20, a price ≤ 0, a discount outside [0,1], and a discount on fewer than 4 units each report their message. |
| SaleItemValidation.ErrorsIgnoreOtherFields | template/backend/src/Ambev.DeveloperEvaluation.Domain/Validation/SaleItemValidator.cs:11-30 | The item validator reads only product, quantity, unit price and discount. |
| SaleItemValidation.DiscountBoundaryTable | template/backend/src/Ambev.DeveloperEvaluation.Domain/Validation/SaleItemValidator.cs:17-41 | (1,0) valid, (3,0) valid, (3,0.10) invalid, (4,0.10), (10,0.20), (20,0.20) valid. (20,0) is valid because tiers are not enforced from 4 units up. (21,0) is invalid. |
| SaleItemValidation.DiscountedItemIsValid | template/backend/src/Ambev.DeveloperEvaluation.Domain/Validation/SaleItemValidator.cs:13-41 | An item with a sound product and price and 1..20 units passes the validator once discounted. |
| SaleValidation.Errors | template/backend/src/Ambev.DeveloperEvaluation.Domain/Validation/SaleValidator.cs:13-33 | No failure iff the sale is valid at `now`. Each field rule reports its message: number ≤ 50, customer and branch ≤ 100 and non-blank, date set and not after `now`, at least one item. Every failure of item `i`, cancelled or not, is reported under `Items[i]`. |
| SaleValidation.ValidSaleItems | template/backend/src/Ambev.DeveloperEvaluation.Domain/Validation/SaleValidator.cs:32-33 | Every item of a valid sale has 1..20 units, a positive price and no discount below 4 units. |
| SaleValidation.ErrorsReadOnlyValidatedFields | template/backend/src/Ambev.DeveloperEvaluation.Domain/Validation/SaleValidator.cs:11-34 | The sale validator never reads the total, the cancelled flags, the ids or the timestamps. |
| SaleValidation.RejectedSales | template/backend/src/Ambev.DeveloperEvaluation.Domain/Validation/SaleValidator.cs:25-30 | A sale with no items, or dated after `now`, is invalid. |
| CreateSaleRequestValidation.Errors | template/backend/src/Ambev.DeveloperEvaluation.WebApi/Features/Sales/CreateSale/CreateSaleRequestValidator.cs:9-45 | No failure iff the request is valid. The number, customer and branch rules report their required and too-long messages, the date and items rules theirs, and each item needs a product, 1..20 units and a positive price. |
| UpdateSaleValidation.Errors | template/backend/src/Ambev.DeveloperEvaluation.Application/Sales/UpdateSale/UpdateSaleValidator.cs:14-51 | No failure iff the command is valid. An empty id, a blank or long customer or branch, and no items each report their message. |
| UpdateSaleValidation.QuantityAboveLimitReported | template/backend/src/Ambev.DeveloperEvaluation.Application/Sales/UpdateSale/UpdateSaleValidator.cs:46-48 | An item with more than 20 units is reported as `Items[i].Quantity` "Cannot sell more than 20 identical items". |
| UpdateSaleValidation.ValidCommandDiscounts | template/backend/src/Ambev.DeveloperEvaluation.Application/Sales/UpdateSale/UpdateSaleValidator.cs:42-51 | A valid command's items all discount successfully and pass the item validator. The handler's catch around `ApplyDiscount` is unreachable. |
| WebApiUpdateSaleValidation.Errors | template/backend/src/Ambev.DeveloperEvaluation.WebApi/Features/Sales/UpdateSale/UpdateSaleValidator.cs:9-41 | No failure iff the command is valid; an empty id is reported first. |
| WebApiUpdateSaleValidation.AgreesWithApplicationValidator | template/backend/src/Ambev.DeveloperEvaluation.WebApi/Features/Sales/UpdateSale/UpdateSaleValidator.cs:9-41 | The Web API copy reports exactly the Application validator's failures. |
| UpdateSaleRequestValidation.Errors | template/backend/src/Ambev.DeveloperEvaluation.WebApi/Features/Sales/UpdateSale/UpdateSaleRequestValidator.cs:11-42 | No failure iff customer and branch are sound, there are items, and each item has a product, 1..20 units and a positive price. There is no id rule. |
| UpdateSaleRequestValidation.CommandErrorsExtendRequestErrors | template/backend/src/Ambev.DeveloperEvaluation.WebApi/Features/Sales/UpdateSale/UpdateSaleRequestValidator.cs:11-42 | The command validator's failures are the id rule's followed by exactly the request validator's. |
| SaleCommands.ItemResults | template/backend/src/Ambev.DeveloperEvaluation.Application/Sales/CreateSale/CreateSaleProfile.cs:12-14 | A result lists every item of the sale, in order, field by field. |
| SaleCommands.SaleIdErrors | template/backend/src/Ambev.DeveloperEvaluation.Application/Sales/CancelSale/CancelSaleValidator.cs:14-16 | The id validators fail iff the id is empty, with "Sale ID is required". |
| SaleCommands.CancelSaleItemErrors | template/backend/src/Ambev.DeveloperEvaluation.Application/Sales/CancelSaleItem/CancelSaleItemValidator.cs:14-20 | No failure iff both ids are set; each empty id reports its message. |
| SaleCommands.CreatedItemsOf | template/backend/src/Ambev.DeveloperEvaluation.Application/Sales/CreateSale/CreateSaleProfile.cs:10-11 | The mapped sale has one fresh item per command item, in order, with the command's product, quantity and price. |
| SaleCommands.UpdatedItemsOf | template/backend/src/Ambev.DeveloperEvaluation.Application/Sales/UpdateSale/UpdateSaleProfile.cs:15-16 | Each rebuilt item takes the command's id or a fresh one, and the sale's id as SaleId. |
| SaleCommands.ItemShapeErrors | template/backend/src/Ambev.DeveloperEvaluation.WebApi/Features/Sales/CreateSale/CreateSaleRequestValidator.cs:36-45 | The request item rules: no failure iff product, quantity (1..20) and price are sound; each violation reports its message. |
| SaleCommands.ShapeOkItemIsDiscountedValid | template/backend/src/Ambev.DeveloperEvaluation.WebApi/Features/Sales/CreateSale/CreateSaleRequestValidator.cs:36-45 | An item passing the request rules discounts successfully and then passes the domain item validator. |
| SaleStore.Keyed | template/backend/src/Ambev.DeveloperEvaluation.ORM/Repositories/SaleRepository.cs:24-29 | `CreateAsync` gives the sale and each item its key (or keeps one already set) and sets each item's SaleId; nothing else changes. |
| SaleStore.KeyedKeepsBusinessFields | template/backend/src/Ambev.DeveloperEvaluation.ORM/Repositories/SaleRepository.cs:24-29 | Keying leaves every business field of every item unchanged and keeps a consistent total consistent. |
| SaleStore.TotalIgnoresKeys | template/backend/src/Ambev.DeveloperEvaluation.ORM/Repositories/SaleRepository.cs:24-29 | The sale total depends only on item totals and cancelled flags. |
| SaleStore.AssignKeys | template/backend/src/Ambev.DeveloperEvaluation.ORM/Repositories/SaleRepository.cs:24-29 | Each item object gets its key and the sale's id in place. |
| SaleStore.Materialise | template/backend/src/Ambev.DeveloperEvaluation.ORM/Repositories/SaleRepository.cs:36-41 | `Include(s => s.Items)` yields fresh, distinct item objects holding the stored item values. |
| SaleStore.SaleRepository.constructor | template/backend/src/Ambev.DeveloperEvaluation.ORM/Repositories/SaleRepository.cs:10-17 | A new store is empty. |
| SaleStore.SaleRepository.ExistsSaleNumber | template/backend/src/Ambev.DeveloperEvaluation.ORM/Repositories/SaleRepository.cs:48-53 | A sale with that number is found iff one is stored. |
| SaleStore.SaleRepository.GetById | template/backend/src/Ambev.DeveloperEvaluation.ORM/Repositories/SaleRepository.cs:36-41 | Null iff no sale has the id; otherwise a fresh object holding the stored sale with its items. |
| SaleStore.SaleRepository.Create | template/backend/src/Ambev.DeveloperEvaluation.ORM/Repositories/SaleRepository.cs:24-29 | The object is keyed in place and stored under its key; every other entry is unchanged. |
| SaleStore.SaleRepository.Update | template/backend/src/Ambev.DeveloperEvaluation.ORM/Repositories/SaleRepository.cs:71-75 | The object's current state replaces the stored sale with its id; every other entry is unchanged. |
| SaleStore.SaleRepository.Delete | template/backend/src/Ambev.DeveloperEvaluation.ORM/Repositories/SaleRepository.cs:82-91 | True iff the id was stored; afterwards the id is absent and every other entry is unchanged. |
| Messaging.ItemMessages | template/backend/src/Ambev.DeveloperEvaluation.Application/Sales/CreateSale/CreateSaleHandler.cs:109-118 | The message lists every item of the created sale, in order, with id, product, quantity, price, discount, total and flag. |
| Messaging.MessagePublisher.constructor | template/backend/src/Ambev.DeveloperEvaluation.MessageBroker/Interfaces/IMessagePublisher.cs:6-27 | A new publisher has sent nothing. |
| Messaging.MessagePublisher.Publish | template/backend/src/Ambev.DeveloperEvaluation.MessageBroker/Interfaces/IMessagePublisher.cs:26 | A call that does not throw appends exactly one envelope (message, routing key, message id, correlation id). A call that throws appends nothing. |
| CreateSaleHandling.PreparedSale | template/backend/src/Ambev.DeveloperEvaluation.Application/Sales/CreateSale/CreateSaleHandler.cs:61-94 | A sale that gets past every check passed shape validation and the duplicate check, and had every item discounted. It carries the recalculated total, passes the validator and has no cancelled item. |
| CreateSaleHandling.FailureOrder | template/backend/src/Ambev.DeveloperEvaluation.Application/Sales/CreateSale/CreateSaleHandler.cs:61-83 | Shape errors fail first and a duplicate sale number next. After those, the first item over 20 units fails with its product. |
| CreateSaleHandling.CreatedSale | template/backend/src/Ambev.DeveloperEvaluation.Application/Sales/CreateSale/CreateSaleHandler.cs:61-96 | A created sale has the generated key and the command's number, date, customer and branch. It is not cancelled, is stamped `now`, has one item per command item and totals the sum of its item totals. It passes the validator. |
| CreateSaleHandling.KeyedSale | template/backend/src/Ambev.DeveloperEvaluation.ORM/Repositories/SaleRepository.cs:24-29 | Keying a validated sale with no cancelled items keeps it valid and its total the sum of item totals. |
| CreateSaleHandling.CreatedSaleItems | template/backend/src/Ambev.DeveloperEvaluation.Application/Sales/CreateSale/CreateSaleHandler.cs:71-85 | Item `i` of a created sale has its key, the sale's id and the command item's product, quantity and price. It carries the tier discount and the line total and is not cancelled. |
| CreateSaleHandling.RequestValidCommandIsCreated | template/backend/src/Ambev.DeveloperEvaluation.WebApi/Features/Sales/CreateSale/CreateSaleRequestValidator.cs:9-45 | A command passing the request validator with a new sale number is always created. Neither the quantity catch nor the domain validation can fail it. |
| CreateSaleHandling.CreateThenDuplicate | template/backend/src/Ambev.DeveloperEvaluation.Application/Sales/CreateSale/CreateSaleHandler.cs:67-69 | Creating adds one entry and keeps the others. Repeating the command then fails with "Sale with number X already exists". |
| CreateSaleHandling.ThreeItemTotal | template/backend/src/Ambev.DeveloperEvaluation.Application/Sales/CreateSale/CreateSaleHandler.cs:73-85 | Items (5 × 10), (10 × 20), (3 × 15) discount to 45 + 160 + 45 = 250. |
| CreateSaleHandling.MapSale | template/backend/src/Ambev.DeveloperEvaluation.Application/Sales/CreateSale/CreateSaleHandler.cs:71 | `_mapper.Map<Sale>(command)` builds a fresh sale with fresh, distinct item objects holding the command's values. |
| CreateSaleHandling.DiscountItems | template/backend/src/Ambev.DeveloperEvaluation.Application/Sales/CreateSale/CreateSaleHandler.cs:73-83 | The foreach over the item objects leaves them discounted exactly as `DiscountAll` says, or fails with the first product over the limit. |
| CreateSaleHandling.Complete | template/backend/src/Ambev.DeveloperEvaluation.Application/Sales/CreateSale/CreateSaleHandler.cs:73-94 | Discounting, the total and the validation on the mapped sale give exactly the specified outcome. |
| CreateSaleHandling.PrepareSale | template/backend/src/Ambev.DeveloperEvaluation.Application/Sales/CreateSale/CreateSaleHandler.cs:61-94 | Everything before `CreateAsync` yields the specified sale or the first failure, and writes nothing. |
| CreateSaleHandling.CreateSale | template/backend/src/Ambev.DeveloperEvaluation.Application/Sales/CreateSale/CreateSaleHandler.cs:61-96 | The store gains exactly the created sale on success and is unchanged on failure. |
| CreateSaleHandling.CreateSaleHandler.constructor | template/backend/src/Ambev.DeveloperEvaluation.Application/Sales/CreateSale/CreateSaleHandler.cs:40-50 | The handler holds the given repository and publisher. |
| CreateSaleHandling.CreateSaleHandler.Handle | template/backend/src/Ambev.DeveloperEvaluation.Application/Sales/CreateSale/CreateSaleHandler.cs:61-139 | The result and the store follow the specified outcome. Exactly one "sale.created" publish is attempted after the commit, correlated by the sale's id and copied from the created sale; its failure is swallowed. No failure path publishes. |
| WebApiCreateSaleHandling.CreateSaleHandler.constructor | template/backend/src/Ambev.DeveloperEvaluation.WebApi/Features/Sales/CreateSale/CreateSaleHandler.cs:20-28 | The handler holds the given repository. |
| WebApiCreateSaleHandling.CreateSaleHandler.Handle | template/backend/src/Ambev.DeveloperEvaluation.WebApi/Features/Sales/CreateSale/CreateSaleHandler.cs:32-81 | The same result and store as the Application handler, and nothing is published. |
| UpdateSaleHandling.UpdateSucceeded | template/backend/src/Ambev.DeveloperEvaluation.Application/Sales/UpdateSale/UpdateSaleHandler.cs:29-76 | A successful update passed the command validator, found a non-cancelled sale and discounted every item. It is the revised sale, and that sale passes the validator. |
| UpdateSaleHandling.UpdateFailureOrder | template/backend/src/Ambev.DeveloperEvaluation.Application/Sales/UpdateSale/UpdateSaleHandler.cs:29-40 | An invalid command fails with its validation errors before any lookup. A missing sale then fails with "not found", and a cancelled sale with "Cannot update a cancelled sale". |
| UpdateSaleHandling.UpdateNeverExceedsLimit | template/backend/src/Ambev.DeveloperEvaluation.Application/Sales/UpdateSale/UpdateSaleHandler.cs:53-60 | The quantity-limit failure of the item loop never occurs: the command validator rejects such quantities first. |
| UpdateSaleHandling.DiscountedCommandItem | template/backend/src/Ambev.DeveloperEvaluation.Application/Sales/UpdateSale/UpdateSaleHandler.cs:48-63 | Rebuilt item `i` has the command's or a fresh id, the sale's id, the command's product, quantity and price, the tier discount and the line total, and is not cancelled. |
| UpdateSaleHandling.UpdatedSale | template/backend/src/Ambev.DeveloperEvaluation.Application/Sales/UpdateSale/UpdateSaleHandler.cs:42-76 | An updated sale keeps its id, number, date and creation time and stays not cancelled. It takes the command's customer and branch and UpdatedAt = now, has one item per command item and totals their sum. It passes the validator. |
| UpdateSaleHandling.UpdatedSaleItems | template/backend/src/Ambev.DeveloperEvaluation.Application/Sales/UpdateSale/UpdateSaleHandler.cs:47-63 | The old items are discarded: item `i` of the updated sale is built from command item `i` alone. |
| UpdateSaleHandling.ValidUpdateSucceeds | template/backend/src/Ambev.DeveloperEvaluation.Application/Sales/UpdateSale/UpdateSaleHandler.cs:29-78 | A valid command on a stored, non-cancelled sale with a sound number and date always succeeds. |
| UpdateSaleHandling.UpdateIdempotent | template/backend/src/Ambev.DeveloperEvaluation.Application/Sales/UpdateSale/UpdateSaleHandler.cs:42-78 | Repeating an update on its own result, at the same time and with the same fresh ids, yields the same sale. |
| UpdateSaleHandling.MapItem | template/backend/src/Ambev.DeveloperEvaluation.Application/Sales/UpdateSale/UpdateSaleHandler.cs:50-60 | Maps one command item to a fresh item object with the sale's id and applies its discount. It fails iff the quantity is above 20. |
| UpdateSaleHandling.ReplaceItems | template/backend/src/Ambev.DeveloperEvaluation.Application/Sales/UpdateSale/UpdateSaleHandler.cs:47-63 | `Items.Clear()` then the loop leaves exactly the discounted command items, as fresh objects, or fails with the first product over the limit. |
| UpdateSaleHandling.Revise | template/backend/src/Ambev.DeveloperEvaluation.Application/Sales/UpdateSale/UpdateSaleHandler.cs:43-76 | The field changes, rebuilt items, total and validation on the loaded sale give exactly the specified outcome. |
| UpdateSaleHandling.TotalAndValidate | template/backend/src/Ambev.DeveloperEvaluation.Application/Sales/UpdateSale/UpdateSaleHandler.cs:66-76 | The total is recalculated; the failure is the validator's errors iff the result is invalid. |
| UpdateSaleHandling.LoadAndUpdate | template/backend/src/Ambev.DeveloperEvaluation.Application/Sales/UpdateSale/UpdateSaleHandler.cs:35-78 | Everything after the command validation gives the specified outcome; the store changes only on success. |
| UpdateSaleHandling.ReviseAndStore | template/backend/src/Ambev.DeveloperEvaluation.Application/Sales/UpdateSale/UpdateSaleHandler.cs:43-78 | The update and `UpdateAsync` commit exactly the revised sale on success, and nothing on failure. |
| UpdateSaleHandling.UpdateSaleHandler.constructor | template/backend/src/Ambev.DeveloperEvaluation.Application/Sales/UpdateSale/UpdateSaleHandler.cs:17-25 | The handler holds the given repository and no publisher. |
| UpdateSaleHandling.UpdateSaleHandler.Handle | template/backend/src/Ambev.DeveloperEvaluation.Application/Sales/UpdateSale/UpdateSaleHandler.cs:27-89 | The result is the mapped updated sale or the first failure; the store gains the update only on success. Nothing is published. |
| CancelSaleHandling.CancelFailures | template/backend/src/Ambev.DeveloperEvaluation.Application/Sales/CancelSale/CancelSaleHandler.cs:28-39 | An empty id, then a missing sale, then an already-cancelled sale fail, in that order; anything else succeeds. |
| CancelSaleHandling.CancelledSale | template/backend/src/Ambev.DeveloperEvaluation.Application/Sales/CancelSale/CancelSaleHandler.cs:41-42 | A cancelled sale keeps its id, items, total, number, customer and branch, is flagged cancelled and stamped `now`. |
| CancelSaleHandling.CancelIsFinal | template/backend/src/Ambev.DeveloperEvaluation.Application/Sales/CancelSale/CancelSaleHandler.cs:38-41 | After a cancellation, cancelling again fails with "Sale is already cancelled" and every update fails; a valid update fails with "Cannot update a cancelled sale". |
| CancelSaleHandling.CancelSale | template/backend/src/Ambev.DeveloperEvaluation.Application/Sales/CancelSale/CancelSaleHandler.cs:28-42 | The store gains the cancelled sale on success and is unchanged on any failure. |
| CancelSaleHandling.CancelSaleHandler.constructor | template/backend/src/Ambev.DeveloperEvaluation.Application/Sales/CancelSale/CancelSaleHandler.cs:16-24 | The handler holds the given repository and no publisher. |
| CancelSaleHandling.CancelSaleHandler.Handle | template/backend/src/Ambev.DeveloperEvaluation.Application/Sales/CancelSale/CancelSaleHandler.cs:26-52 | The result maps the cancelled sale, or is the first failure; nothing is published. |
| CancelSaleItemHandling.CancelItemFailures | template/backend/src/Ambev.DeveloperEvaluation.Application/Sales/CancelSaleItem/CancelSaleItemHandler.cs:32-50 | Failures in order: an empty id, a missing sale, a cancelled sale, no item with the id, the first item with the id already cancelled. |
| CancelSaleItemHandling.ItemCancellation | template/backend/src/Ambev.DeveloperEvaluation.Application/Sales/CancelSaleItem/CancelSaleItemHandler.cs:45-55 | Only the first item with the id changes, and it becomes cancelled (it was not). The total is the active total without it, and a consistent total drops by exactly its total. |
| CancelSaleItemHandling.CancelItemTwice | template/backend/src/Ambev.DeveloperEvaluation.Application/Sales/CancelSaleItem/CancelSaleItemHandler.cs:49-50 | Cancelling the same item again fails with "Item is already cancelled". |
| CancelSaleItemHandling.FindItem | template/backend/src/Ambev.DeveloperEvaluation.Application/Sales/CancelSaleItem/CancelSaleItemHandler.cs:45 | The search finds the first item object with the id, or none. |
| CancelSaleItemHandling.CancelItemAt | template/backend/src/Ambev.DeveloperEvaluation.Application/Sales/CancelSaleItem/CancelSaleItemHandler.cs:52-53 | `item.Cancel()` and `CalculateTotalAmount` leave the loaded sale with item `k` cancelled and the total recalculated. |
| CancelSaleItemHandling.CancelInLoaded | template/backend/src/Ambev.DeveloperEvaluation.Application/Sales/CancelSaleItem/CancelSaleItemHandler.cs:45-53 | The search, the item guard and the cancellation give exactly the specified outcome on the loaded sale. |
| CancelSaleItemHandling.CancelItem | template/backend/src/Ambev.DeveloperEvaluation.Application/Sales/CancelSaleItem/CancelSaleItemHandler.cs:32-55 | Up to `UpdateAsync`, the store changes only on success, to the specified sale; the position of the cancelled item is returned. |
| CancelSaleItemHandling.CancelSaleItemHandler.constructor | template/backend/src/Ambev.DeveloperEvaluation.Application/Sales/CancelSaleItem/CancelSaleItemHandler.cs:18-28 | The handler holds the given repository and publisher. |
| CancelSaleItemHandling.CancelSaleItemHandler.Handle | template/backend/src/Ambev.DeveloperEvaluation.Application/Sales/CancelSaleItem/CancelSaleItemHandler.cs:30-97 | The result is {SaleId, ItemId, IsCancelled = true, NewTotalAmount}. One "sale.item.cancelled" publish carrying the cancelled item follows the commit, correlated by the sale's id; its failure is swallowed. No failure publishes. |
| WebApiCancelSaleItemHandling.CancelSaleItemHandler.constructor | template/backend/src/Ambev.DeveloperEvaluation.WebApi/Features/Sales/CancelSaleItem/CancelSaleItemHandler.cs:16-24 | The handler holds the given repository. |
| WebApiCancelSaleItemHandling.CancelSaleItemHandler.Handle | template/backend/src/Ambev.DeveloperEvaluation.WebApi/Features/Sales/CancelSaleItem/CancelSaleItemHandler.cs:26-68 | The same checks, result and store as the Application handler; nothing is published. |
| DeleteSaleHandling.DeleteRemovesOnlyTarget | template/backend/src/Ambev.DeveloperEvaluation.Application/Sales/DeleteSale/DeleteSaleHandler.cs:33-43 | Delete succeeds iff the sale is stored, with Success = true. Afterwards the id is absent and every other entry unchanged, and a second delete fails with "not found". |
| DeleteSaleHandling.DeleteSaleHandler.constructor | template/backend/src/Ambev.DeveloperEvaluation.Application/Sales/DeleteSale/DeleteSaleHandler.cs:19-22 | The handler holds the given repository. |
| DeleteSaleHandling.DeleteSaleHandler.Handle | template/backend/src/Ambev.DeveloperEvaluation.Application/Sales/DeleteSale/DeleteSaleHandler.cs:31-44 | The result and the store are the specified delete outcome; an empty id touches nothing. |
| GetSaleHandling.GetReturnsStored | template/backend/src/Ambev.DeveloperEvaluation.Application/Sales/GetSale/GetSaleHandler.cs:40-50 | A read succeeds iff the sale is stored. It then returns the stored sale's number, date, customer, branch, total, cancelled flag and timestamps, under the requested id, and every stored item, in order, field by field. |
| GetSaleHandling.ReadAfterCreate | template/backend/src/Ambev.DeveloperEvaluation.Application/Sales/GetSale/GetSaleHandler.cs:46-50 | Reading a created sale returns what the create returned. |
| GetSaleHandling.ReadAfterUpdate | template/backend/src/Ambev.DeveloperEvaluation.Application/Sales/GetSale/GetSaleHandler.cs:46-50 | Reading an updated sale returns what the update returned. |
| GetSaleHandling.ReadAfterDelete | template/backend/src/Ambev.DeveloperEvaluation.Application/Sales/GetSale/GetSaleHandler.cs:46-48 | Reading a deleted sale fails with "not found". |
| GetSaleHandling.GetSaleHandler.constructor | template/backend/src/Ambev.DeveloperEvaluation.Application/Sales/GetSale/GetSaleHandler.cs:25-29 | The handler holds the given repository. |
| GetSaleHandling.GetSaleHandler.Handle | template/backend/src/Ambev.DeveloperEvaluation.Application/Sales/GetSale/GetSaleHandler.cs:38-51 | The result is the specified read outcome, and nothing is modified. |

## Left out

- Broker transport: the RabbitMQ connection, reconnect lock, channel handling, JSON serialisation and queue bindings. A publish is an append to a log, or a failure the handler swallows.
- Logging, the domain event classes (`SaleCreatedEvent`, `SaleModifiedEvent`, `SaleCancelledEvent`, `ItemCancelledEvent`), which only capture data for log lines, `CancellationToken` and async plumbing.
- `GetAllSalesHandler` (both layers): it hands the repository's list to the mapper unchanged.
- The real clock and Guid generation: they are parameters (`now`, the keys, the fresh item ids, the message id). One `now` serves every clock read of a handler call.
- The `CreateSaleValidator` of each create handler (the Application one and the Web API one, each resolved in its handler's own namespace) and the Web API `CancelSaleItemValidator` are not modelled; each create handler takes its validator's failures as `shapeErrors`. `CreateSaleHandling.RequestValidCommandIsCreated` relates the create path to the Web API `CreateSaleRequestValidator` rules. The Web API cancel-item handler uses the two NotEmpty id rules of its request validator.
- Validation messages: each is a constant of the model. The conversion of failures to `ValidationErrorDetail` and back is the identity here.
- The text of exception messages: a fault records its kind and the data it names, such as the product of `Item 'P': Cannot sell more than 20 identical items`.
- `decimal` range and rounding: `decimal` is modelled as exact `real`, so 28-digit overflow and the database's decimal(18,2)/(5,2) column rounding are not captured.
- String lengths count UTF-16 code units in .NET. Here a string is a `seq<char>` and its length counts characters.
- EF Core change tracking: an update that reuses an item id already tracked elsewhere would throw at `SaveChangesAsync`. The model commits the sale's snapshot instead.
- Order of the side effects: that persistence precedes the publish is stated only through the final store and publish log, not as a trace of calls.
- CancelSaleHandling.CancelSaleHandler.Handle, UpdateSaleHandling.UpdateSaleHandler.Handle: the unit tests expect these handlers to publish `sale.cancelled` / `sale.modified`, but the code only logs. The model follows the code and states no publish.
