/** Creating a sale (Application/Sales/CreateSale/CreateSaleHandler.cs): shape validation,
    duplicate-number check, per-item discount, total, domain validation, insertion, then a
    best-effort "sale.created" publish.

    The command-shape validator the handler builds (CreateSaleValidator) is not part of
    this model: its failures for the command are the parameter `shapeErrors`. The clock
    is read as `now`; generated keys and the message id are parameters. */
module CreateSaleHandling {
  import opened SalesCommon
  import opened ValidationRules
  import opened SaleItemModel
  import opened SaleItemEntity
  import opened SaleModel
  import opened SaleEntity
  import opened SaleCommands
  import opened SaleStore
  import opened Messaging
  import SaleItemValidation
  import SaleValidation
  import CreateSaleRequestValidation

  /** The Sale `_mapper.Map<Sale>(command)` builds: a new Sale with the command's fields
      and the mapped items. */
  function MappedSale(c: CreateSaleCommand, now: DateTime): SaleData {
    NewSale(now).(saleNumber := c.saleNumber, saleDate := c.saleDate, customer := c.customer,
                  branch := c.branch, items := CreatedItemsOf(c.items))
  }

  /** The mapped sale over its discounted items, with its total computed. */
  function Totalled(c: CreateSaleCommand, items: seq<SaleItemData>, now: DateTime): SaleData {
    Recalculated(MappedSale(c, now).(items := items), now)
  }

  /** What the handler hands to `CreateAsync`, or the failure that stops it first. */
  function Prepared(store: map<Guid, SaleData>, c: CreateSaleCommand, shapeErrors: seq<ValidationError>, now: DateTime)
    : Result<SaleData, Fault>
  {
    if shapeErrors != [] then Err(ValidationFailed(shapeErrors))
    else if HasSaleNumber(store, c.saleNumber) then Err(DuplicateSaleNumber(c.saleNumber))
    else Completed(c, now)
  }

  /** The steps after the guards: the items discounted, the total computed, and the
      domain validation. */
  function Completed(c: CreateSaleCommand, now: DateTime): Result<SaleData, Fault> {
    match DiscountAll(CreatedItemsOf(c.items))
    case Err(product) => Err(QuantityLimitExceeded(product))
    case Ok(items) =>
      var sale := Totalled(c, items, now);
      if SaleValidation.IsValid(sale, now) then Ok(sale)
      else Err(ValidationFailed(SaleValidation.Errors(sale, now)))
  }

  /** What a successful preparation consists of. */
  lemma PreparedSale(store: map<Guid, SaleData>, c: CreateSaleCommand, shapeErrors: seq<ValidationError>, now: DateTime)
    requires Prepared(store, c, shapeErrors, now).Ok?
    ensures shapeErrors == [] && !HasSaleNumber(store, c.saleNumber)
    ensures DiscountAll(CreatedItemsOf(c.items)).Ok?
    ensures Prepared(store, c, shapeErrors, now).value == Totalled(c, DiscountAll(CreatedItemsOf(c.items)).value, now)
    ensures var s := Prepared(store, c, shapeErrors, now).value;
      && SaleValidation.IsValid(s, now) && Consistent(s)
      && forall i :: 0 <= i < |s.items| ==> !s.items[i].isCancelled
  {
    var items := CreatedItemsOf(c.items);
    var s := Prepared(store, c, shapeErrors, now).value;
    forall i | 0 <= i < |s.items|
      ensures !s.items[i].isCancelled
    {
      assert Discounted(items[i]) == Some(s.items[i]);
    }
  }

  /** The outcome of the handler: the sale as inserted (with its generated keys), or the
      failure. */
  function CreateOutcome(store: map<Guid, SaleData>, c: CreateSaleCommand, shapeErrors: seq<ValidationError>,
                         now: DateTime, saleKey: Guid, itemKeys: seq<Guid>): Result<SaleData, Fault>
    requires |itemKeys| == |c.items|
  {
    match Prepared(store, c, shapeErrors, now)
    case Err(f) => Err(f)
    case Ok(s) => Ok(Keyed(s, saleKey, itemKeys))
  }

  /** The failures come in the handler's order: shape first, then a taken sale number,
      then the first item above 20 units, named by its product. */
  lemma {:induction false} FailureOrder(store: map<Guid, SaleData>, c: CreateSaleCommand, shapeErrors: seq<ValidationError>,
                                        now: DateTime, saleKey: Guid, itemKeys: seq<Guid>, k: nat)
    requires |itemKeys| == |c.items|
    ensures shapeErrors != [] ==>
      CreateOutcome(store, c, shapeErrors, now, saleKey, itemKeys) == Err(ValidationFailed(shapeErrors))
    ensures shapeErrors == [] && HasSaleNumber(store, c.saleNumber) ==>
      CreateOutcome(store, c, shapeErrors, now, saleKey, itemKeys) == Err(DuplicateSaleNumber(c.saleNumber))
    ensures && shapeErrors == [] && !HasSaleNumber(store, c.saleNumber)
            && k < |c.items| && c.items[k].quantity > 20
            && (forall j :: 0 <= j < k ==> c.items[j].quantity <= 20)
        ==> CreateOutcome(store, c, shapeErrors, now, saleKey, itemKeys) == Err(QuantityLimitExceeded(c.items[k].product))
  {
    if shapeErrors == [] && !HasSaleNumber(store, c.saleNumber) && k < |c.items| && c.items[k].quantity > 20
       && (forall j :: 0 <= j < k ==> c.items[j].quantity <= 20)
    {
      DiscountAllStopsAtFirst(CreatedItemsOf(c.items), k);
    }
  }

  /** A created sale: the command's fields, a new generated id, a new sale's state, a
      total that is the sum of every item's total, and a sale the domain validator
      accepts. */
  lemma {:induction false} CreatedSale(store: map<Guid, SaleData>, c: CreateSaleCommand, shapeErrors: seq<ValidationError>,
                                       now: DateTime, saleKey: Guid, itemKeys: seq<Guid>)
    requires |itemKeys| == |c.items|
    requires CreateOutcome(store, c, shapeErrors, now, saleKey, itemKeys).Ok?
    ensures shapeErrors == [] && !HasSaleNumber(store, c.saleNumber)
    ensures var s := CreateOutcome(store, c, shapeErrors, now, saleKey, itemKeys).value;
      && s.id == saleKey
      && s.saleNumber == c.saleNumber && s.saleDate == c.saleDate
      && s.customer == c.customer && s.branch == c.branch
      && !s.isCancelled && s.createdAt == now && s.updatedAt == Some(now)
      && |s.items| == |c.items|
      && s.totalAmount == SumTotals(s.items)
      && SaleValidation.IsValid(s, now)
  {
    PreparedSale(store, c, shapeErrors, now);
    var prepared := Prepared(store, c, shapeErrors, now).value;
    KeyedSale(prepared, saleKey, itemKeys, now);
  }

  /** Generating the keys of a valid, consistent sale whose items are all active keeps
      it so, and makes its total the plain sum of its items' totals. */
  lemma {:induction false} KeyedSale(s: SaleData, saleKey: Guid, itemKeys: seq<Guid>, now: DateTime)
    requires |itemKeys| == |s.items|
    requires SaleValidation.IsValid(s, now) && Consistent(s)
    requires forall i :: 0 <= i < |s.items| ==> !s.items[i].isCancelled
    ensures var k := Keyed(s, saleKey, itemKeys);
      && SaleValidation.IsValid(k, now)
      && k.totalAmount == SumTotals(k.items)
  {
    var k := Keyed(s, saleKey, itemKeys);
    KeyedKeepsBusinessFields(s, saleKey, itemKeys, 0);
    assert forall i :: 0 <= i < |k.items| ==> k.items[i].isCancelled == s.items[i].isCancelled;
    NoneCancelledTotal(k.items);
    SaleValidation.ErrorsReadOnlyValidatedFields(s, k, now);
  }

  /** The items of a created sale: the command's items in order, with their generated
      ids, the new sale's id, their tier discount and their discounted total. */
  lemma {:induction false} CreatedSaleItems(store: map<Guid, SaleData>, c: CreateSaleCommand, shapeErrors: seq<ValidationError>,
                                            now: DateTime, saleKey: Guid, itemKeys: seq<Guid>, i: nat)
    requires |itemKeys| == |c.items| && i < |c.items|
    requires CreateOutcome(store, c, shapeErrors, now, saleKey, itemKeys).Ok?
    ensures var s := CreateOutcome(store, c, shapeErrors, now, saleKey, itemKeys).value;
      && |s.items| == |c.items|
      && s.items[i].id == itemKeys[i] && s.items[i].saleId == saleKey
      && s.items[i].product == c.items[i].product
      && s.items[i].quantity == c.items[i].quantity
      && s.items[i].unitPrice == c.items[i].unitPrice
      && Some(s.items[i].discount) == TierDiscount(c.items[i].quantity)
      && s.items[i].totalAmount == LineTotal(c.items[i].quantity, c.items[i].unitPrice, s.items[i].discount)
      && !s.items[i].isCancelled
  {
    PreparedSale(store, c, shapeErrors, now);
    var prepared := Prepared(store, c, shapeErrors, now).value;
    KeyedKeepsBusinessFields(prepared, saleKey, itemKeys, i);
    var created := CreatedItemsOf(c.items);
    assert Discounted(created[i]) == Some(prepared.items[i]);
  }

  /** A command that passes the request validator's rules at time `now` is created unless
      its sale number is taken: neither the quantity limit nor the domain validator can
      then fail. */
  lemma {:induction false} RequestValidCommandIsCreated(store: map<Guid, SaleData>, c: CreateSaleCommand, now: DateTime,
                                                        saleKey: Guid, itemKeys: seq<Guid>)
    requires |itemKeys| == |c.items|
    requires CreateSaleRequestValidation.IsValid(c, now)
    requires !HasSaleNumber(store, c.saleNumber)
    ensures CreateOutcome(store, c, [], now, saleKey, itemKeys).Ok?
  {
    var items := CreatedItemsOf(c.items);
    forall i | 0 <= i < |items|
      ensures items[i].quantity <= 20
    {
      assert ItemShapeOk(c.items[i].product, c.items[i].quantity, c.items[i].unitPrice);
    }
    var discounted := DiscountAll(items).value;
    var sale := Recalculated(MappedSale(c, now).(items := discounted), now);
    forall i | 0 <= i < |sale.items|
      ensures SaleItemValidation.IsValid(sale.items[i])
    {
      assert ItemShapeOk(c.items[i].product, c.items[i].quantity, c.items[i].unitPrice);
      ShapeOkItemIsDiscountedValid(items[i]);
    }
    assert SaleValidation.IsValid(sale, now);
  }

  /** Inserting a created sale keeps the store well keyed, keeps every other sale, and
      makes the sale number taken, so the same command a second time fails as a
      duplicate. */
  lemma {:induction false} CreateThenDuplicate(store: map<Guid, SaleData>, c: CreateSaleCommand, now: DateTime,
                                               saleKey: Guid, itemKeys: seq<Guid>, later: DateTime, saleKey2: Guid)
    requires WellKeyed(store) && saleKey != Empty && saleKey !in store
    requires |itemKeys| == |c.items|
    requires CreateOutcome(store, c, [], now, saleKey, itemKeys).Ok?
    ensures var s := CreateOutcome(store, c, [], now, saleKey, itemKeys).value;
      var after := store[s.id := s];
      && WellKeyed(after)
      && (forall id :: id in store ==> id in after && after[id] == store[id])
      && CreateOutcome(after, c, [], later, saleKey2, itemKeys) == Err(DuplicateSaleNumber(c.saleNumber))
  {
    CreatedSale(store, c, [], now, saleKey, itemKeys);
    var s := CreateOutcome(store, c, [], now, saleKey, itemKeys).value;
    assert store[s.id := s][s.id].saleNumber == c.saleNumber;
  }

  /** Three items of 5 at 10, 10 at 20 and 3 at 15 are discounted to 45, 160 and 45, and
      the sale totals 250. */
  lemma {:induction false} ThreeItemTotal()
    ensures var items := CreatedItemsOf([
        CreateSaleItemCommand("Product A", 5, 10.0),
        CreateSaleItemCommand("Product B", 10, 20.0),
        CreateSaleItemCommand("Product C", 3, 15.0)]);
      && DiscountAll(items).Ok?
      && ActiveTotal(DiscountAll(items).value) == 250.0
  {
    var items := CreatedItemsOf([
        CreateSaleItemCommand("Product A", 5, 10.0),
        CreateSaleItemCommand("Product B", 10, 20.0),
        CreateSaleItemCommand("Product C", 3, 15.0)]);
    var d := DiscountAll(items).value;
    assert Discounted(items[0]) == Some(d[0]) && Discounted(items[1]) == Some(d[1]) && Discounted(items[2]) == Some(d[2]);
    assert d[0].totalAmount == 45.0 && d[1].totalAmount == 160.0 && d[2].totalAmount == 45.0;
    assert d == [d[0]] + [d[1]] + [d[2]];
    ActiveTotalAppend([d[0]] + [d[1]], [d[2]]);
    ActiveTotalAppend([d[0]], [d[1]]);
    ActiveTotalSingle(d[0]);
    ActiveTotalSingle(d[1]);
    ActiveTotalSingle(d[2]);
  }

  /** `_mapper.Map<Sale>(command)`: a new Sale over new item objects. */
  method MapSale(c: CreateSaleCommand, now: DateTime) returns (sale: Sale)
    ensures fresh(sale) && sale.Value() == MappedSale(c, now)
    ensures Distinct(sale.items) && forall i :: 0 <= i < |sale.items| ==> fresh(sale.items[i])
  {
    var objects := Materialise(CreatedItemsOf(c.items));
    sale := new Sale(now);
    sale.saleNumber, sale.saleDate, sale.customer, sale.branch := c.saleNumber, c.saleDate, c.customer, c.branch;
    sale.items := objects;
  }

  /** The `ApplyDiscount` loop over the items of a new sale: either every item is
      discounted in place, or the first item over the limit stops the loop and its
      product is returned. */
  method DiscountItems(sale: Sale) returns (failed: Option<string>)
    requires Distinct(sale.items)
    modifies sale.items
    ensures var r := DiscountAll(old(Snapshot(sale.items)));
      && (failed.None? <==> r.Ok?)
      && (failed.Some? ==> failed.value == r.error)
      && (failed.None? ==> Snapshot(sale.items) == r.value)
  {
    ghost var before := Snapshot(sale.items);
    var i := 0;
    while i < |sale.items|
      invariant 0 <= i <= |sale.items|
      invariant forall j :: 0 <= j < i ==> before[j].quantity <= 20 && Discounted(before[j]) == Some(sale.items[j].Value())
      invariant forall j :: i <= j < |sale.items| ==> sale.items[j].Value() == before[j]
    {
      var item := sale.items[i];
      var outcome := item.ApplyDiscount();
      if outcome.Fail? {
        DiscountAllStopsAtFirst(before, i);
        return Some(item.product);
      }
      i := i + 1;
    }
    assert Snapshot(sale.items) == DiscountAll(before).value;
    failed := None;
  }

  /** The handler's steps on the mapped Sale object: `ApplyDiscount` on each item, the
      total, and the domain validation. */
  method Complete(sale: Sale, c: CreateSaleCommand, now: DateTime) returns (fault: Option<Fault>)
    requires sale.Value() == MappedSale(c, now) && Distinct(sale.items)
    modifies sale, sale.items
    ensures var r := Completed(c, now);
      && (fault.None? <==> r.Ok?)
      && (fault.None? ==> sale.Value() == r.value)
      && (fault.Some? ==> fault.value == r.error)
    ensures sale.items == old(sale.items)
  {
    var failed := DiscountItems(sale);
    if failed.Some? {
      return Some(QuantityLimitExceeded(failed.value));
    }
    ghost var discounted := DiscountAll(CreatedItemsOf(c.items)).value;
    assert sale.Value() == MappedSale(c, now).(items := discounted);
    sale.CalculateTotalAmount(now);
    var validation := sale.Validate(now);
    if !validation.isValid {
      return Some(ValidationFailed(validation.errors));
    }
    fault := None;
  }

  /** The handler's steps before `CreateAsync`: the Sale object to insert, or the
      failure that stops it first. Only new objects are changed. */
  method PrepareSale(repository: SaleRepository, c: CreateSaleCommand, shapeErrors: seq<ValidationError>, now: DateTime)
    returns (sale: Sale?, fault: Option<Fault>)
    ensures var prepared := Prepared(repository.sales, c, shapeErrors, now);
      && (sale != null <==> prepared.Ok?)
      && (sale != null ==> sale.Value() == prepared.value && fault == None)
      && (sale == null ==> fault == Some(prepared.error))
    ensures sale != null ==> fresh(sale) && Distinct(sale.items) && forall i :: 0 <= i < |sale.items| ==> fresh(sale.items[i])
  {
    if shapeErrors != [] {
      return null, Some(ValidationFailed(shapeErrors));
    }
    var taken := repository.ExistsSaleNumber(c.saleNumber);
    if taken {
      return null, Some(DuplicateSaleNumber(c.saleNumber));
    }
    sale := MapSale(c, now);
    fault := Complete(sale, c, now);
    if fault.Some? {
      sale := null;
    }
  }

  /** Everything up to and including `CreateAsync`, shared by both create handlers:
      the inserted Sale object, or the failure (and then the store is untouched). */
  method CreateSale(repository: SaleRepository, c: CreateSaleCommand, shapeErrors: seq<ValidationError>,
                    now: DateTime, saleKey: Guid, itemKeys: seq<Guid>)
    returns (created: Sale?, fault: Option<Fault>)
    requires repository.Valid()
    requires saleKey != Empty && saleKey !in repository.sales && |itemKeys| == |c.items|
    modifies repository
    ensures repository.Valid()
    ensures var outcome := CreateOutcome(old(repository.sales), c, shapeErrors, now, saleKey, itemKeys);
      && (created != null <==> outcome.Ok?)
      && (created != null ==> created.Value() == outcome.value && fault == None)
      && (created == null ==> fault == Some(outcome.error))
      && repository.sales == (if outcome.Ok? then old(repository.sales)[outcome.value.id := outcome.value]
                              else old(repository.sales))
  {
    created, fault := PrepareSale(repository, c, shapeErrors, now);
    if created != null {
      repository.Create(created, saleKey, itemKeys);
    }
  }

  class CreateSaleHandler {
    const repository: SaleRepository
    const publisher: MessagePublisher

    constructor (repository: SaleRepository, publisher: MessagePublisher)
      ensures this.repository == repository && this.publisher == publisher
    {
      this.repository := repository;
      this.publisher := publisher;
    }

    /** `Handle`: on success exactly one "sale.created" publish is attempted, after the
        insertion, carrying the created sale and correlated by its id; a failed publish
        is swallowed and the result is returned all the same. No failure publishes. */
    method Handle(c: CreateSaleCommand, shapeErrors: seq<ValidationError>, now: DateTime,
                  saleKey: Guid, itemKeys: seq<Guid>, messageId: Guid, publishFails: bool)
      returns (result: Result<CreateSaleResult, Fault>)
      requires repository.Valid()
      requires saleKey != Empty && saleKey !in repository.sales && |itemKeys| == |c.items|
      modifies repository, publisher
      ensures repository.Valid()
      ensures var outcome := CreateOutcome(old(repository.sales), c, shapeErrors, now, saleKey, itemKeys);
        && result == (if outcome.Ok? then Ok(CreateResultOf(outcome.value)) else Err(outcome.error))
        && repository.sales == (if outcome.Ok? then old(repository.sales)[outcome.value.id := outcome.value]
                                else old(repository.sales))
        && publisher.published == old(publisher.published)
             + (if outcome.Ok? && !publishFails then [SaleCreatedEnvelope(outcome.value, now, messageId)] else [])
    {
      var created, fault := CreateSale(repository, c, shapeErrors, now, saleKey, itemKeys);
      if created == null {
        return Err(fault.value);
      }
      var s := created.Value();
      var message := SaleCreatedMessage(s.id, s.saleNumber, s.saleDate, s.customer, s.totalAmount, s.branch,
                                        now, ItemMessages(s.items));
      var delivered := publisher.Publish(message, SaleCreatedRoute, messageId, s.id, publishFails);
      return Ok(CreateResultOf(s));
    }
  }
}
