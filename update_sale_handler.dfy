/** Updating a sale (Application/Sales/UpdateSale/UpdateSaleHandler.cs): command
    validation, load, the cancelled-sale guard, customer and branch replaced, the item
    list rebuilt from the command, total, domain validation and `UpdateAsync`. The
    handler only logs the modification: nothing reaches the broker. Item ids the command
    leaves out are generated (`freshIds`), the clock is `now`. */
module UpdateSaleHandling {
  import opened SalesCommon
  import opened SaleItemModel
  import opened SaleItemEntity
  import opened SaleModel
  import opened SaleEntity
  import opened SaleCommands
  import opened SaleStore
  import SaleItemValidation
  import SaleValidation
  import UpdateSaleValidation

  /** The loaded sale with the command's customer, branch and (discounted) items, its
      total recomputed. */
  function Revised(s: SaleData, c: UpdateSaleCommand, items: seq<SaleItemData>, now: DateTime): SaleData {
    Recalculated(s.(customer := c.customer, branch := c.branch, items := items), now)
  }

  /** The steps after the guards, on the loaded sale `s`: the items rebuilt and
      discounted, the total recomputed, and the domain validation. */
  function Applied(s: SaleData, c: UpdateSaleCommand, now: DateTime, freshIds: seq<Guid>): Result<SaleData, Fault>
    requires |freshIds| == |c.items|
  {
    match DiscountAll(UpdatedItemsOf(c.items, freshIds, s.id))
    case Err(product) => Err(QuantityLimitExceeded(product))
    case Ok(items) =>
      var revised := Revised(s, c, items, now);
      if SaleValidation.IsValid(revised, now) then Ok(revised)
      else Err(ValidationFailed(SaleValidation.Errors(revised, now)))
  }

  /** The outcome of the handler: the sale as committed, or the failure that stops it
      first. */
  function UpdateOutcome(store: map<Guid, SaleData>, c: UpdateSaleCommand, now: DateTime, freshIds: seq<Guid>)
    : Result<SaleData, Fault>
    requires |freshIds| == |c.items|
  {
    if UpdateSaleValidation.IsValid(c) then Loaded(store, c, now, freshIds)
    else Err(ValidationFailed(UpdateSaleValidation.Errors(c)))
  }

  /** The steps after command validation: load, the two guards, then the update. */
  function Loaded(store: map<Guid, SaleData>, c: UpdateSaleCommand, now: DateTime, freshIds: seq<Guid>)
    : Result<SaleData, Fault>
    requires |freshIds| == |c.items|
  {
    if c.id !in store then Err(SaleNotFound(c.id))
    else if store[c.id].isCancelled then Err(CancelledSaleNotUpdatable)
    else Applied(store[c.id], c, now, freshIds)
  }

  /** What a successful update consists of. */
  lemma UpdateSucceeded(store: map<Guid, SaleData>, c: UpdateSaleCommand, now: DateTime, freshIds: seq<Guid>)
    requires WellKeyed(store) && |freshIds| == |c.items|
    requires UpdateOutcome(store, c, now, freshIds).Ok?
    ensures UpdateSaleValidation.IsValid(c) && c.id in store && !store[c.id].isCancelled && store[c.id].id == c.id
    ensures DiscountAll(UpdatedItemsOf(c.items, freshIds, c.id)).Ok?
    ensures var items := DiscountAll(UpdatedItemsOf(c.items, freshIds, c.id)).value;
      UpdateOutcome(store, c, now, freshIds).value == Revised(store[c.id], c, items, now)
    ensures SaleValidation.IsValid(UpdateOutcome(store, c, now, freshIds).value, now)
  {
  }

  /** The guards come in the handler's order: command validation, then a missing sale,
      then a cancelled one. */
  lemma UpdateFailureOrder(store: map<Guid, SaleData>, c: UpdateSaleCommand, now: DateTime, freshIds: seq<Guid>)
    requires |freshIds| == |c.items|
    ensures !UpdateSaleValidation.IsValid(c) ==>
      UpdateOutcome(store, c, now, freshIds) == Err(ValidationFailed(UpdateSaleValidation.Errors(c)))
    ensures UpdateSaleValidation.IsValid(c) && c.id !in store ==>
      UpdateOutcome(store, c, now, freshIds) == Err(SaleNotFound(c.id))
    ensures UpdateSaleValidation.IsValid(c) && c.id in store && store[c.id].isCancelled ==>
      UpdateOutcome(store, c, now, freshIds) == Err(CancelledSaleNotUpdatable)
  {
  }

  /** The handler's quantity-limit failure cannot happen: the command validator has
      already rejected every item above 20 units. */
  lemma {:induction false} UpdateNeverExceedsLimit(store: map<Guid, SaleData>, c: UpdateSaleCommand, now: DateTime,
                                                   freshIds: seq<Guid>)
    requires |freshIds| == |c.items|
    ensures var r := UpdateOutcome(store, c, now, freshIds);
      !(r.Err? && r.error.QuantityLimitExceeded?)
  {
    if UpdateSaleValidation.IsValid(c) && c.id in store {
      UpdateSaleValidation.ValidCommandDiscounts(c, freshIds, store[c.id].id);
    }
  }

  /** Item `i` of the discounted command items. */
  lemma DiscountedCommandItem(commands: seq<UpdateSaleItemCommand>, freshIds: seq<Guid>, saleId: Guid, i: nat)
    requires |freshIds| == |commands| && i < |commands|
    requires DiscountAll(UpdatedItemsOf(commands, freshIds, saleId)).Ok?
    ensures var d := DiscountAll(UpdatedItemsOf(commands, freshIds, saleId)).value;
      && |d| == |commands|
      && d[i].id == commands[i].id.GetOr(freshIds[i]) && d[i].saleId == saleId
      && d[i].product == commands[i].product
      && d[i].quantity == commands[i].quantity
      && d[i].unitPrice == commands[i].unitPrice
      && Some(d[i].discount) == TierDiscount(commands[i].quantity)
      && d[i].totalAmount == LineTotal(commands[i].quantity, commands[i].unitPrice, d[i].discount)
      && !d[i].isCancelled
  {
    var mapped := UpdatedItemsOf(commands, freshIds, saleId);
    assert Discounted(mapped[i]) == Some(DiscountAll(mapped).value[i]);
  }

  /** An update keeps the sale's identity, number, date, creation time and (uncancelled)
      state, takes the command's customer and branch, stamps the update time, and leaves
      a valid sale whose total is the sum of its items' totals. */
  lemma {:induction false} UpdatedSale(store: map<Guid, SaleData>, c: UpdateSaleCommand, now: DateTime, freshIds: seq<Guid>)
    requires WellKeyed(store) && |freshIds| == |c.items|
    requires UpdateOutcome(store, c, now, freshIds).Ok?
    ensures UpdateSaleValidation.IsValid(c) && c.id in store && !store[c.id].isCancelled
    ensures var s, old_ := UpdateOutcome(store, c, now, freshIds).value, store[c.id];
      && s.id == c.id && s.saleNumber == old_.saleNumber && s.saleDate == old_.saleDate
      && s.createdAt == old_.createdAt && !s.isCancelled
      && s.customer == c.customer && s.branch == c.branch && s.updatedAt == Some(now)
      && |s.items| == |c.items|
      && s.totalAmount == SumTotals(s.items)
      && SaleValidation.IsValid(s, now)
  {
    UpdateSucceeded(store, c, now, freshIds);
    var s := UpdateOutcome(store, c, now, freshIds).value;
    var mapped := UpdatedItemsOf(c.items, freshIds, c.id);
    forall i | 0 <= i < |s.items|
      ensures !s.items[i].isCancelled
    {
      assert Discounted(mapped[i]) == Some(s.items[i]);
    }
    NoneCancelledTotal(s.items);
  }

  /** The items after an update are the command's items, in order: an item keeps the id
      the command gives it or gets a generated one, belongs to the sale, carries the
      command's product, quantity and price with its tier discount, and is not
      cancelled. Items of the old list the command leaves out are gone. */
  lemma {:induction false} UpdatedSaleItems(store: map<Guid, SaleData>, c: UpdateSaleCommand, now: DateTime,
                                            freshIds: seq<Guid>, i: nat)
    requires WellKeyed(store) && |freshIds| == |c.items| && i < |c.items|
    requires UpdateOutcome(store, c, now, freshIds).Ok?
    ensures var s := UpdateOutcome(store, c, now, freshIds).value;
      && |s.items| == |c.items|
      && s.items[i].id == c.items[i].id.GetOr(freshIds[i]) && s.items[i].saleId == c.id
      && s.items[i].product == c.items[i].product
      && s.items[i].quantity == c.items[i].quantity
      && s.items[i].unitPrice == c.items[i].unitPrice
      && Some(s.items[i].discount) == TierDiscount(c.items[i].quantity)
      && s.items[i].totalAmount == LineTotal(c.items[i].quantity, c.items[i].unitPrice, s.items[i].discount)
      && !s.items[i].isCancelled
  {
    UpdateSucceeded(store, c, now, freshIds);
    DiscountedCommandItem(c.items, freshIds, c.id, i);
  }

  /** A valid command for a stored, uncancelled sale whose number and date the sale
      validator accepts at `now` always succeeds. */
  lemma {:induction false} ValidUpdateSucceeds(store: map<Guid, SaleData>, c: UpdateSaleCommand, now: DateTime,
                                               freshIds: seq<Guid>)
    requires |freshIds| == |c.items|
    requires UpdateSaleValidation.IsValid(c) && c.id in store && !store[c.id].isCancelled
    requires ValidationRules.TextOk(store[c.id].saleNumber, 50)
    requires store[c.id].saleDate != DefaultDateTime && store[c.id].saleDate <= now
    ensures UpdateOutcome(store, c, now, freshIds).Ok?
  {
    UpdateSaleValidation.ValidCommandDiscounts(c, freshIds, store[c.id].id);
    var items := DiscountAll(UpdatedItemsOf(c.items, freshIds, store[c.id].id)).value;
    assert SaleValidation.IsValid(Revised(store[c.id], c, items, now), now);
  }

  /** Repeating an update, at the same time and with the same generated ids, on the
      store it produced gives the same sale again. */
  lemma {:induction false} UpdateIdempotent(store: map<Guid, SaleData>, c: UpdateSaleCommand, now: DateTime,
                                            freshIds: seq<Guid>)
    requires WellKeyed(store) && |freshIds| == |c.items|
    requires UpdateOutcome(store, c, now, freshIds).Ok?
    ensures var s := UpdateOutcome(store, c, now, freshIds).value;
      UpdateOutcome(store[c.id := s], c, now, freshIds) == Ok(s)
  {
    var s := UpdateOutcome(store, c, now, freshIds).value;
    var items := DiscountAll(UpdatedItemsOf(c.items, freshIds, c.id)).value;
    assert s == Revised(store[c.id], c, items, now);
    assert Revised(s, c, items, now) == s;
  }

  /** One command item mapped to a new SaleItem of sale `saleId`, then discounted. */
  method MapItem(c: UpdateSaleItemCommand, freshId: Guid, saleId: Guid) returns (item: SaleItem, outcome: Outcome)
    ensures fresh(item)
    ensures outcome.Pass? <==> c.quantity <= 20
    ensures outcome.Pass? ==> Discounted(UpdatedItemOf(c, freshId, saleId)) == Some(item.Value())
    ensures item.product == c.product
  {
    item := new SaleItem(UpdatedItemOf(c, freshId, saleId));
    outcome := item.ApplyDiscount();
  }

  /** `sale.Items.Clear()` followed by the loop that maps, discounts and adds each
      command item in turn; the first item over the limit stops the loop and its
      product is returned. */
  method ReplaceItems(sale: Sale, commands: seq<UpdateSaleItemCommand>, freshIds: seq<Guid>)
    returns (failed: Option<string>)
    requires |freshIds| == |commands|
    modifies sale`items
    ensures var r := DiscountAll(UpdatedItemsOf(commands, freshIds, sale.id));
      && (failed.None? <==> r.Ok?)
      && (failed.Some? ==> failed.value == r.error)
      && (failed.None? ==> Snapshot(sale.items) == r.value)
    ensures Distinct(sale.items) && forall i :: 0 <= i < |sale.items| ==> fresh(sale.items[i])
  {
    ghost var mapped := UpdatedItemsOf(commands, freshIds, sale.id);
    sale.items := [];
    var i := 0;
    while i < |commands|
      invariant 0 <= i <= |commands| && |sale.items| == i
      invariant forall j :: 0 <= j < i ==> mapped[j].quantity <= 20 && Discounted(mapped[j]) == Some(sale.items[j].Value())
      invariant Distinct(sale.items) && forall j :: 0 <= j < i ==> fresh(sale.items[j])
    {
      var item, outcome := MapItem(commands[i], freshIds[i], sale.id);
      if outcome.Fail? {
        DiscountAllStopsAtFirst(mapped, i);
        return Some(item.product);
      }
      sale.items := sale.items + [item];
      i := i + 1;
    }
    assert Snapshot(sale.items) == DiscountAll(mapped).value;
    failed := None;
  }

  /** The handler's steps on the loaded Sale object after the guards: its customer and
      branch replaced, its items rebuilt, its total recomputed and the result validated. */
  method Revise(sale: Sale, ghost loaded: SaleData, c: UpdateSaleCommand, now: DateTime, freshIds: seq<Guid>)
    returns (fault: Option<Fault>)
    requires |freshIds| == |c.items| && sale.Value() == loaded
    modifies sale
    ensures var r := Applied(loaded, c, now, freshIds);
      && (fault.None? <==> r.Ok?)
      && (fault.None? ==> sale.Value() == r.value)
      && (fault.Some? ==> fault.value == r.error)
  {
    ghost var before := loaded;
    sale.customer := c.customer;
    sale.branch := c.branch;
    var failed := ReplaceItems(sale, c.items, freshIds);
    if failed.Some? {
      return Some(QuantityLimitExceeded(failed.value));
    }
    ghost var items := DiscountAll(UpdatedItemsOf(c.items, freshIds, before.id)).value;
    assert sale.Value() == before.(customer := c.customer, branch := c.branch, items := items);
    fault := TotalAndValidate(sale, now);
    assert sale.Value() == Revised(before, c, items, now);
  }

  /** `CalculateTotalAmount` then `Validate` on the revised Sale object. */
  method TotalAndValidate(sale: Sale, now: DateTime) returns (fault: Option<Fault>)
    modifies sale
    ensures sale.Value() == Recalculated(old(sale.Value()), now)
    ensures fault == if SaleValidation.IsValid(sale.Value(), now) then None
                     else Some(ValidationFailed(SaleValidation.Errors(sale.Value(), now)))
  {
    sale.CalculateTotalAmount(now);
    var validation := sale.Validate(now);
    if !validation.isValid {
      return Some(ValidationFailed(validation.errors));
    }
    fault := None;
  }

  /** The handler after command validation, up to and including `UpdateAsync`. */
  method LoadAndUpdate(repository: SaleRepository, c: UpdateSaleCommand, now: DateTime, freshIds: seq<Guid>)
    returns (updated: Sale?, fault: Option<Fault>)
    requires repository.Valid() && |freshIds| == |c.items|
    modifies repository
    ensures repository.Valid()
    ensures var outcome := Loaded(old(repository.sales), c, now, freshIds);
      && (updated != null <==> outcome.Ok?)
      && (updated != null ==> updated.Value() == outcome.value && fault == None)
      && (updated == null ==> fault == Some(outcome.error))
      && repository.sales == (if outcome.Ok? then old(repository.sales)[c.id := outcome.value] else old(repository.sales))
  {
    var sale := repository.GetById(c.id);
    if sale == null {
      return null, Some(SaleNotFound(c.id));
    }
    if sale.isCancelled {
      return null, Some(CancelledSaleNotUpdatable);
    }
    fault := ReviseAndStore(repository, sale, old(repository.sales)[c.id], c, now, freshIds);
    updated := if fault.None? then sale else null;
  }

  /** The update on the loaded Sale object and, when it succeeds, `UpdateAsync`. */
  method ReviseAndStore(repository: SaleRepository, sale: Sale, ghost loaded: SaleData, c: UpdateSaleCommand,
                        now: DateTime, freshIds: seq<Guid>)
    returns (fault: Option<Fault>)
    requires repository.Valid() && |freshIds| == |c.items|
    requires sale.Value() == loaded && loaded.id == c.id && c.id in repository.sales
    modifies repository, sale
    ensures repository.Valid()
    ensures var r := Applied(loaded, c, now, freshIds);
      && (fault.None? <==> r.Ok?)
      && (fault.None? ==> sale.Value() == r.value)
      && (fault.Some? ==> fault.value == r.error)
      && repository.sales == (if r.Ok? then old(repository.sales)[c.id := r.value] else old(repository.sales))
  {
    fault := Revise(sale, loaded, c, now, freshIds);
    if fault.Some? {
      return;
    }
    assert sale.id == sale.Value().id == c.id;
    repository.Update(sale);
  }

  class UpdateSaleHandler {
    const repository: SaleRepository

    constructor (repository: SaleRepository)
      ensures this.repository == repository
    {
      this.repository := repository;
    }

    /** `Handle`: commits the updated sale and returns it, or fails and leaves the store
        as it was. */
    method Handle(c: UpdateSaleCommand, now: DateTime, freshIds: seq<Guid>)
      returns (result: Result<UpdateSaleResult, Fault>)
      requires repository.Valid() && |freshIds| == |c.items|
      modifies repository
      ensures repository.Valid()
      ensures var outcome := UpdateOutcome(old(repository.sales), c, now, freshIds);
        result == (if outcome.Ok? then Ok(UpdateResultOf(outcome.value)) else Err(outcome.error))
      ensures var outcome := UpdateOutcome(old(repository.sales), c, now, freshIds);
        repository.sales == (if outcome.Ok? then old(repository.sales)[c.id := outcome.value] else old(repository.sales))
    {
      var errors := UpdateSaleValidation.Errors(c);
      if errors != [] {
        return Err(ValidationFailed(errors));
      }
      var updated, fault := LoadAndUpdate(repository, c, now, freshIds);
      if updated == null {
        return Err(fault.value);
      }
      return Ok(UpdateResultOf(updated.Value()));
    }
  }
}
