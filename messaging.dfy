/** What the handlers hand to the message broker (IMessagePublisher and the message
    DTOs). The broker itself is outside the model: a publish either appends its envelope
    to the log of delivered messages or fails, as the environment decides. */
module Messaging {
  import opened SalesCommon
  import opened SaleItemModel
  import opened SaleModel

  const SaleCreatedRoute: string := "sale.created"
  const ItemCancelledRoute: string := "sale.item.cancelled"

  datatype SaleItemMessage = SaleItemMessage(
    itemId: Guid, product: string, quantity: int, unitPrice: real, discount: real,
    totalAmount: real, isCancelled: bool)

  datatype Message =
    | SaleCreatedMessage(
        saleId: Guid, saleNumber: string, saleDate: DateTime, customer: string,
        totalAmount: real, branch: string, occurredAt: DateTime, items: seq<SaleItemMessage>)
    | ItemCancelledMessage(
        saleId: Guid, itemId: Guid, saleNumber: string, product: string, quantity: int,
        unitPrice: real, totalAmount: real, occurredAt: DateTime)

  /** One `PublishAsync(message, routingKey, messageId, correlationId)` call. */
  datatype Envelope = Envelope(message: Message, routingKey: string, messageId: Guid, correlationId: Guid)

  function ItemMessageOf(item: SaleItemData): SaleItemMessage {
    SaleItemMessage(item.id, item.product, item.quantity, item.unitPrice, item.discount, item.totalAmount, item.isCancelled)
  }

  /** The items of a SaleCreatedMessage: every item of the sale, in order. */
  function ItemMessages(items: seq<SaleItemData>): (r: seq<SaleItemMessage>)
    ensures |r| == |items|
    ensures forall i :: 0 <= i < |items| ==> r[i] == ItemMessageOf(items[i])
  {
    seq(|items|, i requires 0 <= i < |items| => ItemMessageOf(items[i]))
  }

  /** The envelope the create handler publishes for a created sale. */
  function SaleCreatedEnvelope(s: SaleData, now: DateTime, messageId: Guid): Envelope {
    Envelope(
      SaleCreatedMessage(s.id, s.saleNumber, s.saleDate, s.customer, s.totalAmount, s.branch, now, ItemMessages(s.items)),
      SaleCreatedRoute, messageId, s.id)
  }

  /** The envelope the cancel-item handler publishes for an item of sale `s`. */
  function ItemCancelledEnvelope(s: SaleData, item: SaleItemData, now: DateTime, messageId: Guid): Envelope {
    Envelope(
      ItemCancelledMessage(s.id, item.id, s.saleNumber, item.product, item.quantity, item.unitPrice, item.totalAmount, now),
      ItemCancelledRoute, messageId, s.id)
  }

  class MessagePublisher {
    /** Every envelope the broker has accepted, oldest first. */
    var published: seq<Envelope>

    constructor ()
      ensures published == []
    {
      published := [];
    }

    /** `PublishAsync`: appends the envelope, or fails (`fails`) and appends nothing. */
    method Publish(message: Message, routingKey: string, messageId: Guid, correlationId: Guid, fails: bool)
      returns (delivered: bool)
      modifies this
      ensures delivered == !fails
      ensures published == old(published) + (if fails then [] else [Envelope(message, routingKey, messageId, correlationId)])
    {
      if fails {
        return false;
      }
      published := published + [Envelope(message, routingKey, messageId, correlationId)];
      delivered := true;
    }
  }
}
