/**
  Typed form of the order documents. The service works on loosely typed JSON;
  here each document is decoded into a record whose optional fields are the
  ones whose absence the service trips over.
 */
module Model {

  datatype Option<+T> = None | Some(value: T)

  /** Why processing an item stops. Each corresponds to an exception the
      service lets escape. */
  datatype Fault =
    | StatusMissing    // the item has no "Status" field
    | CountMissing     // a delivered item has no "deliveryNotification" value
    | CountOverflow    // a delivered item's counter does not fit in a 32-bit int

  datatype Result<+T> = Ok(value: T) | Err(fault: Fault) {
    /** The same fault, at another value type. */
    function PropagateFault<U>(): Result<U>
      requires Err?
    {
      Err(fault)
    }
  }

  /** A line of an order. `deliveryNotification` counts the delivery alerts
      sent so far for this item. */
  datatype Item = Item(description: string, status: Option<string>, deliveryNotification: Option<int>)

  /** `items` is `None` when the order's "Items" field holds JSON null. */
  datatype Order = Order(orderId: string, items: Option<seq<Item>>)

  /** Payload of one delivery alert: the owning order, the item, and the
      item's counter as it stood when the alert was raised. */
  datatype Alert = Alert(orderId: string, description: string, count: Option<int>)

  /** The items of an order, with a null item list read as no items. */
  function ItemsOf(order: Order): seq<Item> {
    match order.items
    case None => []
    case Some(items) => items
  }
}
