/**
  The order-processing rule: an item whose status reads "Delivered" (ignoring
  case) raises one alert and has its notification counter incremented. The
  service mutates the order in place; here it returns the new order together
  with the alerts raised, in the order they were raised.
 */
module OrdersService {
  import opened Model
  import Int32
  import Ascii

  const DeliveredStatus: string := "Delivered"

  /** What one processing call produces: the alerts raised, and either the
      processed value or the fault that stopped it. Alerts raised before a
      fault stay raised. */
  datatype Pass<+T> = Pass(alerts: seq<Alert>, outcome: Result<T>)

  // ---------------------------------------------------------------------------
  // The delivery predicate

  /** Compares the status with "Delivered", ordinal and ignoring case. An
      item without a status cannot be judged and faults. */
  function IsItemDelivered(item: Item): (r: Result<bool>)
    ensures item.status.None? <==> r == Err(StatusMissing)
    ensures r.Err? ==> r == Err(StatusMissing)
  {
    match item.status
    case None => Err(StatusMissing)
    case Some(s) => Ok(Ascii.EqualsIgnoreCase(s, DeliveredStatus))
  }

  predicate Delivered(item: Item) {
    IsItemDelivered(item) == Ok(true)
  }

  /** A status counts as delivered exactly when it upper-cases to "DELIVERED". */
  lemma DeliveredFolded(item: Item)
    ensures Delivered(item) <==> item.status.Some? && Ascii.FoldUpper(item.status.value) == "DELIVERED"
  {
    if item.status.Some? {
      Ascii.EqualsIgnoreCaseFolds(item.status.value, DeliveredStatus);
      assert Ascii.FoldUpper(DeliveredStatus) == "DELIVERED";
    }
  }

  /** A status counts as delivered exactly when it spells "delivered" with
      each letter in either case. */
  lemma DeliveredSpelling(item: Item)
    ensures Delivered(item) <==>
              && item.status.Some?
              && |item.status.value| == 9
              && forall i :: 0 <= i < 9 ==>
                   item.status.value[i] == "delivered"[i] || item.status.value[i] == "DELIVERED"[i]
  {
    DeliveredFolded(item);
    if item.status.Some? {
      var s := item.status.value;
      var upper := "DELIVERED";
      Ascii.FoldedCaseVariants(s, upper);
      assert forall i :: 0 <= i < 9 ==> "delivered"[i] as int == upper[i] as int + 32;
    }
  }

  // ---------------------------------------------------------------------------
  // The counter

  /** Reads the counter as a 32-bit int and stores it back plus one. */
  function IncrementDeliveryNotification(item: Item): (r: Result<Item>)
    ensures item.deliveryNotification.None? ==> r == Err(CountMissing)
    ensures r.Ok? <==> item.deliveryNotification.Some? && Int32.InRange(item.deliveryNotification.value)
    ensures r.Err? && item.deliveryNotification.Some? ==> r == Err(CountOverflow)
    ensures r.Ok? ==>
              && r.value.description == item.description
              && r.value.status == item.status
              && r.value.deliveryNotification.Some?
              && Int32.InRange(r.value.deliveryNotification.value)
    ensures r.Ok? && item.deliveryNotification.value < Int32.MaxValue ==>
              r.value.deliveryNotification == Some(item.deliveryNotification.value + 1)
    ensures r.Ok? && item.deliveryNotification.value == Int32.MaxValue ==>
              r.value.deliveryNotification == Some(Int32.MinValue)
  {
    match item.deliveryNotification
    case None => Err(CountMissing)
    case Some(n) =>
      if Int32.InRange(n) then Ok(item.(deliveryNotification := Some(Int32.Increment(n))))
      else Err(CountOverflow)
  }

  // ---------------------------------------------------------------------------
  // Reference notions used to state what processing does

  /** The item can be processed without a fault. */
  predicate Processable(item: Item) {
    && item.status.Some?
    && (Delivered(item) ==> item.deliveryNotification.Some? && Int32.InRange(item.deliveryNotification.value))
  }

  /** The fault an unprocessable item raises. */
  function FaultOf(item: Item): Fault
    requires !Processable(item)
  {
    if item.status.None? then StatusMissing
    else if item.deliveryNotification.None? then CountMissing
    else CountOverflow
  }

  /** Index of the first unprocessable item, or the length if there is none. */
  function FirstFault(items: seq<Item>): (j: nat)
    ensures j <= |items|
    ensures forall i :: 0 <= i < j ==> Processable(items[i])
    ensures j < |items| ==> !Processable(items[j])
  {
    if |items| == 0 then 0
    else if !Processable(items[0]) then 0
    else 1 + FirstFault(items[1..])
  }

  /** The alert raised for an item of the given order. */
  function AlertFor(orderId: string, item: Item): Alert {
    Alert(orderId, item.description, item.deliveryNotification)
  }

  /** One alert per delivered item, in item order. */
  function DeliveredAlerts(orderId: string, items: seq<Item>): (r: seq<Alert>)
    ensures |r| <= |items|
  {
    if |items| == 0 then []
    else (if Delivered(items[0]) then [AlertFor(orderId, items[0])] else [])
         + DeliveredAlerts(orderId, items[1..])
  }

  /** `after` is `before` as one processing pass leaves it: description and
      status kept, counter incremented exactly when the item is delivered. */
  predicate Bumped(before: Item, after: Item)
    requires Processable(before)
  {
    && after.description == before.description
    && after.status == before.status
    && after.deliveryNotification ==
         if Delivered(before) then Some(Int32.Increment(before.deliveryNotification.value))
         else before.deliveryNotification
  }

  // ---------------------------------------------------------------------------
  // Processing

  /** The loop over an order's items: for each delivered item raise the alert,
      then increment the counter. */
  function ProcessItems(orderId: string, items: seq<Item>): (p: Pass<seq<Item>>)
    ensures p.outcome.Ok? <==> FirstFault(items) == |items|
    ensures p.outcome.Ok? ==>
              && |p.outcome.value| == |items|
              && (forall i :: 0 <= i < |items| ==> Bumped(items[i], p.outcome.value[i]))
              && p.alerts == DeliveredAlerts(orderId, items)
    ensures p.outcome.Err? ==>
              && FirstFault(items) < |items|
              && p.outcome.fault == FaultOf(items[FirstFault(items)])
              && p.alerts == DeliveredAlerts(orderId, items[..FirstFault(items) + 1])
  {
    if |items| == 0 then
      Pass([], Ok([]))
    else
      var item := items[0];
      assert items[..1] == [item];
      match IsItemDelivered(item)
      case Err(f) =>
        Pass([], Err(f))
      case Ok(delivered) =>
        if !delivered then
          var rest := ProcessItems(orderId, items[1..]);
          if rest.outcome.Err? then
            assert items[..FirstFault(items) + 1][1..] == items[1..][..FirstFault(items[1..]) + 1];
            Pass(rest.alerts, rest.outcome.PropagateFault())
          else
            Pass(rest.alerts, Ok([item] + rest.outcome.value))
        else
          var alert := AlertFor(orderId, item);
          match IncrementDeliveryNotification(item)
          case Err(f) =>
            Pass([alert], Err(f))
          case Ok(bumped) =>
            var rest := ProcessItems(orderId, items[1..]);
            if rest.outcome.Err? then
              assert items[..FirstFault(items) + 1][1..] == items[1..][..FirstFault(items[1..]) + 1];
              Pass([alert] + rest.alerts, rest.outcome.PropagateFault())
            else
              Pass([alert] + rest.alerts, Ok([bumped] + rest.outcome.value))
  }

  /** Processes one order. A null item list is logged and the order returned
      as it came; otherwise the processed items are written back. */
  function ProcessOrder(order: Order): (p: Pass<Order>)
    ensures order.items.None? ==> p == Pass([], Ok(order))
    ensures order.items == Some([]) ==> p == Pass([], Ok(order))
    ensures p.outcome.Ok? <==> FirstFault(ItemsOf(order)) == |ItemsOf(order)|
    ensures p.outcome.Ok? ==>
              var after := p.outcome.value;
              && after.orderId == order.orderId
              && after.items.Some? == order.items.Some?
              && |ItemsOf(after)| == |ItemsOf(order)|
              && (forall i :: 0 <= i < |ItemsOf(order)| ==> Bumped(ItemsOf(order)[i], ItemsOf(after)[i]))
              && p.alerts == DeliveredAlerts(order.orderId, ItemsOf(order))
    ensures p.outcome.Err? ==>
              var j := FirstFault(ItemsOf(order));
              && j < |ItemsOf(order)|
              && p.outcome.fault == FaultOf(ItemsOf(order)[j])
              && p.alerts == DeliveredAlerts(order.orderId, ItemsOf(order)[..j + 1])
  {
    match order.items
    case None => Pass([], Ok(order))
    case Some(items) =>
      var p := ProcessItems(order.orderId, items);
      match p.outcome
      case Err(f) => Pass(p.alerts, Err(f))
      case Ok(processed) => Pass(p.alerts, Ok(order.(items := Some(processed))))
  }

  // ---------------------------------------------------------------------------
  // Repeated processing

  /** Runs a processing step `k` times in a row, each pass working on what
      the passes before it produced, and collects every alert raised. A
      fault stops the run. */
  function Repeat(step: Order -> Pass<Order>, order: Order, k: nat): Pass<Order>
    decreases k
  {
    if k == 0 then
      Pass([], Ok(order))
    else
      var before := Repeat(step, order, k - 1);
      if before.outcome.Err? then
        before
      else
        var last := step(before.outcome.value);
        Pass(before.alerts + last.alerts, last.outcome)
  }

  /** The service's processing of the same order `k` times in a row. */
  function ProcessTimes(order: Order, k: nat): Pass<Order> {
    Repeat(ProcessOrder, order, k)
  }

  /** `after` is `before` after `k` processing passes. */
  predicate BumpedTimes(before: Item, after: Item, k: nat)
    requires Processable(before)
  {
    && after.description == before.description
    && after.status == before.status
    && after.deliveryNotification ==
         if Delivered(before) then Some(Int32.Wrap(before.deliveryNotification.value + k))
         else before.deliveryNotification
  }

  /** Every delivered item has its alert among the alerts raised. */
  lemma {:induction false} DeliveredItemAlerted(orderId: string, items: seq<Item>, i: nat)
    requires i < |items| && Delivered(items[i])
    ensures AlertFor(orderId, items[i]) in DeliveredAlerts(orderId, items)
    decreases i
  {
    if i > 0 {
      DeliveredItemAlerted(orderId, items[1..], i - 1);
    }
  }

  /** One pass leaves every item processable again. */
  lemma ProcessedStaysProcessable(order: Order)
    requires FirstFault(ItemsOf(order)) == |ItemsOf(order)|
    ensures var after := ProcessOrder(order).outcome.value;
            FirstFault(ItemsOf(after)) == |ItemsOf(after)|
  {
  }

  /** `k` passes over a well-formed order succeed, keep the order's shape,
      raise each delivered item's counter by `k` (with 32-bit wrap-around)
      and leave every other item alone. */
  lemma {:induction false} RepeatedProcessingCounts(order: Order, k: nat)
    requires FirstFault(ItemsOf(order)) == |ItemsOf(order)|
    ensures var p := ProcessTimes(order, k);
            && p.outcome.Ok?
            && p.outcome.value.orderId == order.orderId
            && p.outcome.value.items.Some? == order.items.Some?
            && |ItemsOf(p.outcome.value)| == |ItemsOf(order)|
            && (forall i :: 0 <= i < |ItemsOf(order)| ==>
                  BumpedTimes(ItemsOf(order)[i], ItemsOf(p.outcome.value)[i], k))
            && FirstFault(ItemsOf(p.outcome.value)) == |ItemsOf(p.outcome.value)|
    decreases k
  {
    if k > 0 {
      RepeatedProcessingCounts(order, k - 1);
      var items := ItemsOf(order);
      var mid := ProcessTimes(order, k - 1).outcome.value;
      ProcessedStaysProcessable(mid);
      var last := ItemsOf(ProcessOrder(mid).outcome.value);
      forall i | 0 <= i < |items|
        ensures BumpedTimes(items[i], last[i], k)
      {
        BumpedTimesThenBumped(items[i], ItemsOf(mid)[i], last[i], k);
      }
    }
  }

  /** `k - 1` passes followed by one more are `k` passes, item by item. */
  lemma BumpedTimesThenBumped(before: Item, mid: Item, after: Item, k: nat)
    requires k > 0
    requires Processable(before) && BumpedTimes(before, mid, k - 1)
    requires Processable(mid) && Bumped(mid, after)
    ensures BumpedTimes(before, after, k)
  {
  }

  /** `k` passes over a well-formed order raise `k` alerts per delivered item. */
  lemma RepeatedProcessingAlerts(order: Order, k: nat)
    requires FirstFault(ItemsOf(order)) == |ItemsOf(order)|
    ensures |ProcessTimes(order, k).alerts| == k * |DeliveredAlerts(order.orderId, ItemsOf(order))|
  {
    RepeatedProcessingAlertSequence(order, k);
    RepeatedAlertsLength(DeliveredAlerts(order.orderId, ItemsOf(order)), k);
  }

  /** An alert as a later pass raises it: its counter `j` higher, with 32-bit
      wrap-around. An alert without a counter is never raised by a pass that
      succeeds, and is left as it is. */
  function Shift(alert: Alert, j: nat): Alert {
    if alert.count.Some? then alert.(count := Some(Int32.Wrap(alert.count.value + j))) else alert
  }

  function ShiftAlerts(alerts: seq<Alert>, j: nat): (r: seq<Alert>)
    ensures |r| == |alerts|
    ensures forall i :: 0 <= i < |alerts| ==> r[i] == Shift(alerts[i], j)
  {
    seq(|alerts|, i requires 0 <= i < |alerts| => Shift(alerts[i], j))
  }

  /** The alerts of `k` passes whose first pass raises `alerts`: pass `j`
      raises the same alerts with every counter `j` higher. */
  function RepeatedAlerts(alerts: seq<Alert>, k: nat): seq<Alert>
    decreases k
  {
    if k == 0 then [] else RepeatedAlerts(alerts, k - 1) + ShiftAlerts(alerts, k - 1)
  }

  /** `k` passes over a well-formed order raise, pass after pass, the alerts
      of its delivered items, the `j`-th pass carrying each counter `j`
      higher than the order had it. */
  lemma RepeatedProcessingAlertSequence(order: Order, k: nat)
    requires FirstFault(ItemsOf(order)) == |ItemsOf(order)|
    ensures ProcessTimes(order, k).alerts == RepeatedAlerts(DeliveredAlerts(order.orderId, ItemsOf(order)), k)
  {
    var alerts := DeliveredAlerts(order.orderId, ItemsOf(order));
    forall j | 0 <= j < k
      ensures Repeat(ProcessOrder, order, j).outcome.Ok?
      ensures ProcessOrder(Repeat(ProcessOrder, order, j).outcome.value).alerts == ShiftAlerts(alerts, j)
    {
      LaterPassAlerts(order, j);
    }
    RepeatAlertSequence(ProcessOrder, order, alerts, k);
  }

  /** A run of passes whose `j`-th pass raises `alerts` shifted by `j` raises
      the repeated alerts. */
  lemma {:induction false} RepeatAlertSequence(step: Order -> Pass<Order>, order: Order, alerts: seq<Alert>, k: nat)
    requires forall j :: 0 <= j < k ==>
               && Repeat(step, order, j).outcome.Ok?
               && step(Repeat(step, order, j).outcome.value).alerts == ShiftAlerts(alerts, j)
    ensures Repeat(step, order, k).alerts == RepeatedAlerts(alerts, k)
    decreases k
  {
    if k > 0 {
      RepeatAlertSequence(step, order, alerts, k - 1);
    }
  }

  /** The pass after `j` passes raises the first pass's alerts, each counter
      `j` higher. */
  lemma {:induction false} LaterPassAlerts(order: Order, j: nat)
    requires FirstFault(ItemsOf(order)) == |ItemsOf(order)|
    ensures ProcessTimes(order, j).outcome.Ok?
    ensures ProcessOrder(ProcessTimes(order, j).outcome.value).alerts
         == ShiftAlerts(DeliveredAlerts(order.orderId, ItemsOf(order)), j)
  {
    RepeatedProcessingCounts(order, j);
    var mid := ProcessTimes(order, j).outcome.value;
    DeliveredAlertsShifted(order.orderId, ItemsOf(order), ItemsOf(mid), j);
  }

  /** `k` passes of `m` alerts each make `k * m` alerts. */
  lemma {:induction false} RepeatedAlertsLength(alerts: seq<Alert>, k: nat)
    ensures |RepeatedAlerts(alerts, k)| == k * |alerts|
    decreases k
  {
    if k > 0 {
      RepeatedAlertsLength(alerts, k - 1);
      MultiplySucc(k - 1, |alerts|);
    }
  }

  /** For every delivered item and every pass `j < k`, the alerts of `k`
      passes include that item's alert carrying its counter plus `j`. */
  lemma {:induction false} RepeatedProcessingAlertsEachCount(order: Order, k: nat, i: nat, j: nat)
    requires FirstFault(ItemsOf(order)) == |ItemsOf(order)|
    requires i < |ItemsOf(order)| && Delivered(ItemsOf(order)[i])
    requires j < k
    ensures var item := ItemsOf(order)[i];
            AlertFor(order.orderId, item.(deliveryNotification := Some(Int32.Wrap(item.deliveryNotification.value + j))))
              in ProcessTimes(order, k).alerts
  {
    assert Processable(ItemsOf(order)[i]);
    DeliveredItemRepeated(order.orderId, ItemsOf(order), k, i, j);
    RepeatedProcessingAlertSequence(order, k);
  }

  lemma {:induction false} DeliveredItemRepeated(orderId: string, items: seq<Item>, k: nat, i: nat, j: nat)
    requires i < |items| && Processable(items[i]) && Delivered(items[i])
    requires j < k
    ensures var item := items[i];
            AlertFor(orderId, item.(deliveryNotification := Some(Int32.Wrap(item.deliveryNotification.value + j))))
              in RepeatedAlerts(DeliveredAlerts(orderId, items), k)
  {
    DeliveredItemAlerted(orderId, items, i);
    RepeatedAlertsContain(DeliveredAlerts(orderId, items), AlertFor(orderId, items[i]), k, j);
  }

  /** Pass `j` of `k` raises each first-pass alert with its counter `j`
      higher. */
  lemma {:induction false} RepeatedAlertsContain(alerts: seq<Alert>, alert: Alert, k: nat, j: nat)
    requires alert in alerts && j < k
    ensures Shift(alert, j) in RepeatedAlerts(alerts, k)
    decreases k
  {
    if j < k - 1 {
      RepeatedAlertsContain(alerts, alert, k - 1, j);
    } else {
      var n :| 0 <= n < |alerts| && alerts[n] == alert;
      assert ShiftAlerts(alerts, j)[n] == Shift(alert, j);
    }
  }

  /** Items that are `j` passes on from `xs` raise the alerts of `xs`, each
      counter `j` higher. */
  lemma {:induction false} DeliveredAlertsShifted(orderId: string, xs: seq<Item>, ys: seq<Item>, j: nat)
    requires |xs| == |ys|
    requires forall i :: 0 <= i < |xs| ==> Processable(xs[i]) && BumpedTimes(xs[i], ys[i], j)
    ensures DeliveredAlerts(orderId, ys) == ShiftAlerts(DeliveredAlerts(orderId, xs), j)
    decreases |xs|
  {
    if |xs| > 0 {
      DeliveredAlertsShifted(orderId, xs[1..], ys[1..], j);
      assert Delivered(ys[0]) == Delivered(xs[0]);
      var head := if Delivered(xs[0]) then [AlertFor(orderId, xs[0])] else [];
      assert ShiftAlerts(head, j) == if Delivered(ys[0]) then [AlertFor(orderId, ys[0])] else [];
      ShiftAlertsAppend(head, DeliveredAlerts(orderId, xs[1..]), j);
    }
  }

  lemma ShiftAlertsAppend(a: seq<Alert>, b: seq<Alert>, j: nat)
    ensures ShiftAlerts(a + b, j) == ShiftAlerts(a, j) + ShiftAlerts(b, j)
  {
  }

  /** A successful pass keeps every item's status. */
  lemma StatusesKept(order: Order)
    requires FirstFault(ItemsOf(order)) == |ItemsOf(order)|
    ensures var after := ItemsOf(ProcessOrder(order).outcome.value);
            && |after| == |ItemsOf(order)|
            && ProcessOrder(order).outcome.value.orderId == order.orderId
            && forall i :: 0 <= i < |after| ==> after[i].status == ItemsOf(order)[i].status
  {
  }

  lemma MultiplySucc(a: nat, m: nat)
    ensures m + a * m == (a + 1) * m
  {
  }

  /** A second pass over an order with a delivered item changes the order
      again and raises another alert. */
  lemma ProcessingNotIdempotent(order: Order, i: nat)
    requires FirstFault(ItemsOf(order)) == |ItemsOf(order)|
    requires i < |ItemsOf(order)| && Delivered(ItemsOf(order)[i])
    ensures var once := ProcessOrder(order).outcome.value;
            var twice := ProcessOrder(once);
            && twice.outcome.Ok?
            && twice.outcome.value != once
            && |twice.alerts| > 0
  {
    var once := ProcessOrder(order).outcome.value;
    ProcessedStaysProcessable(order);
    var item := ItemsOf(once)[i];
    assert Bumped(ItemsOf(order)[i], item);
    assert Delivered(item);
    var twice := ProcessOrder(once);
    assert Bumped(item, ItemsOf(twice.outcome.value)[i]);
    DeliveredItemAlerted(once.orderId, ItemsOf(once), i);
  }
}
