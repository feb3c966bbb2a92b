/**
  The batch job: fetch the orders once, then for each order in fetch order
  process it and publish the processed order. The fetch is given as the
  batch; alerts and updates are recorded as events of a trace. A fault raised
  while processing an order escapes the loop, so the job stops there without
  publishing that order or touching the ones after it.

  The entry point reaches the order service through its interface, so the
  driver takes the processing step as a parameter; the job itself is
  `Drive(OrdersService.ProcessOrder, batch)`.
 */
module Program {
  import opened Model
  import opened OrdersService

  datatype Event =
    | Process(order: Order)   // the driver hands a fetched order to the processor
    | Alerted(alert: Alert)   // the processor raises a delivery alert
    | Update(order: Order)    // the driver publishes a processed order

  /** How the job ends: it returns an exit code, or a fault escapes it. */
  datatype Exit = Returned(code: int) | Threw(fault: Fault)

  datatype Run = Run(trace: seq<Event>, exit: Exit)

  function AlertEvents(alerts: seq<Alert>): (r: seq<Event>)
    ensures |r| == |alerts|
    ensures forall i :: 0 <= i < |alerts| ==> r[i] == Alerted(alerts[i])
  {
    seq(|alerts|, i requires 0 <= i < |alerts| => Alerted(alerts[i]))
  }

  /** The events one order contributes before it is published. */
  function Opening(order: Order, p: Pass<Order>): seq<Event> {
    [Process(order)] + AlertEvents(p.alerts)
  }

  /** A processing step: the alerts it raises and the processed order or the
      fault that stopped it. */
  type Processor = Order -> Pass<Order>

  /** Number of leading orders of the batch that process without a fault. */
  function Completed(process: Processor, batch: seq<Order>): (n: nat)
    ensures n <= |batch|
    ensures forall i :: 0 <= i < n ==> process(batch[i]).outcome.Ok?
    ensures n < |batch| ==> process(batch[n]).outcome.Err?
  {
    if |batch| == 0 || process(batch[0]).outcome.Err? then 0
    else
      var n := Completed(process, batch[1..]);
      1 + n
  }

  /** The job as a fold over the batch. */
  function Drive(process: Processor, batch: seq<Order>): (r: Run)
    ensures r.exit.Returned? ==> r.exit.code == 0
    ensures r.exit.Returned? <==> Completed(process, batch) == |batch|
    ensures |batch| == 0 ==> r == Run([], Returned(0))
  {
    if |batch| == 0 then
      Run([], Returned(0))
    else
      var p := process(batch[0]);
      if p.outcome.Err? then
        Run(Opening(batch[0], p), Threw(p.outcome.fault))
      else
        var rest := Drive(process, batch[1..]);
        Run(Opening(batch[0], p) + [Update(p.outcome.value)] + rest.trace, rest.exit)
  }

  /** How the job ends: it returns 0 when every order processed without a
      fault, and otherwise the fault of the first faulting order escapes. */
  lemma {:induction false} DriveExit(process: Processor, batch: seq<Order>)
    ensures Drive(process, batch).exit ==
              if Completed(process, batch) == |batch| then Returned(0)
              else Threw(process(batch[Completed(process, batch)]).outcome.fault)
    decreases |batch|
  {
    if |batch| > 0 && process(batch[0]).outcome.Ok? {
      DriveExit(process, batch[1..]);
      if Completed(process, batch) < |batch| {
        assert batch[1..][Completed(process, batch[1..])] == batch[Completed(process, batch)];
      }
    }
  }

  // ---------------------------------------------------------------------------
  // Views of a trace

  /** The orders handed to the processor, in trace order. */
  function Processed(trace: seq<Event>): seq<Order> {
    if |trace| == 0 then []
    else (if trace[0].Process? then [trace[0].order] else []) + Processed(trace[1..])
  }

  /** The orders published, in trace order. */
  function Updated(trace: seq<Event>): seq<Order> {
    if |trace| == 0 then []
    else (if trace[0].Update? then [trace[0].order] else []) + Updated(trace[1..])
  }

  /** The alerts raised, in trace order. */
  function Alerts(trace: seq<Event>): seq<Alert> {
    if |trace| == 0 then []
    else (if trace[0].Alerted? then [trace[0].alert] else []) + Alerts(trace[1..])
  }

  /** Where the protocol stands: no order open, or an order handed over whose
      alerts in `pending` have not all been raised yet. */
  datatype Phase = Idle | Open(order: Order, pending: seq<Alert>)

  /** Reads a trace against the job's protocol for the given processing step:
      an order is handed over only while none is open; then exactly the
      alerts processing it raises follow, one by one and in order; then the
      publish of exactly the order processing produced closes it. Returns
      where the protocol stands at the end, or `None` if the trace breaks it. */
  function Replay(process: Processor, trace: seq<Event>, phase: Phase): Option<Phase> {
    if |trace| == 0 then Some(phase)
    else
      match trace[0]
      case Process(o) =>
        if phase.Idle? then Replay(process, trace[1..], Open(o, process(o).alerts)) else None
      case Alerted(a) =>
        if phase.Open? && |phase.pending| > 0 && phase.pending[0] == a
        then Replay(process, trace[1..], Open(phase.order, phase.pending[1..]))
        else None
      case Update(u) =>
        if phase.Open? && phase.pending == [] && process(phase.order).outcome == Ok(u)
        then Replay(process, trace[1..], Idle)
        else None
  }

  lemma {:induction false} ProcessedAppend(a: seq<Event>, b: seq<Event>)
    ensures Processed(a + b) == Processed(a) + Processed(b)
    decreases |a|
  {
    if |a| == 0 {
      assert a + b == b;
    } else {
      assert (a + b)[0] == a[0];
      assert (a + b)[1..] == a[1..] + b;
      ProcessedAppend(a[1..], b);
    }
  }

  lemma {:induction false} UpdatedAppend(a: seq<Event>, b: seq<Event>)
    ensures Updated(a + b) == Updated(a) + Updated(b)
    decreases |a|
  {
    if |a| == 0 {
      assert a + b == b;
    } else {
      assert (a + b)[0] == a[0];
      assert (a + b)[1..] == a[1..] + b;
      UpdatedAppend(a[1..], b);
    }
  }

  lemma {:induction false} AlertsAppend(a: seq<Event>, b: seq<Event>)
    ensures Alerts(a + b) == Alerts(a) + Alerts(b)
    decreases |a|
  {
    if |a| == 0 {
      assert a + b == b;
    } else {
      assert (a + b)[0] == a[0];
      assert (a + b)[1..] == a[1..] + b;
      AlertsAppend(a[1..], b);
    }
  }

  lemma ViewsAppend(a: seq<Event>, b: seq<Event>)
    ensures Processed(a + b) == Processed(a) + Processed(b)
    ensures Updated(a + b) == Updated(a) + Updated(b)
    ensures Alerts(a + b) == Alerts(a) + Alerts(b)
  {
    ProcessedAppend(a, b);
    UpdatedAppend(a, b);
    AlertsAppend(a, b);
  }

  lemma {:induction false} ReplayAppend(process: Processor, a: seq<Event>, b: seq<Event>, phase: Phase)
    ensures Replay(process, a + b, phase) ==
              match Replay(process, a, phase)
              case None => None
              case Some(mid) => Replay(process, b, mid)
    decreases |a|
  {
    if |a| == 0 {
      assert a + b == b;
    } else {
      assert (a + b)[0] == a[0];
      assert (a + b)[1..] == a[1..] + b;
      match a[0]
      case Process(o) => ReplayAppend(process, a[1..], b, Open(o, process(o).alerts));
      case Alerted(_) =>
        if phase.Open? && |phase.pending| > 0 {
          ReplayAppend(process, a[1..], b, Open(phase.order, phase.pending[1..]));
        }
      case Update(_) => ReplayAppend(process, a[1..], b, Idle);
    }
  }

  lemma {:induction false} AlertEventsViews(alerts: seq<Alert>)
    ensures Processed(AlertEvents(alerts)) == []
    ensures Updated(AlertEvents(alerts)) == []
    ensures Alerts(AlertEvents(alerts)) == alerts
    decreases |alerts|
  {
    if |alerts| > 0 {
      assert AlertEvents(alerts)[1..] == AlertEvents(alerts[1..]);
      AlertEventsViews(alerts[1..]);
    }
  }

  /** Raising exactly the pending alerts, in order, clears them. */
  lemma {:induction false} AlertEventsReplay(process: Processor, order: Order, alerts: seq<Alert>)
    ensures Replay(process, AlertEvents(alerts), Open(order, alerts)) == Some(Open(order, []))
    decreases |alerts|
  {
    if |alerts| > 0 {
      assert AlertEvents(alerts)[1..] == AlertEvents(alerts[1..]);
      AlertEventsReplay(process, order, alerts[1..]);
    }
  }

  /** What one order contributes, seen through each view. */
  lemma OpeningViews(order: Order, p: Pass<Order>)
    ensures Processed(Opening(order, p)) == [order]
    ensures Updated(Opening(order, p)) == []
    ensures Alerts(Opening(order, p)) == p.alerts
  {
    var events := AlertEvents(p.alerts);
    AlertEventsViews(p.alerts);
    ViewsAppend([Process(order)], events);
  }

  /** Handing over an order and raising what processing it raises leaves it
      open with nothing pending. */
  lemma OpeningReplay(process: Processor, order: Order)
    ensures Replay(process, Opening(order, process(order)), Idle) == Some(Open(order, []))
  {
    var events := AlertEvents(process(order).alerts);
    AlertEventsReplay(process, order, process(order).alerts);
    assert ([Process(order)] + events)[1..] == events;
  }

  /** A published order's events followed by the rest of a trace, through
      each view. */
  lemma SegmentViews(order: Order, p: Pass<Order>, done: Order, rest: seq<Event>)
    ensures var t := Opening(order, p) + [Update(done)] + rest;
            && Processed(t) == [order] + Processed(rest)
            && Updated(t) == [done] + Updated(rest)
            && Alerts(t) == p.alerts + Alerts(rest)
  {
    var head := Opening(order, p);
    OpeningViews(order, p);
    SegmentProcessed(head, [order], done, rest);
    SegmentUpdated(head, done, rest);
    SegmentAlerts(head, p.alerts, done, rest);
  }

  /** A published order's events put the protocol back where it started. */
  lemma SegmentReplay(process: Processor, order: Order, rest: seq<Event>)
    requires process(order).outcome.Ok?
    ensures var p := process(order);
            Replay(process, Opening(order, p) + [Update(p.outcome.value)] + rest, Idle) == Replay(process, rest, Idle)
  {
    var p := process(order);
    var head := Opening(order, p);
    OpeningReplay(process, order);
    ReplayAppend(process, head, [Update(p.outcome.value)], Idle);
    ReplayAppend(process, head + [Update(p.outcome.value)], rest, Idle);
  }

  lemma SegmentProcessed(head: seq<Event>, orders: seq<Order>, done: Order, rest: seq<Event>)
    requires Processed(head) == orders
    ensures Processed(head + [Update(done)] + rest) == orders + Processed(rest)
  {
    ProcessedAppend(head, [Update(done)]);
    ProcessedAppend(head + [Update(done)], rest);
    assert Processed([Update(done)]) == [];
  }

  lemma SegmentUpdated(head: seq<Event>, done: Order, rest: seq<Event>)
    requires Updated(head) == []
    ensures Updated(head + [Update(done)] + rest) == [done] + Updated(rest)
  {
    UpdatedAppend(head, [Update(done)]);
    UpdatedAppend(head + [Update(done)], rest);
    assert Updated([Update(done)]) == [done];
  }

  lemma SegmentAlerts(head: seq<Event>, alerts: seq<Alert>, done: Order, rest: seq<Event>)
    requires Alerts(head) == alerts
    ensures Alerts(head + [Update(done)] + rest) == alerts + Alerts(rest)
  {
    AlertsAppend(head, [Update(done)]);
    AlertsAppend(head + [Update(done)], rest);
    assert Alerts([Update(done)]) == [];
  }

  /** The driver hands over exactly the fetched orders, in fetch order, up to
      and including the first one that faults. */
  lemma {:induction false} DriveProcessesInFetchOrder(process: Processor, batch: seq<Order>)
    ensures var r := Drive(process, batch);
            var handed := Processed(r.trace);
            && handed <= batch
            && |handed| == if r.exit.Returned? then |batch| else Completed(process, batch) + 1
    decreases |batch|
  {
    if |batch| > 0 {
      var p := process(batch[0]);
      OpeningViews(batch[0], p);
      if p.outcome.Ok? {
        var rest := Drive(process, batch[1..]);
        DriveProcessesInFetchOrder(process, batch[1..]);
        SegmentViews(batch[0], p, p.outcome.value, rest.trace);
        assert batch == [batch[0]] + batch[1..];
      }
    }
  }

  /** One publish per order that processed, in fetch order, each carrying
      exactly what processing that fetched order produced. When the job
      returns, that is one publish per fetched order. */
  lemma {:induction false} DriveUpdatesProcessedOrders(process: Processor, batch: seq<Order>)
    ensures var ups := Updated(Drive(process, batch).trace);
            && |ups| == Completed(process, batch)
            && forall i :: 0 <= i < |ups| ==> ups[i] == process(batch[i]).outcome.value
    decreases |batch|
  {
    if |batch| > 0 {
      var p := process(batch[0]);
      OpeningViews(batch[0], p);
      if p.outcome.Ok? {
        var rest := Drive(process, batch[1..]);
        DriveUpdatesProcessedOrders(process, batch[1..]);
        SegmentViews(batch[0], p, p.outcome.value, rest.trace);
        var ups := Updated(Drive(process, batch).trace);
        assert ups == [p.outcome.value] + Updated(rest.trace);
        forall i | 0 < i < |ups|
          ensures ups[i] == process(batch[i]).outcome.value
        {
          assert batch[1..][i - 1] == batch[i];
        }
      }
    }
  }

  /** The trace follows the protocol: each order is handed over, exactly the
      alerts processing it raises follow in order, and exactly its processed
      form is published before the next order is handed over. Only a
      faulting order is left open, after all its alerts were raised. */
  lemma {:induction false} DriveFollowsProtocol(process: Processor, batch: seq<Order>)
    ensures var r := Drive(process, batch);
            Replay(process, r.trace, Idle) ==
              if r.exit.Returned? then Some(Idle) else Some(Open(batch[Completed(process, batch)], []))
    decreases |batch|
  {
    if |batch| > 0 {
      var p := process(batch[0]);
      OpeningReplay(process, batch[0]);
      if p.outcome.Ok? {
        var rest := Drive(process, batch[1..]);
        DriveFollowsProtocol(process, batch[1..]);
        SegmentReplay(process, batch[0], rest.trace);
        if rest.exit.Threw? {
          assert batch[1..][Completed(process, batch[1..])] == batch[Completed(process, batch)];
        }
      }
    }
  }

  /** The alerts of the run are the alerts of its orders, in fetch order. */
  lemma {:induction false} DriveAlerts(process: Processor, batch: seq<Order>)
    ensures Alerts(Drive(process, batch).trace) == BatchAlerts(process, batch)
    decreases |batch|
  {
    if |batch| > 0 {
      var p := process(batch[0]);
      OpeningViews(batch[0], p);
      if p.outcome.Ok? {
        var rest := Drive(process, batch[1..]);
        DriveAlerts(process, batch[1..]);
        SegmentViews(batch[0], p, p.outcome.value, rest.trace);
      }
    }
  }

  /** The alerts each order raises, concatenated in fetch order and stopping
      after the first order that faults. */
  function BatchAlerts(process: Processor, batch: seq<Order>): seq<Alert> {
    if |batch| == 0 then []
    else
      var p := process(batch[0]);
      p.alerts + if p.outcome.Err? then [] else BatchAlerts(process, batch[1..])
  }

  /** A batch whose every order processes to a known result is published as
      exactly those results, in fetch order, and the job returns 0. */
  lemma CleanRunPublishes(process: Processor, batch: seq<Order>, expected: seq<Order>)
    requires |expected| == |batch|
    requires forall i :: 0 <= i < |batch| ==> process(batch[i]).outcome == Ok(expected[i])
    ensures Drive(process, batch).exit == Returned(0)
    ensures Updated(Drive(process, batch).trace) == expected
  {
    assert Completed(process, batch) == |batch|;
    DriveUpdatesProcessedOrders(process, batch);
  }

  /** With the order service as the processing step, the job returns 0
      exactly when every fetched order is well formed: each item has a status
      and each delivered item a counter that fits in 32 bits. */
  lemma JobReturnsIffWellFormed(batch: seq<Order>)
    ensures Drive(ProcessOrder, batch).exit == Returned(0) <==>
              forall i :: 0 <= i < |batch| ==> FirstFault(ItemsOf(batch[i])) == |ItemsOf(batch[i])|
  {
  }

  /** One step of the fold, for a batch with an order left. */
  lemma DriveStep(process: Processor, rest: seq<Order>)
    requires |rest| > 0
    ensures var p := process(rest[0]);
            Drive(process, rest) ==
              if p.outcome.Err? then Run(Opening(rest[0], p), Threw(p.outcome.fault))
              else Run(Opening(rest[0], p) + [Update(p.outcome.value)] + Drive(process, rest[1..]).trace,
                       Drive(process, rest[1..]).exit)
  {
  }

  /** The loop of the job's entry point: walks the batch once, in order,
      processing and then publishing each order. */
  method RunBatch(process: Processor, batch: seq<Order>) returns (trace: seq<Event>, exit: Exit)
    ensures Run(trace, exit) == Drive(process, batch)
  {
    trace := [];
    var i := 0;
    while i < |batch|
      invariant 0 <= i <= |batch|
      invariant Drive(process, batch) == Run(trace + Drive(process, batch[i..]).trace, Drive(process, batch[i..]).exit)
    {
      var p := process(batch[i]);
      DriveStep(process, batch[i..]);
      assert batch[i..][0] == batch[i];
      assert batch[i..][1..] == batch[i + 1..];
      var opening := Opening(batch[i], p);
      if p.outcome.Err? {
        return trace + opening, Threw(p.outcome.fault);
      }
      var rest := Drive(process, batch[i + 1..]);
      assert trace + (opening + [Update(p.outcome.value)] + rest.trace)
          == (trace + opening + [Update(p.outcome.value)]) + rest.trace;
      trace := trace + opening + [Update(p.outcome.value)];
      i := i + 1;
    }
    assert batch[i..] == [];
    assert trace + [] == trace;
    exit := Returned(0);
  }
}
