/**
  Concrete vectors: the three demonstration orders the service serves from
  its stand-in orders endpoint, and the inputs of the service's unit tests.
 */
module Fixture {
  import opened Model
  import opened OrdersService
  import opened Program

  function Line(description: string, status: string, count: int): Item {
    Item(description, Some(status), Some(count))
  }

  /** The demonstration batch, in fetch order. */
  function GetOrders(): seq<Order> {
    [ Order("o11", Some([Line("Wheelchair", "Delivered", 1), Line("Test Strips", "Not delivered", 0)])),
      Order("o99", Some([Line("Oxygen", "Not Delivered", 1), Line("CPAP", "Not delivered", 0)])),
      Order("o25", Some([Line("Syringe", "Delivered", 1), Line("Test Strips", "Delivered", 0)])) ]
  }

  /** The unit tests' vectors, as their assertions intend: "Delivered" is
      delivered, "Not Delivered" is not, and a counter of 1 becomes 2. The
      test builds its status JSON with the value unquoted, which does not
      parse; the vectors state the intended inputs. */
  lemma UnitTestVectors()
    ensures IsItemDelivered(Item("", Some("Delivered"), None)) == Ok(true)
    ensures IsItemDelivered(Item("", Some("Not Delivered"), None)) == Ok(false)
    ensures IncrementDeliveryNotification(Item("", None, Some(1))) == Ok(Item("", None, Some(2)))
  {
  }

  /** A two-item order that processes cleanly: the result is fixed by what
      processing promises for each item. */
  lemma ProcessPair(orderId: string, a: Item, b: Item, a': Item, b': Item)
    requires Processable(a) && Processable(b)
    requires Bumped(a, a') && Bumped(b, b')
    ensures ProcessOrder(Order(orderId, Some([a, b]))) ==
              Pass(DeliveredAlerts(orderId, [a]) + DeliveredAlerts(orderId, [b]),
                   Ok(Order(orderId, Some([a', b']))))
  {
    var items := [a, b];
    assert items[1..] == [b];
    assert FirstFault(items) == 2;
    var p := ProcessOrder(Order(orderId, Some(items)));
    var after := ItemsOf(p.outcome.value);
    assert Bumped(a, after[0]) && Bumped(b, after[1]);
    assert after == [a', b'];
  }

  /** Order o11: the delivered Wheelchair goes 1 -> 2 and raises one alert. */
  lemma DemonstrationOrder11()
    ensures ProcessOrder(GetOrders()[0]) ==
              Pass([Alert("o11", "Wheelchair", Some(1))],
                   Ok(Order("o11", Some([Line("Wheelchair", "Delivered", 2), Line("Test Strips", "Not delivered", 0)]))))
  {
    ProcessPair("o11", Line("Wheelchair", "Delivered", 1), Line("Test Strips", "Not delivered", 0),
                Line("Wheelchair", "Delivered", 2), Line("Test Strips", "Not delivered", 0));
  }

  /** Order o99: nothing is delivered, so nothing changes and no alert is raised. */
  lemma DemonstrationOrder99()
    ensures ProcessOrder(GetOrders()[1]) == Pass([], Ok(GetOrders()[1]))
  {
    ProcessPair("o99", Line("Oxygen", "Not Delivered", 1), Line("CPAP", "Not delivered", 0),
                Line("Oxygen", "Not Delivered", 1), Line("CPAP", "Not delivered", 0));
  }

  /** Order o25: both items are delivered; Syringe 1 -> 2, Test Strips 0 -> 1. */
  lemma DemonstrationOrder25()
    ensures ProcessOrder(GetOrders()[2]) ==
              Pass([Alert("o25", "Syringe", Some(1)), Alert("o25", "Test Strips", Some(0))],
                   Ok(Order("o25", Some([Line("Syringe", "Delivered", 2), Line("Test Strips", "Delivered", 1)]))))
  {
    ProcessPair("o25", Line("Syringe", "Delivered", 1), Line("Test Strips", "Delivered", 0),
                Line("Syringe", "Delivered", 2), Line("Test Strips", "Delivered", 1));
  }

  /** The job over the demonstration batch returns 0 after processing all
      three orders. */
  lemma DemonstrationReturnsZero()
    ensures Completed(ProcessOrder, GetOrders()) == 3
    ensures Drive(ProcessOrder, GetOrders()).exit == Returned(0)
  {
  }

  /** The demonstration batch as it should be published. */
  function PublishedOrders(): seq<Order> {
    [ Order("o11", Some([Line("Wheelchair", "Delivered", 2), Line("Test Strips", "Not delivered", 0)])),
      Order("o99", Some([Line("Oxygen", "Not Delivered", 1), Line("CPAP", "Not delivered", 0)])),
      Order("o25", Some([Line("Syringe", "Delivered", 2), Line("Test Strips", "Delivered", 1)])) ]
  }

  lemma DemonstrationProcessed()
    ensures |PublishedOrders()| == |GetOrders()|
    ensures forall i :: 0 <= i < |GetOrders()| ==> ProcessOrder(GetOrders()[i]).outcome == Ok(PublishedOrders()[i])
  {
    forall i | 0 <= i < |GetOrders()|
      ensures ProcessOrder(GetOrders()[i]).outcome == Ok(PublishedOrders()[i])
    {
      if i == 0 {
        DemonstrationOrder11();
      } else if i == 1 {
        DemonstrationOrder99();
      } else {
        DemonstrationOrder25();
      }
    }
  }

  /** It publishes all three orders with Wheelchair 1 -> 2, Syringe 1 -> 2
      and the third order's Test Strips 0 -> 1, every other counter kept. */
  lemma DemonstrationUpdates()
    ensures Updated(Drive(ProcessOrder, GetOrders()).trace) == PublishedOrders()
  {
    DemonstrationProcessed();
    CleanRunPublishes(ProcessOrder, GetOrders(), PublishedOrders());
  }

  /** It raises exactly three alerts, each carrying the counter before the
      increment. */
  lemma DemonstrationAlerts()
    ensures Alerts(Drive(ProcessOrder, GetOrders()).trace) ==
              [ Alert("o11", "Wheelchair", Some(1)),
                Alert("o25", "Syringe", Some(1)),
                Alert("o25", "Test Strips", Some(0)) ]
  {
    var batch := GetOrders();
    DemonstrationOrder11();
    DemonstrationOrder99();
    DemonstrationOrder25();
    DriveAlerts(ProcessOrder, batch);
    assert batch[1..][1..] == [batch[2]];
    assert batch[1..][1..][1..] == [];
  }
}
