/** The order details page: the fixed status workflow with its next and
    previous buttons and progress points, the paid toggle, the status
    badge, and the order's products picked out of the product list. */
module OrderDetails {
  import opened Base
  import opened Text
  import opened Entities

  /** The workflow, in order. */
  const Statuses: seq<string> := ["pending", "in progress", "completed", "shipped"]

  /** `statuses.indexOf(status)`: the position, or -1 when the status is
      not one of the four. */
  function IndexOfStatus(status: string): (k: int)
    ensures -1 <= k < |Statuses|
    ensures k >= 0 ==> Statuses[k] == status
    ensures k == -1 <==> status !in Statuses
  {
    if status == "pending" then 0
    else if status == "in progress" then 1
    else if status == "completed" then 2
    else if status == "shipped" then 3
    else -1
  }

  /** "Next Status" is shown for every status but the last. */
  predicate NextOffered(status: string)
  {
    status != "shipped"
  }

  /** "Previous Status" is shown for every status but the first. */
  predicate PreviousOffered(status: string)
  {
    status != "pending"
  }

  /** `statuses[indexOf + 1]`: the following status; an unknown status
      (index -1) moves to the first. */
  function NextStatus(status: string): (r: string)
    requires NextOffered(status)
    ensures r in Statuses
    ensures status in Statuses ==> IndexOfStatus(r) == IndexOfStatus(status) + 1
    ensures status !in Statuses ==> r == Statuses[0]
  {
    Statuses[IndexOfStatus(status) + 1]
  }

  /** `statuses[indexOf - 1]`: the preceding status; for an unknown status
      the index is -2, the lookup yields nothing and the update fails. */
  function PreviousStatus(status: string): (r: Option<string>)
    requires PreviousOffered(status)
    ensures r.Some? <==> status in Statuses
    ensures r.Some? ==> r.value in Statuses && IndexOfStatus(r.value) == IndexOfStatus(status) - 1
  {
    var k := IndexOfStatus(status) - 1;
    if 0 <= k then Some(Statuses[k]) else None
  }

  /** Next then previous comes back, and so does previous then next. */
  lemma NextPreviousRoundTrip(status: string)
    requires status in Statuses
    ensures NextOffered(status) ==> PreviousOffered(NextStatus(status))
                                    && PreviousStatus(NextStatus(status)) == Some(status)
    ensures PreviousOffered(status) ==> NextOffered(PreviousStatus(status).value)
                                        && NextStatus(PreviousStatus(status).value) == status
  {
    var k := IndexOfStatus(status);
    assert Statuses[k] == status;
    if NextOffered(status) {
      assert NextStatus(status) == Statuses[k + 1];
    }
  }

  /** The four progress points: point i is filled when the order's status
      is at position i or later. */
  function ProgressPoints(status: string): (r: seq<bool>)
    ensures |r| == |Statuses|
  {
    seq(|Statuses|, i requires 0 <= i < |Statuses| => IndexOfStatus(status) >= i)
  }

  function CountFilled(points: seq<bool>): nat
  {
    if points == [] then 0 else (if points[0] then 1 else 0) + CountFilled(points[1..])
  }

  /** Exactly index + 1 points are filled, none for an unknown status,
      and the filled points come first. */
  lemma FilledPointsMatchIndex(status: string)
    ensures CountFilled(ProgressPoints(status)) == IndexOfStatus(status) + 1
    ensures forall i, j :: 0 <= i < j < |Statuses| && ProgressPoints(status)[j] ==> ProgressPoints(status)[i]
  {
    var p := ProgressPoints(status);
    var k := IndexOfStatus(status);
    assert p[1..][1..][1..][1..] == [];
    assert CountFilled(p[1..][1..][1..]) == (if k >= 3 then 1 else 0);
    assert CountFilled(p[1..][1..]) == (if k >= 2 then 1 else 0) + (if k >= 3 then 1 else 0);
    assert CountFilled(p[1..]) == (if k >= 1 then 1 else 0) + CountFilled(p[1..][1..]);
    assert CountFilled(p) == (if k >= 0 then 1 else 0) + CountFilled(p[1..]);
  }

  /** getStatusBadgeStyles (and the list page's getStatusColor): the
      lower-cased status picks one of four colours, anything else grey. */
  function StatusTone(status: string): (t: Tone)
    ensures t == Grey <==> Lower(status) !in Statuses
    ensures Lower(status) in Statuses ==> t == [Yellow, Blue, Green, Purple][IndexOfStatus(Lower(status))]
  {
    match Lower(status)
    case "pending" => Yellow
    case "in progress" => Blue
    case "completed" => Green
    case "shipped" => Purple
    case _ => Grey
  }

  /** The four workflow statuses get four different colours, and casing
      does not matter. */
  lemma StatusTonesDistinct(status: string, other: string)
    requires status in Statuses && other in Statuses && status != other
    ensures StatusTone(status) != StatusTone(other)
    ensures StatusTone(status) != Grey
  {
    assert Lower(Statuses[0]) == Statuses[0];
    assert Lower(Statuses[1]) == Statuses[1];
    assert Lower(Statuses[2]) == Statuses[2];
    assert Lower(Statuses[3]) == Statuses[3];
  }

  /** The paid flag flips; nothing else of the order changes. */
  function WithPaymentToggled(order: Order): (r: Order)
    ensures r.paid != order.paid
    ensures r.(paid := order.paid) == order
  {
    order.(paid := !order.paid)
  }

  lemma PaymentToggleTwice(order: Order)
    ensures WithPaymentToggled(WithPaymentToggled(order)) == order
  {
  }

  /** `assignedEmployees || []`. */
  function AssignedEmployees(p: Product): (r: seq<string>)
    ensures p.assignedEmployees.None? ==> r == []
    ensures p.assignedEmployees.Some? ==> r == p.assignedEmployees.value
  {
    if p.assignedEmployees.Some? then p.assignedEmployees.value else []
  }

  class OrderDetailsPage {
    var order: Order
    var products: seq<Product>

    /** fetchOrderDetails: the order, and of all products those whose id
        the order lists. */
    constructor (fetched: Order, allProducts: seq<Product>)
      ensures order == fetched
      ensures products == SelectByIds(allProducts, fetched.productIds)
    {
      order := fetched;
      products := SelectByIds(allProducts, fetched.productIds);
    }

    /** "Next Status": the next status is sent lower-cased and, once the
        request succeeds, becomes the order's status. */
    method MoveNext(requestOk: bool) returns (sent: string)
      requires NextOffered(order.status)
      modifies this
      ensures sent == Lower(NextStatus(old(order.status)))
      ensures order == if requestOk then old(order).(status := NextStatus(old(order.status))) else old(order)
      ensures old(order.status) in Statuses ==> order.status in Statuses
      ensures products == old(products)
    {
      var newStatus := NextStatus(order.status);
      sent := Lower(newStatus);
      if requestOk {
        order := order.(status := newStatus);
      }
    }

    /** "Previous Status": as above; for an unknown status there is no
        previous one and nothing is sent or changed. */
    method MovePrevious(requestOk: bool) returns (sent: Option<string>)
      requires PreviousOffered(order.status)
      modifies this
      ensures sent.Some? <==> old(order.status) in Statuses
      ensures sent.Some? ==> sent.value == Lower(PreviousStatus(old(order.status)).value)
      ensures order == if requestOk && sent.Some? then old(order).(status := PreviousStatus(old(order.status)).value)
                       else old(order)
      ensures old(order.status) in Statuses ==> order.status in Statuses
      ensures products == old(products)
    {
      var newStatus := PreviousStatus(order.status);
      if newStatus.None? {
        return None;
      }
      sent := Some(Lower(newStatus.value));
      if requestOk {
        order := order.(status := newStatus.value);
      }
    }

    /** handlePaymentUpdate. */
    method HandlePaymentUpdate(requestOk: bool) returns (sent: bool)
      modifies this
      ensures sent == !old(order.paid)
      ensures order == if requestOk then WithPaymentToggled(old(order)) else old(order)
      ensures products == old(products)
    {
      sent := !order.paid;
      if requestOk {
        order := WithPaymentToggled(order);
      }
    }
  }
}
