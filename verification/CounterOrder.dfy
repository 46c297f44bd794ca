/** The counter's order aggregate and how item updates are applied to it. */
module CounterOrder {
  import opened Prelude

  datatype Status = Placed | InProcess | Fulfilled

  datatype LineItem = LineItem(id: nat, itemType: int, name: string, price: real, status: Status, isBarista: bool)

  /** What an order object holds at one moment. */
  datatype OrderData = OrderData(status: Status, lines: seq<LineItem>)

  predicate AllFulfilled(lines: seq<LineItem>) {
    forall i :: 0 <= i < |lines| ==> lines[i].status == Fulfilled
  }

  /** The first line of an item type. */
  function FirstOf(lines: seq<LineItem>, itemType: int): (r: Option<nat>)
    ensures r.Some? ==> r.value < |lines| && lines[r.value].itemType == itemType
                        && forall j :: 0 <= j < r.value ==> lines[j].itemType != itemType
    ensures r.None? ==> forall j :: 0 <= j < |lines| ==> lines[j].itemType != itemType
  {
    if lines == [] then None
    else if lines[0].itemType == itemType then Some(0)
    else
      match FirstOf(lines[1..], itemType)
      case None => None
      case Some(k) => Some(k + 1)
  }

  /** The order after one update, and whether the update was accepted. */
  function Deliver(o: OrderData, itemType: int): (r: (OrderData, bool)) {
    if o.lines == [] then (o, true)
    else
      match FirstOf(o.lines, itemType)
      case None => (o, false)
      case Some(k) =>
        var lines := o.lines[k := o.lines[k].(status := Fulfilled)];
        (OrderData(if AllFulfilled(lines) then Fulfilled else o.status, lines), true)
  }

  class Order {
    var status: Status
    var lineItems: seq<LineItem>

    constructor (data: OrderData)
      ensures Data() == data
    {
      status := data.status;
      lineItems := data.lines;
    }

    ghost function Data(): OrderData
      reads this
    {
      OrderData(status, lineItems)
    }

    /** Marks the first line of the item type; an unknown type is refused and changes nothing. */
    method Apply(itemType: int) returns (ok: bool)
      modifies this
      ensures (Data(), ok) == Deliver(old(Data()), itemType)
      ensures ok <==> old(lineItems) == []
                      || exists i :: 0 <= i < |old(lineItems)| && old(lineItems)[i].itemType == itemType
      ensures old(lineItems) == [] || !ok ==> Data() == old(Data())
      ensures ok && old(lineItems) != [] ==>
                exists k :: && 0 <= k < |old(lineItems)| && old(lineItems)[k].itemType == itemType
                            && (forall j :: 0 <= j < k ==> old(lineItems)[j].itemType != itemType)
                            && lineItems == old(lineItems)[k := old(lineItems)[k].(status := Fulfilled)]
      ensures status ==
              if old(lineItems) != [] && ok && forall i :: 0 <= i < |lineItems| ==> lineItems[i].status == Fulfilled
              then Fulfilled else old(status)
    {
      if |lineItems| == 0 {
        return true;
      }
      var found := FirstOf(lineItems, itemType);
      if found.None? {
        return false;
      }
      lineItems := lineItems[found.value := lineItems[found.value].(status := Fulfilled)];
      var all := CheckFulfilledStatus(lineItems);
      if all {
        status := Fulfilled;
      }
      ok := true;
    }
  }

  method CheckFulfilledStatus(lineItems: seq<LineItem>) returns (all: bool)
    ensures all <==> AllFulfilled(lineItems)
  {
    for i := 0 to |lineItems|
      invariant AllFulfilled(lineItems[..i])
    {
      if lineItems[i].status != Fulfilled {
        return false;
      }
    }
    all := true;
  }

  // ------------------------------------------------------------------------
  // Serial application

  /** One order object receiving updates one after another. */
  function Run(o: OrderData, updates: seq<int>): OrderData {
    if updates == [] then o
    else Deliver(Run(o, updates[..|updates| - 1]), updates[|updates| - 1]).0
  }

  function Delivered(updates: seq<int>): set<int> {
    set t | t in updates
  }

  /** A line as it ends up once a set of item types was delivered, in any order, any number of times. */
  function Marked(lines: seq<LineItem>, delivered: set<int>, i: nat): LineItem
    requires i < |lines|
  {
    if lines[i].itemType in delivered && FirstOf(lines, lines[i].itemType) == Some(i)
    then lines[i].(status := Fulfilled)
    else lines[i]
  }

  function MarkedLines(lines: seq<LineItem>, delivered: set<int>): seq<LineItem> {
    seq(|lines|, i requires 0 <= i < |lines| => Marked(lines, delivered, i))
  }

  predicate Touches(lines: seq<LineItem>, delivered: set<int>) {
    exists i :: 0 <= i < |lines| && lines[i].itemType in delivered
  }

  /** The final order as a function of the set of delivered item types alone. */
  function Outcome(o: OrderData, delivered: set<int>): OrderData {
    var lines := MarkedLines(o.lines, delivered);
    OrderData(if Touches(o.lines, delivered) && AllFulfilled(lines) then Fulfilled else o.status, lines)
  }

  lemma SameTypesSameFirst(a: seq<LineItem>, b: seq<LineItem>, itemType: int)
    requires |a| == |b| && forall i :: 0 <= i < |a| ==> a[i].itemType == b[i].itemType
    ensures FirstOf(a, itemType) == FirstOf(b, itemType)
  {
    var x, y := FirstOf(a, itemType), FirstOf(b, itemType);
    if x.Some? && y.Some? {
      assert !(x.value < y.value) && !(y.value < x.value);
    }
  }

  /** One more update moves the outcome from one set to the next. */
  lemma OneMore(o: OrderData, delivered: set<int>, itemType: int)
    ensures Deliver(Outcome(o, delivered), itemType).0 == Outcome(o, delivered + {itemType})
  {
    hide Touches;
    var before, after := MarkedLines(o.lines, delivered), MarkedLines(o.lines, delivered + {itemType});
    SameTypesSameFirst(before, o.lines, itemType);
    var found := FirstOf(o.lines, itemType);
    if found.None? {
      assert after == before;
      SameTouch(o.lines, delivered, itemType);
    } else {
      assert after == before[found.value := before[found.value].(status := Fulfilled)];
      TouchesNow(o.lines, delivered, itemType, found.value);
      StaysFulfilled(o, delivered, itemType);
    }
  }

  lemma SameTouch(lines: seq<LineItem>, delivered: set<int>, itemType: int)
    requires FirstOf(lines, itemType).None?
    ensures Touches(lines, delivered + {itemType}) == Touches(lines, delivered)
  {
    if Touches(lines, delivered) {
      var i :| 0 <= i < |lines| && lines[i].itemType in delivered;
      assert lines[i].itemType in delivered + {itemType};
    }
  }

  lemma TouchesNow(lines: seq<LineItem>, delivered: set<int>, itemType: int, i: nat)
    requires i < |lines| && lines[i].itemType == itemType
    ensures Touches(lines, delivered + {itemType})
  {
    assert lines[i].itemType in delivered + {itemType};
  }

  lemma StaysFulfilled(o: OrderData, delivered: set<int>, itemType: int)
    ensures AllFulfilled(MarkedLines(o.lines, delivered)) ==> AllFulfilled(MarkedLines(o.lines, delivered + {itemType}))
  {
    var before, after := MarkedLines(o.lines, delivered), MarkedLines(o.lines, delivered + {itemType});
    forall i | 0 <= i < |after| && AllFulfilled(before) ensures after[i].status == Fulfilled {
      assert before[i].status == Fulfilled;
    }
  }

  /** Serial application is confluent and idempotent: only the set of delivered types counts. */
  lemma {:induction false} RunIsOutcome(o: OrderData, updates: seq<int>)
    ensures Run(o, updates) == Outcome(o, Delivered(updates))
  {
    hide Deliver, Touches;
    if updates == [] {
      assert Delivered(updates) == {};
      assert MarkedLines(o.lines, {}) == o.lines;
      NothingTouched(o.lines);
    } else {
      var n := |updates| - 1;
      RunIsOutcome(o, updates[..n]);
      OneMore(o, Delivered(updates[..n]), updates[n]);
      assert Delivered(updates) == Delivered(updates[..n]) + {updates[n]} by {
        assert updates == updates[..n] + [updates[n]];
      }
    }
  }

  lemma NothingTouched(lines: seq<LineItem>)
    ensures !Touches(lines, {})
  {
  }

  lemma Confluent(o: OrderData, a: seq<int>, b: seq<int>)
    requires Delivered(a) == Delivered(b)
    ensures Run(o, a) == Run(o, b)
  {
    RunIsOutcome(o, a);
    RunIsOutcome(o, b);
  }

  predicate DistinctTypes(lines: seq<LineItem>) {
    forall i, j :: 0 <= i < j < |lines| ==> lines[i].itemType != lines[j].itemType
  }

  predicate Unstarted(o: OrderData) {
    o.status == InProcess && forall i :: 0 <= i < |o.lines| ==> o.lines[i].status == InProcess
  }

  /**
   * A new order ends Fulfilled exactly when it has lines, no item type twice, and every
   * line's type was delivered. Two lines of one type never both finish: updates reach the first only.
   */
  lemma FulfilledExactly(o: OrderData, updates: seq<int>)
    requires Unstarted(o)
    ensures Run(o, updates).status == Fulfilled <==>
            o.lines != [] && DistinctTypes(o.lines) && forall i :: 0 <= i < |o.lines| ==> o.lines[i].itemType in updates
  {
    hide Run;
    RunIsOutcome(o, updates);
    var delivered := Delivered(updates);
    var lines := MarkedLines(o.lines, delivered);
    if AllFulfilled(lines) {
      forall i | 0 <= i < |o.lines|
        ensures o.lines[i].itemType in updates && FirstOf(o.lines, o.lines[i].itemType) == Some(i) {
        assert lines[i].status == Fulfilled;
      }
    }
    if o.lines != [] && DistinctTypes(o.lines) && forall i :: 0 <= i < |o.lines| ==> o.lines[i].itemType in updates {
      forall i | 0 <= i < |lines| ensures lines[i].status == Fulfilled {
        assert o.lines[i].itemType in delivered;
      }
      assert o.lines[0].itemType in delivered;
    }
  }
}
