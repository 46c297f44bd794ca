/** Building an order from a request, storing it and publishing its events. */
module PlaceOrder {
  import opened Prelude
  import opened CounterOrder
  import opened OrderConcurrency
  import opened OrderRepository
  import opened Menu

  /** Requested item types for the two stations. */
  datatype Request = Request(barista: seq<int>, kitchen: seq<int>)

  datatype Event =
    | BaristaOrdered(orderId: nat, lineId: nat, itemType: int)
    | KitchenOrdered(orderId: nat, lineId: nat, itemType: int)

  datatype Draft = Draft(order: OrderData, events: seq<Event>)

  /** What the product service said for each station; none is an error. */
  datatype Products = Products(barista: Option<seq<MenuItem>>, kitchen: Option<seq<MenuItem>>)

  /** What became of one publish call; an unconfirmed event was sent although the call failed. */
  datatype Delivery = Confirmed | Refused | Unconfirmed

  // ------------------------------------------------------------------------
  // CreateOrderFrom

  /** The price of the first answer of the item type. */
  function PriceIn(answer: seq<MenuItem>, t: int): (r: Option<real>)
    ensures r.Some? <==> exists i :: 0 <= i < |answer| && answer[i].itemType == t
    ensures r.Some? ==> exists i :: 0 <= i < |answer| && answer[i] == MenuItem(t, r.value)
                          && forall j :: 0 <= j < i ==> answer[j].itemType != t
  {
    if answer == [] then None
    else if answer[0].itemType == t then
      assert answer[0] == MenuItem(t, answer[0].price);
      Some(answer[0].price)
    else
      var rest := PriceIn(answer[1..], t);
      assert rest.Some? ==> exists i :: 0 <= i < |answer| && answer[i] == MenuItem(t, rest.value)
                              && forall j :: 0 <= j < i ==> answer[j].itemType != t by {
        if rest.Some? {
          var i :| 0 <= i < |answer[1..]| && answer[1..][i] == MenuItem(t, rest.value)
            && forall j :: 0 <= j < i ==> answer[1..][j].itemType != t;
          assert answer[i + 1] == MenuItem(t, rest.value);
          assert forall j :: 1 <= j < i + 1 ==> answer[j] == answer[1..][j - 1];
        }
      }
      rest
  }

  /** One event per line, in order: for the station the line is for, with its order, line ID and item type. */
  predicate Announce(events: seq<Event>, orderId: nat, lines: seq<LineItem>) {
    && |events| == |lines|
    && forall i :: 0 <= i < |events| ==>
         && (events[i].BaristaOrdered? <==> lines[i].isBarista)
         && events[i].orderId == orderId && events[i].lineId == lines[i].id && events[i].itemType == lines[i].itemType
  }

  /** The lines of one station: one per requested item the service answered, IDs drawn from `drawn` on. */
  function LinesFor(items: seq<int>, answer: seq<MenuItem>, isBarista: bool, ids: nat -> nat, drawn: nat): seq<LineItem>
    requires Orderable(items)
  {
    if items == [] then []
    else
      var n := |items| - 1;
      var before := LinesFor(items[..n], answer, isBarista, ids, drawn);
      match PriceIn(answer, items[n])
      case None => before
      case Some(price) =>
        before + [LineItem(ids(drawn + |before|), items[n], ItemTypeName(items[n]), price, InProcess, isBarista)]
  }

  /** One station's lines; the service is asked only when the station has items. */
  function StationLines(items: seq<int>, answer: Option<seq<MenuItem>>, isBarista: bool, ids: nat -> nat, drawn: nat):
      Option<seq<LineItem>>
    requires Orderable(items)
  {
    if items == [] then Some([])
    else if answer.None? then None
    else Some(LinesFor(items, answer.value, isBarista, ids, drawn))
  }

  /** The draft's lines, or none when a service call that was made failed. */
  function OrderLines(request: Request, products: Products, ids: nat -> nat): Option<seq<LineItem>>
    requires Orderable(request.barista) && Orderable(request.kitchen)
  {
    match StationLines(request.barista, products.barista, true, ids, 0)
    case None => None
    case Some(first) =>
      match StationLines(request.kitchen, products.kitchen, false, ids, |first|)
      case None => None
      case Some(second) => Some(first + second)
  }

  method AddLines(orderId: nat, draft: Draft, items: seq<int>, answer: seq<MenuItem>, isBarista: bool, ids: nat -> nat)
    returns (grown: Draft)
    requires Orderable(items)
    requires Announce(draft.events, orderId, draft.order.lines)
    ensures var added := LinesFor(items, answer, isBarista, ids, |draft.order.lines|);
            grown.order == draft.order.(lines := draft.order.lines + added)
    ensures Announce(grown.events, orderId, grown.order.lines)
  {
    grown := draft;
    for i := 0 to |items|
      invariant grown.order
             == draft.order.(lines :=
                               draft.order.lines + LinesFor(items[..i], answer, isBarista, ids, |draft.order.lines|))
      invariant Announce(grown.events, orderId, grown.order.lines)
    {
      assert items[..i + 1][..i] == items[..i];
      var price := PriceIn(answer, items[i]);
      if price.Some? {
        var id := ids(|grown.order.lines|);
        var line := LineItem(id, items[i], ItemTypeName(items[i]), price.value, InProcess, isBarista);
        var event := if isBarista then BaristaOrdered(orderId, id, items[i]) else KitchenOrdered(orderId, id, items[i]);
        grown := Draft(grown.order.(lines := grown.order.lines + [line]), grown.events + [event]);
      }
    }
    assert items[..|items|] == items;
  }

  /**
   * Line i and event i agree on order, line, item type and station, whatever the product
   * service answered.
   */
  method CreateOrderFrom(request: Request, orderId: nat, products: Products, ids: nat -> nat) returns (r: Option<Draft>)
    requires Orderable(request.barista) && Orderable(request.kitchen)
    ensures r.Some? <==> OrderLines(request, products, ids).Some?
    ensures r.Some? ==> r.value.order == OrderData(InProcess, OrderLines(request, products, ids).value)
    ensures r.Some? ==> Announce(r.value.events, orderId, r.value.order.lines)
    ensures r.Some? ==>
              forall i :: 0 <= i < |r.value.events| ==>
                var event, line := r.value.events[i], r.value.order.lines[i];
                && (event.BaristaOrdered? <==> line.isBarista)
                && event.orderId == orderId && event.lineId == line.id && event.itemType == line.itemType
  {
    var draft := Draft(OrderData(InProcess, []), []);
    if |request.barista| > 0 {
      if products.barista.None? {
        return None;
      }
      draft := AddLines(orderId, draft, request.barista, products.barista.value, true, ids);
    }
    if |request.kitchen| > 0 {
      if products.kitchen.None? {
        return None;
      }
      draft := AddLines(orderId, draft, request.kitchen, products.kitchen.value, false, ids);
    }
    r := Some(draft);
  }

  // ------------------------------------------------------------------------
  // What the menu's answer makes of a request

  /** The requested items the menu answers for: all but type 10. */
  function OnMenu(items: seq<int>): (kept: seq<int>)
    requires Orderable(items)
    ensures forall i :: 0 <= i < |kept| ==> 0 <= kept[i] < 10
  {
    if items == [] then []
    else
      var n := |items| - 1;
      if items[n] == 10 then OnMenu(items[..n]) else OnMenu(items[..n]) + [items[n]]
  }

  /** A line of the item type at its menu price. */
  function MenuLine(t: int, isBarista: bool, id: nat): LineItem
    requires 0 <= t < 10
  {
    LineItem(id, t, ItemTypeName(t), EntryOf(t).price, InProcess, isBarista)
  }

  /** Name, type and price are those of one menu entry. */
  predicate OnTheMenu(line: LineItem) {
    line.name in ENTRIES && ENTRIES[line.name] == MenuItem(line.itemType, line.price)
  }

  lemma MenuLineFields(t: int, isBarista: bool, id: nat)
    requires 0 <= t < 10
    ensures MenuLine(t, isBarista, id).id == id && MenuLine(t, isBarista, id).status == InProcess
    ensures MenuLine(t, isBarista, id).itemType == t && MenuLine(t, isBarista, id).isBarista == isBarista
    ensures OnTheMenu(MenuLine(t, isBarista, id))
  {
  }

  lemma PriceFromMenu(items: seq<int>, t: int)
    requires Orderable(items) && t in items
    ensures PriceIn(Entries(items), t) == if t == 10 then None else Some(EntryOf(t).price)
  {
    var k :| 0 <= k < |items| && items[k] == t;
    assert Entries(items)[k] == EntryOf(t);
    var price := PriceIn(Entries(items), t);
    if price.Some? {
      var i :| 0 <= i < |items| && Entries(items)[i] == MenuItem(t, price.value);
      assert EntryOf(items[i]) == MenuItem(t, price.value);
    }
  }

  /** One line for each requested item of types 0 to 9, in order, at the menu price. */
  lemma {:induction false} LinesServe(part: seq<int>, items: seq<int>, isBarista: bool, ids: nat -> nat, drawn: nat)
    requires Orderable(items) && part <= items
    ensures var lines := LinesFor(part, Entries(items), isBarista, ids, drawn);
            && |lines| == |OnMenu(part)|
            && forall i :: 0 <= i < |lines| ==> lines[i] == MenuLine(OnMenu(part)[i], isBarista, ids(drawn + i))
  {
    hide PriceIn, Entries, EntryOf;
    if part != [] {
      var n := |part| - 1;
      LinesServe(part[..n], items, isBarista, ids, drawn);
      assert part[n] in items;
      PriceFromMenu(items, part[n]);
    }
  }

  lemma {:induction false} OnMenuAll(items: seq<int>)
    requires Orderable(items)
    ensures OnMenu(items) == items <==> 10 !in items
    ensures |OnMenu(items)| <= |items|
    ensures |OnMenu(items)| == |items| <==> 10 !in items
  {
    if items != [] {
      var n := |items| - 1;
      OnMenuAll(items[..n]);
      assert items[..n] + [items[n]] == items;
    }
  }

  /** The answers of a product service that is up. */
  ghost predicate FromMenu(request: Request, products: Products)
    requires Orderable(request.barista) && Orderable(request.kitchen)
  {
    && (request.barista != [] ==> products.barista == Answer(Split(TrimLeft(Joined(Names(request.barista))))))
    && (request.kitchen != [] ==> products.kitchen == Answer(Split(TrimLeft(Joined(Names(request.kitchen))))))
  }

  function Requested(request: Request): seq<int> {
    request.barista + request.kitchen
  }

  /** The lines are the items' menu lines, with IDs from `drawn` on. */
  ghost predicate Served(lines: seq<LineItem>, kept: seq<int>, isBarista: bool, ids: nat -> nat, drawn: nat)
    requires forall i :: 0 <= i < |kept| ==> 0 <= kept[i] < 10
  {
    |lines| == |kept| && forall i :: 0 <= i < |lines| ==> lines[i] == MenuLine(kept[i], isBarista, ids(drawn + i))
  }

  /** One station's lines when the service is up. */
  lemma StationServed(items: seq<int>, answer: Option<seq<MenuItem>>, isBarista: bool, ids: nat -> nat, drawn: nat)
    requires Orderable(items) && items != [] && answer == Answer(Split(TrimLeft(Joined(Names(items)))))
    ensures answer.Some?
    ensures Served(LinesFor(items, answer.value, isBarista, ids, drawn), OnMenu(items), isBarista, ids, drawn)
  {
    hide LinesFor, Answer, Split, TrimLeft, Joined, Names, MenuLine, OnMenu, Entries;
    EveryItemAnswered(items);
    LinesServe(items, items, isBarista, ids, drawn);
  }

  lemma StationAnswered(items: seq<int>, answer: Option<seq<MenuItem>>, isBarista: bool, ids: nat -> nat, drawn: nat)
    requires Orderable(items) && (items != [] ==> answer == Answer(Split(TrimLeft(Joined(Names(items))))))
    ensures StationLines(items, answer, isBarista, ids, drawn).Some?
    ensures Served(StationLines(items, answer, isBarista, ids, drawn).value, OnMenu(items), isBarista, ids, drawn)
  {
    hide LinesFor, Answer, Split, TrimLeft, Joined, Names, MenuLine;
    if items != [] {
      StationServed(items, answer, isBarista, ids, drawn);
    }
  }

  /**
   * Through the comma-joined request, the split, the menu and the price match, an order
   * gets one line per requested item of types 0 to 9, in order, at the menu price, and none
   * for type 10.
   */
  lemma EveryItemServed(request: Request, products: Products, ids: nat -> nat)
    requires Orderable(request.barista) && Orderable(request.kitchen) && FromMenu(request, products)
    ensures OrderLines(request, products, ids).Some?
    ensures var lines := OrderLines(request, products, ids).value;
            var b, k := OnMenu(request.barista), OnMenu(request.kitchen);
            && |lines| == |b| + |k|
            && Served(lines[..|b|], b, true, ids, 0) && Served(lines[|b|..], k, false, ids, |b|)
  {
    hide LinesFor, Answer, Split, TrimLeft, Joined, Names, OnMenu, OrderLines, StationLines, Served;
    StationAnswered(request.barista, products.barista, true, ids, 0);
    var first := StationLines(request.barista, products.barista, true, ids, 0).value;
    StationAnswered(request.kitchen, products.kitchen, false, ids, |first|);
    var second := StationLines(request.kitchen, products.kitchen, false, ids, |first|).value;
    LinesOfStations(request, products, ids, first, second);
    ServedSize(first, OnMenu(request.barista), true, ids, 0);
    ServedSize(second, OnMenu(request.kitchen), false, ids, |first|);
    assert (first + second)[..|first|] == first && (first + second)[|first|..] == second;
  }

  lemma LinesOfStations(request: Request, products: Products, ids: nat -> nat, first: seq<LineItem>,
      second: seq<LineItem>)
    requires Orderable(request.barista) && Orderable(request.kitchen)
    requires StationLines(request.barista, products.barista, true, ids, 0) == Some(first)
    requires StationLines(request.kitchen, products.kitchen, false, ids, |first|) == Some(second)
    ensures OrderLines(request, products, ids) == Some(first + second)
  {
  }

  lemma ServedSize(lines: seq<LineItem>, kept: seq<int>, isBarista: bool, ids: nat -> nat, drawn: nat)
    requires forall i :: 0 <= i < |kept| ==> 0 <= kept[i] < 10
    requires Served(lines, kept, isBarista, ids, drawn)
    ensures |lines| == |kept|
  {
  }

  lemma ServedAt(lines: seq<LineItem>, kept: seq<int>, isBarista: bool, ids: nat -> nat, drawn: nat, i: nat)
    requires forall i :: 0 <= i < |kept| ==> 0 <= kept[i] < 10
    requires Served(lines, kept, isBarista, ids, drawn) && i < |lines|
    ensures |lines| == |kept| && lines[i] == MenuLine(kept[i], isBarista, ids(drawn + i))
  {
    hide MenuLine;
  }

  /** None of the request is dropped exactly when it holds no item of type 10. */
  lemma NothingDroppedExactly(request: Request, products: Products, ids: nat -> nat)
    requires Orderable(request.barista) && Orderable(request.kitchen) && FromMenu(request, products)
    ensures OrderLines(request, products, ids).Some?
    ensures var lines := OrderLines(request, products, ids).value;
            && (|lines| == |Requested(request)| <==> 10 !in Requested(request))
            && (10 !in Requested(request) ==>
                  forall i :: 0 <= i < |lines| ==>
                    0 <= Requested(request)[i] < 10
                      && lines[i] == MenuLine(Requested(request)[i], i < |request.barista|, ids(i))
                      && lines[i].itemType == Requested(request)[i] && lines[i].id == ids(i)
                      && OnTheMenu(lines[i]) && (lines[i].isBarista <==> i < |request.barista|))
  {
    hide OrderLines, FromMenu, MenuLine, OnMenu, Served, OnTheMenu;
    EveryItemServed(request, products, ids);
    OnMenuAll(request.barista);
    OnMenuAll(request.kitchen);
    var lines := OrderLines(request, products, ids).value;
    var b, k, all := OnMenu(request.barista), OnMenu(request.kitchen), Requested(request);
    if 10 !in all {
      assert forall i :: 0 <= i < |request.barista| ==> all[i] == request.barista[i];
      assert forall i :: 0 <= i < |request.kitchen| ==> all[|request.barista| + i] == request.kitchen[i];
      assert 10 !in request.barista && 10 !in request.kitchen;
      forall i | 0 <= i < |lines|
        ensures 0 <= all[i] < 10 && lines[i] == MenuLine(all[i], i < |request.barista|, ids(i))
             && lines[i].itemType == all[i] && lines[i].id == ids(i)
             && OnTheMenu(lines[i]) && (lines[i].isBarista <==> i < |request.barista|)
      {
        ServedLine(lines, b, k, ids, i);
        MenuLineFields(all[i], i < |request.barista|, ids(i));
      }
    } else {
      assert 10 in request.barista || 10 in request.kitchen;
    }
  }

  lemma ServedLine(lines: seq<LineItem>, b: seq<int>, k: seq<int>, ids: nat -> nat, i: nat)
    requires (forall i :: 0 <= i < |b| ==> 0 <= b[i] < 10) && (forall i :: 0 <= i < |k| ==> 0 <= k[i] < 10)
    requires |lines| == |b| + |k| && i < |lines|
    requires Served(lines[..|b|], b, true, ids, 0) && Served(lines[|b|..], k, false, ids, |b|)
    ensures 0 <= (b + k)[i] < 10 && lines[i] == MenuLine((b + k)[i], i < |b|, ids(i))
  {
    hide Served, MenuLine;
    if i < |b| {
      ServedAt(lines[..|b|], b, true, ids, 0, i);
    } else {
      ServedAt(lines[|b|..], k, false, ids, |b|, i - |b|);
    }
  }

  /** From request to completion: with distinct types, an order is Fulfilled exactly when all were delivered. */
  lemma PlacedOrderCompletes(request: Request, products: Products, ids: nat -> nat, updates: seq<int>)
    requires Orderable(request.barista) && Orderable(request.kitchen) && FromMenu(request, products)
    requires 10 !in Requested(request) && Distinct(Requested(request))
    ensures OrderLines(request, products, ids).Some?
    ensures Run(OrderData(InProcess, OrderLines(request, products, ids).value), updates).status == Fulfilled <==>
            Requested(request) != [] && forall t :: t in Requested(request) ==> t in updates
  {
    hide OrderLines, Run, FromMenu;
    NothingDroppedExactly(request, products, ids);
    var lines := OrderLines(request, products, ids).value;
    var all := Requested(request);
    assert forall i :: 0 <= i < |lines| ==> lines[i].itemType == all[i];
    FulfilledExactly(OrderData(InProcess, lines), updates);
    if forall i :: 0 <= i < |lines| ==> lines[i].itemType in updates {
      forall t | t in all ensures t in updates {
        var i :| 0 <= i < |all| && all[i] == t;
        assert lines[i].itemType == t;
      }
    }
  }

  /** With fresh, distinct UUIDs the stored order is one the handlers' tables can start from. */
  lemma PlacedOrderStarts(db: Tables, order: nat, request: Request, products: Products, ids: nat -> nat)
    requires Orderable(request.barista) && Orderable(request.kitchen) && FromMenu(request, products)
    requires order !in db.orders && (forall i: nat :: ids(i) !in db.rows)
    requires forall i: nat, j: nat :: i != j ==> ids(i) != ids(j)
    ensures OrderLines(request, products, ids).Some?
    ensures Insertable(db, order, OrderData(InProcess, OrderLines(request, products, ids).value))
  {
    hide OrderLines, FromMenu, OnMenu, MenuLine, Served;
    EveryItemServed(request, products, ids);
    var lines := OrderLines(request, products, ids).value;
    forall i: nat | i < |lines| ensures lines[i].id == ids(i) && lines[i].status == InProcess {
      ServedLine(lines, OnMenu(request.barista), OnMenu(request.kitchen), ids, i);
      MenuLineFields((OnMenu(request.barista) + OnMenu(request.kitchen))[i], i < |OnMenu(request.barista)|, ids(i));
    }
  }

  /**
   * End to end, a request without type 10 makes the barista's items, in order, into
   * BaristaOrdered events and the kitchen's into KitchenOrdered ones.
   */
  lemma StationsAnnounced(request: Request, products: Products, ids: nat -> nat, orderId: nat, events: seq<Event>)
    requires Orderable(request.barista) && Orderable(request.kitchen) && FromMenu(request, products)
    requires OrderLines(request, products, ids).Some?
    requires Announce(events, orderId, OrderLines(request, products, ids).value) && 10 !in Requested(request)
    ensures |events| == |request.barista| + |request.kitchen|
    ensures forall i :: 0 <= i < |request.barista| ==> events[i] == BaristaOrdered(orderId, ids(i), request.barista[i])
    ensures forall i :: |request.barista| <= i < |events| ==>
              events[i] == KitchenOrdered(orderId, ids(i), request.kitchen[i - |request.barista|])
  {
    hide OrderLines, FromMenu;
    NothingDroppedExactly(request, products, ids);
  }

  // ------------------------------------------------------------------------
  // PlaceOrder

  datatype Queue = BaristaQueue | KitchenQueue
  datatype Message = Message(queue: Queue, event: Event)

  /** The messages carry the events in order, each on its station's queue. */
  predicate Carry(messages: seq<Message>, events: seq<Event>) {
    && |messages| == |events|
    && forall i :: 0 <= i < |messages| ==>
         messages[i].event == events[i] && (messages[i].queue == BaristaQueue <==> events[i].BaristaOrdered?)
  }

  /** What reaches the broker: events in order up to the first failed call, that one included if unconfirmed. */
  function Sent(events: seq<Event>, deliveries: nat -> Delivery, from: nat): seq<Event>
    requires from <= |events|
    decreases |events| - from
  {
    if from == |events| then []
    else
      match deliveries(from)
      case Confirmed => [events[from]] + Sent(events, deliveries, from + 1)
      case Refused => []
      case Unconfirmed => [events[from]]
  }

  /** A prefix of the events, confirmed but for the last; it ends early only at a failed call. */
  lemma {:induction false} SentIsPrefix(events: seq<Event>, deliveries: nat -> Delivery, from: nat)
    requires from <= |events|
    ensures var n := |Sent(events, deliveries, from)|;
            && from + n <= |events| && Sent(events, deliveries, from) == events[from..from + n]
            && (forall k :: from <= k < from + n - 1 ==> deliveries(k).Confirmed?)
            && (n > 0 ==> !deliveries(from + n - 1).Refused?)
            && (from + n < |events| ==>
              deliveries(from + n).Refused? || (n > 0 && deliveries(from + n - 1).Unconfirmed?))
    decreases |events| - from
  {
    if from < |events| && deliveries(from).Confirmed? {
      SentIsPrefix(events, deliveries, from + 1);
    }
  }

  /** One more confirmed event, or the end at a failed one. */
  lemma SentStep(events: seq<Event>, deliveries: nat -> Delivery, i: nat)
    requires i < |events| && Sent(events, deliveries, 0) == events[..i] + Sent(events, deliveries, i)
    ensures deliveries(i).Confirmed? ==>
              Sent(events, deliveries, 0) == events[..i + 1] + Sent(events, deliveries, i + 1)
    ensures deliveries(i).Refused? ==> Sent(events, deliveries, 0) == events[..i]
    ensures deliveries(i).Unconfirmed? ==> Sent(events, deliveries, 0) == events[..i + 1]
  {
    hide Sent;
    SentHead(events, deliveries, i);
    if deliveries(i).Confirmed? {
      Regroup(events, i, Sent(events, deliveries, i + 1));
    } else {
      Regroup(events, i, []);
    }
  }

  lemma Regroup(events: seq<Event>, i: nat, tail: seq<Event>)
    requires i < |events|
    ensures events[..i] + ([events[i]] + tail) == events[..i + 1] + tail
    ensures events[..i] + [] == events[..i] && [events[i]] + [] == [events[i]]
            && events[..i + 1] + [] == events[..i + 1]
  {
  }

  lemma SentHead(events: seq<Event>, deliveries: nat -> Delivery, i: nat)
    requires i < |events|
    ensures Sent(events, deliveries, i) ==
            match deliveries(i)
            case Confirmed => [events[i]] + Sent(events, deliveries, i + 1)
            case Refused => []
            case Unconfirmed => [events[i]]
  {
  }

  lemma CarryOneMore(messages: seq<Message>, events: seq<Event>, message: Message, event: Event)
    requires Carry(messages, events)
    requires message.event == event && (message.queue == BaristaQueue <==> event.BaristaOrdered?)
    ensures Carry(messages + [message], events + [event])
  {
  }

  lemma NothingToCarry()
    ensures Carry([], [])
  {
  }

  /** The tables with a new order in process. */
  function WithOrder(db: Tables, order: nat, lines: seq<LineItem>): Tables {
    Tables(db.orders[order := InProcess], Inserted(db.rows, order, lines))
  }

  class OrderService {
    const repo: OrderRepo
    var published: seq<Message>

    constructor (repo: OrderRepo)
      ensures this.repo == repo && published == []
    {
      this.repo := repo;
      published := [];
    }

    /** Publishes in order and stops at the first failure. */
    method PublishAll(events: seq<Event>, deliveries: nat -> Delivery) returns (ok: bool)
      modifies this
      ensures old(published) <= published
      ensures Carry(published[|old(published)|..], Sent(events, deliveries, 0))
      ensures ok <==> forall i :: 0 <= i < |events| ==> deliveries(i).Confirmed?
    {
      hide Sent, Carry;
      ghost var all := Sent(events, deliveries, 0);
      assert all == events[..0] + all;
      assert published[|published|..] == [] && events[..0] == [];
      NothingToCarry();
      for i := 0 to |events|
        invariant all == events[..i] + Sent(events, deliveries, i)
        invariant old(published) <= published && Carry(published[|old(published)|..], events[..i])
        invariant forall k :: 0 <= k < i ==> deliveries(k).Confirmed?
      {
        SentStep(events, deliveries, i);
        assert events[..i] + [events[i]] == events[..i + 1];
        if !deliveries(i).Refused? {
          ghost var sent := published[|old(published)|..];
          if events[i].BaristaOrdered? {
            published := published + [Message(BaristaQueue, events[i])];
          } else {
            published := published + [Message(KitchenQueue, events[i])];
          }
          assert published[|old(published)|..] == sent + [published[|published| - 1]];
          CarryOneMore(sent, events[..i], published[|published| - 1], events[i]);
        }
        if !deliveries(i).Confirmed? {
          return false;
        }
      }
      assert events[..|events|] == events && Sent(events, deliveries, |events|) == [] by {
        SentIsPrefix(events, deliveries, |events|);
      }
      assert all == events;
      ok := true;
    }

    /**
     * Nothing is published unless the order's commit was confirmed first; then what is
     * published is a prefix of the order's events, all of them on success, each on the queue
     * of its station.
     */
    method PlaceOrder(request: Request, orderId: nat, products: Products, ids: nat -> nat,
                      commit: CommitOutcome, deliveries: nat -> Delivery)
      returns (ok: bool)
      requires Orderable(request.barista) && Orderable(request.kitchen)
      modifies this, repo
      ensures var lines := OrderLines(request, products, ids);
              if lines.None? || commit.RolledBack? then !ok && repo.db == old(repo.db) && published == old(published)
              else if commit.Unconfirmed? then
                && !ok && published == old(published)
                && repo.db == WithOrder(old(repo.db), orderId, lines.value)
              else
                && repo.db == WithOrder(old(repo.db), orderId, lines.value)
                && old(published) <= published
                && (exists events: seq<Event> ::
                      && Announce(events, orderId, lines.value)
                      && Carry(published[|old(published)|..], Sent(events, deliveries, 0))
                      && (ok ==> Sent(events, deliveries, 0) == events))
                && (ok <==> forall i :: 0 <= i < |lines.value| ==> deliveries(i).Confirmed?)
      ensures ok && FromMenu(request, products) && 10 !in Requested(request) ==>
                var sent, n := published[|old(published)|..], |request.barista|;
                && |sent| == n + |request.kitchen|
                && (forall i :: 0 <= i < n ==>
                      sent[i] == Message(BaristaQueue, BaristaOrdered(orderId, ids(i), request.barista[i])))
                && (forall i :: n <= i < |sent| ==>
                      sent[i] == Message(KitchenQueue, KitchenOrdered(orderId, ids(i), request.kitchen[i - n])))
    {
      hide OrderLines, Sent, Inserted, FromMenu, Announce;
      var draft := CreateOrderFrom(request, orderId, products, ids);
      if draft.None? {
        return false;
      }
      var stored := repo.Create(orderId, draft.value.order, commit);
      if !stored {
        return false;
      }
      ok := PublishAll(draft.value.events, deliveries);
      SentIsPrefix(draft.value.events, deliveries, 0);
      if ok && FromMenu(request, products) && 10 !in Requested(request) {
        StationsAnnounced(request, products, ids, orderId, draft.value.events);
      }
    }
  }
}
