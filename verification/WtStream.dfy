/** The adapter between a WebTransport stream and a tunnel: a read pump that buffers what
    arrives before a handler is registered. First as a state machine, then as the class. */
module WtStream {
  import opened Bytes
  import opened Tunnel
  import opened TunnelInv

  const MAX_PENDING_BYTES: nat := 4 * 1024 * 1024
  const FIN: Item := Item([], true)

  datatype Call = OnData(data: bytes, fin: bool) | OnClose | OnError

  /** What a handler does to the adapter from inside a call: a tunnel that ends unregisters
      itself, and its owner may close the adapter. */
  datatype Reaction = Stay | Quit | Shut

  /** The adapter. History: everything the reader has delivered to the pump, everything
      passed on to a handler, the calls made on the handler registered last, whether the
      buffer overflowed, and how many registrations there were. */
  datatype Wt = Wt(
    pending: seq<Item>, pendingBytes: nat, closed: bool, pumping: bool, registered: bool,
    arrivals: seq<Item>, given: seq<Item>, calls: seq<Call>, overflowed: bool, registrations: nat)

  const START: Wt := Wt([], 0, false, true, false, [], [], [], false, 0)

  datatype WtEvent =
    | PumpRead(value: bytes, r: Reaction)
    | PumpDone(r: Reaction, r2: Reaction)
    | PumpFails(r: Reaction)
    | Register(script: nat -> Reaction)
    | Unregister
    | Close

  function DoClose(w: Wt): Wt {
    if w.closed then w
    else w.(closed := true, registered := false, calls := if w.registered then w.calls + [OnClose] else w.calls)
  }

  function React(w: Wt, r: Reaction): Wt {
    match r
    case Stay => w
    case Quit => w.(registered := false)
    case Shut => DoClose(w)
  }

  function Give(w: Wt, item: Item): Wt {
    w.(given := w.given + [item], calls := w.calls + [OnData(item.data, item.fin)])
  }

  function CallClose(w: Wt): Wt {
    w.(calls := w.calls + [OnClose])
  }

  /** The pump leaves its loop once the adapter is closed. */
  function PumpGoesOn(w: Wt): Wt {
    w.(pumping := !w.closed)
  }

  function PumpEnds(w: Wt): Wt {
    DoClose(w).(pumping := false)
  }

  function DoRead(w: Wt, value: bytes, r: Reaction): Wt {
    if value == [] then PumpGoesOn(w)
    else
      var item := Item(value, false);
      var w1 := w.(arrivals := w.arrivals + [item]);
      if w.registered then PumpGoesOn(React(Give(w1, item), r))
      else if w.pendingBytes + |value| > MAX_PENDING_BYTES then
        PumpEnds(w1.(pending := [], pendingBytes := 0, overflowed := true))
      else PumpGoesOn(w1.(pending := w.pending + [item], pendingBytes := w.pendingBytes + |value|))
  }

  function DoDone(w: Wt, r: Reaction, r2: Reaction): Wt {
    var w1 := w.(arrivals := w.arrivals + [FIN]);
    PumpEnds(if w.registered then React(CallClose(React(Give(w1, FIN), r)), r2) else w1.(pending := w.pending + [FIN]))
  }

  function DoFail(w: Wt, r: Reaction): Wt {
    PumpEnds(if !w.closed && w.registered then React(w.(calls := w.calls + [OnError]), r) else w)
  }

  /** One buffered item: FIN is followed by a close call; the handler may react. */
  function GiveBuffered(w: Wt, item: Item, r: Reaction): Wt {
    var w1 := Give(w, item);
    React(if item.fin then CallClose(w1) else w1, r)
  }

  /** Hand over the buffered items one by one; the handler reacts to number k by script(k). */
  function Replay(w: Wt, items: seq<Item>, k: nat, script: nat -> Reaction): Wt
    decreases |items|
  {
    if items == [] then w else Replay(GiveBuffered(w, items[0], script(k)), items[1..], k + 1, script)
  }

  function DoRegister(w: Wt, script: nat -> Reaction): Wt {
    Replay(w.(registered := true, calls := [], pending := [], pendingBytes := 0, registrations := w.registrations + 1),
           w.pending, 0, script)
  }

  predicate WtEnabled(w: Wt, e: WtEvent) {
    e.PumpRead? || e.PumpDone? || e.PumpFails? ==> w.pumping
  }

  function WtStep(w: Wt, e: WtEvent): Wt {
    match e
    case PumpRead(value, r) => DoRead(w, value, r)
    case PumpDone(r, r2) => DoDone(w, r, r2)
    case PumpFails(r) => DoFail(w, r)
    case Register(script) => DoRegister(w, script)
    case Unregister => w.(registered := false)
    case Close => DoClose(w)
  }

  // Invariant.

  /** Items as the reader produces them: never empty, except one FIN at the end. */
  predicate Ordered(items: seq<Item>) {
    && FinsLast(items)
    && forall i :: 0 <= i < |items| && !items[i].fin ==> items[i].data != []
  }

  function ItemsOf(calls: seq<Call>): seq<Item> {
    if calls == [] then []
    else
      var last := calls[|calls| - 1];
      ItemsOf(calls[..|calls| - 1]) + if last.OnData? then [Item(last.data, last.fin)] else []
  }

  predicate HasFin(items: seq<Item>) {
    items != [] && items[|items| - 1].fin
  }

  predicate WtInv(w: Wt) {
    && Ordered(w.arrivals)
    && (if w.overflowed then w.pending == [] && w.given <= w.arrivals && !HasFin(w.given)
        else w.given + w.pending == w.arrivals)
    && w.pendingBytes == |Cat(w.pending)| <= MAX_PENDING_BYTES
    && (w.registered ==> w.pending == [])
    && (HasFin(w.arrivals) || w.overflowed ==> !w.pumping && w.closed)
    && CallsOk(w)
  }

  /** The handler registered last was given the latest part of what any handler was given:
      all of it, if it is the only one. It is told of the close at most twice. */
  predicate CallsOk(w: Wt) {
    && |ItemsOf(w.calls)| <= |w.given|
    && ItemsOf(w.calls) == w.given[|w.given| - |ItemsOf(w.calls)|..]
    && (w.registrations == 0 ==> w.given == [] && !w.registered)
    && (w.registrations == 1 ==> ItemsOf(w.calls) == w.given)
    && Closes(w.calls) <= (if !w.closed || (w.registered && w.pumping) then 0 else if w.pumping then 1 else 2)
  }

  function Closes(calls: seq<Call>): nat {
    if calls == [] then 0
    else Closes(calls[..|calls| - 1]) + if calls[|calls| - 1].OnClose? then 1 else 0
  }

  lemma ItemsSnoc(calls: seq<Call>, c: Call)
    ensures ItemsOf(calls + [c]) == ItemsOf(calls) + if c.OnData? then [Item(c.data, c.fin)] else []
    ensures Closes(calls + [c]) == Closes(calls) + if c.OnClose? then 1 else 0
  {
    assert (calls + [c])[..|calls|] == calls;
  }

  lemma TailSnoc(given: seq<Item>, tail: seq<Item>, item: Item)
    requires |tail| <= |given| && tail == given[|given| - |tail|..]
    ensures tail + [item] == (given + [item])[|given| + 1 - |tail + [item]|..]
  {
  }

  /** Giving one item to the handler. */
  lemma GiveKeeps(w: Wt, item: Item)
    requires CallsOk(w) && w.registrations > 0
    ensures CallsOk(Give(w, item))
  {
    ItemsSnoc(w.calls, OnData(item.data, item.fin));
    TailSnoc(w.given, ItemsOf(w.calls), item);
  }

  /** The close calls that come from the handler's reactions between two states. */
  function Closing(w: Wt, z: Wt): nat {
    if z.closed && !w.closed && !z.registered then 1 else 0
  }

  /** A reaction only makes the handler leave and the adapter close. */
  lemma ReactShape(w: Wt, r: Reaction)
    ensures var z := React(w, r);
            && z.pending == w.pending && z.pendingBytes == w.pendingBytes && z.pumping == w.pumping
            && z.arrivals == w.arrivals && z.given == w.given && z.overflowed == w.overflowed
            && z.registrations == w.registrations
            && (w.closed ==> z.closed) && (z.registered ==> w.registered)
            && ItemsOf(z.calls) == ItemsOf(w.calls)
            && Closes(w.calls) <= Closes(z.calls) <= Closes(w.calls) + Closing(w, z)
  {
    ItemsSnoc(w.calls, OnClose);
  }

  lemma GiveBufferedShape(w: Wt, item: Item, r: Reaction)
    ensures var z := GiveBuffered(w, item, r);
            && z.pending == w.pending && z.pendingBytes == w.pendingBytes && z.pumping == w.pumping
            && z.arrivals == w.arrivals && z.given == w.given + [item] && z.overflowed == w.overflowed
            && z.registrations == w.registrations
            && (w.closed ==> z.closed) && (z.registered ==> w.registered)
            && ItemsOf(z.calls) == ItemsOf(w.calls) + [item]
            && 0 <= Closes(z.calls) - Closes(w.calls) - (if item.fin then 1 else 0) <= Closing(w, z)
  {
    hide React, ItemsOf, Closes;
    var w1 := Give(w, item);
    ItemsSnoc(w.calls, OnData(item.data, item.fin));
    ItemsSnoc(w1.calls, OnClose);
    ReactShape(if item.fin then CallClose(w1) else w1, r);
    assert Item(item.data, item.fin) == item;
  }

  /** A replay hands over every buffered item once and in order, and makes one close call for
      a FIN and at most one more, if the handler's reaction closes the adapter. */
  lemma {:induction false} ReplayShape(w: Wt, items: seq<Item>, k: nat, script: nat -> Reaction)
    requires Ordered(items)
    ensures var z := Replay(w, items, k, script);
            && z.pending == w.pending && z.pendingBytes == w.pendingBytes && z.pumping == w.pumping
            && z.arrivals == w.arrivals && z.given == w.given + items && z.overflowed == w.overflowed
            && z.registrations == w.registrations
            && (w.closed ==> z.closed) && (z.registered ==> w.registered)
            && ItemsOf(z.calls) == ItemsOf(w.calls) + items
            && 0 <= Closes(z.calls) - Closes(w.calls) - (if HasFin(items) then 1 else 0) <= Closing(w, z)
    decreases |items|
  {
    hide GiveBuffered, ItemsOf, Closes, Ordered, HasFin;
    if items != [] {
      GiveBufferedShape(w, items[0], script(k));
      OrderedTail(items);
      ReplayShape(GiveBuffered(w, items[0], script(k)), items[1..], k + 1, script);
      assert items == [items[0]] + items[1..];
    } else {
      NoFin();
    }
  }

  lemma NoFin()
    ensures !HasFin([])
  {
  }

  lemma OrderedTail(items: seq<Item>)
    requires Ordered(items) && items != []
    ensures Ordered(items[1..]) && (items[0].fin ==> items[1..] == [])
    ensures HasFin(items) <==> items[0].fin || HasFin(items[1..])
  {
    assert items[1..] != [] ==> items[1..][|items| - 2] == items[|items| - 1];
  }

  // Every step keeps the invariant.

  lemma OrderedSnoc(items: seq<Item>, item: Item)
    requires Ordered(items) && !HasFin(items) && (if item.fin then item.data == [] else item.data != [])
    ensures Ordered(items + [item])
    ensures HasFin(items + [item]) == item.fin
  {
    var all := items + [item];
    assert forall i :: 0 <= i < |items| ==> all[i] == items[i] && !items[i].fin;
  }

  lemma CloseKeeps(w: Wt)
    requires WtInv(w)
    ensures WtInv(DoClose(w))
  {
    ItemsSnoc(w.calls, OnClose);
  }

  /** Ending the pump closes the adapter; that is the second close call at most. */
  lemma PumpEndsCalls(w: Wt)
    requires CallsOk(w)
    ensures CallsOk(PumpEnds(w)) && PumpEnds(w).given == w.given
  {
    ItemsSnoc(w.calls, OnClose);
  }

  lemma ReadKeeps(w: Wt, value: bytes, r: Reaction)
    requires WtInv(w) && w.pumping
    ensures WtInv(DoRead(w, value, r))
  {
    hide ItemsOf, Closes, React, Ordered, HasFin, Cat;
    var item := Item(value, false);
    var w1 := w.(arrivals := w.arrivals + [item]);
    if value != [] {
      OrderedSnoc(w.arrivals, item);
      if w.registered {
        GiveKeeps(w1, item);
        ReactShape(Give(w1, item), r);
        assert w.given + [item] + [] == w.arrivals + [item];
      } else if w.pendingBytes + |value| > MAX_PENDING_BYTES {
        OverflowKeeps(w, value);
      } else {
        CatSnoc(w.pending, item);
        assert w.given + (w.pending + [item]) == w.arrivals + [item];
      }
    }
  }

  /** While the pump goes on nothing given ends in FIN. */
  lemma GivenHasNoFin(w: Wt)
    requires WtInv(w) && w.pumping
    ensures !HasFin(w.given) && w.given <= w.arrivals
  {
    hide ItemsOf, Closes, Cat;
    assert w.given != [] ==> w.given[|w.given| - 1] == w.arrivals[|w.given| - 1];
  }

  lemma OverflowKeeps(w: Wt, value: bytes)
    requires WtInv(w) && w.pumping && !w.registered && value != []
    ensures WtInv(PumpEnds(w.(arrivals := w.arrivals + [Item(value, false)], pending := [], pendingBytes := 0,
                              overflowed := true)))
  {
    hide ItemsOf, Closes, Ordered, HasFin, Cat;
    OrderedSnoc(w.arrivals, Item(value, false));
    Nothing();
    GivenHasNoFin(w);
    PumpEndsCalls(w);
  }

  lemma DoneKeeps(w: Wt, r: Reaction, r2: Reaction)
    requires WtInv(w) && w.pumping
    ensures WtInv(DoDone(w, r, r2))
  {
    hide ItemsOf, Closes, React, Ordered, HasFin, Cat;
    OrderedSnoc(w.arrivals, FIN);
    var w1 := w.(arrivals := w.arrivals + [FIN]);
    if w.registered {
      DoneCalls(w1, r, r2);
      assert w.given + [FIN] + [] == w.arrivals + [FIN];
    } else {
      CatSnoc(w.pending, FIN);
      PumpEndsCalls(w1.(pending := w.pending + [FIN]));
      assert w.given + (w.pending + [FIN]) == w.arrivals + [FIN];
    }
  }

  lemma DoneCalls(w: Wt, r: Reaction, r2: Reaction)
    requires CallsOk(w) && w.pumping && w.registered
    ensures var z := PumpEnds(React(CallClose(React(Give(w, FIN), r)), r2));
            && CallsOk(z) && z.given == w.given + [FIN] && z.pending == w.pending && z.pendingBytes == w.pendingBytes
            && z.arrivals == w.arrivals && z.overflowed == w.overflowed && !z.pumping && z.closed
            && (z.registered ==> w.registered)
  {
    hide ItemsOf, Closes, React;
    GiveKeeps(w, FIN);
    var w1 := React(Give(w, FIN), r);
    ReactShape(Give(w, FIN), r);
    ItemsSnoc(w1.calls, OnClose);
    var w2 := CallClose(w1);
    ReactShape(w2, r2);
    var w3 := React(w2, r2);
    ItemsSnoc(w3.calls, OnClose);
    ReactCloses(w2, r2);
    ReactCloses(Give(w, FIN), r);
  }

  /** A close call by reaction happens only to a handler that is still registered. */
  lemma ReactCloses(w: Wt, r: Reaction)
    ensures var z := React(w, r);
            && (w.closed ==> z.calls == w.calls)
            && Closes(w.calls) <= Closes(z.calls) <= Closes(w.calls) + Closing(w, z)
  {
    ItemsSnoc(w.calls, OnClose);
  }

  lemma FailKeeps(w: Wt, r: Reaction)
    requires WtInv(w) && w.pumping
    ensures WtInv(DoFail(w, r))
  {
    hide ItemsOf, Closes, React, Ordered, HasFin, Cat;
    var w1 := w.(calls := w.calls + [OnError]);
    ItemsSnoc(w.calls, OnError);
    ReactShape(w1, r);
    PumpEndsCalls(w);
    if !w.closed && w.registered {
      ItemsSnoc(React(w1, r).calls, OnClose);
    }
  }

  lemma RegisterKeeps(w: Wt, script: nat -> Reaction)
    requires WtInv(w)
    ensures WtInv(DoRegister(w, script))
  {
    hide ItemsOf, Closes, Replay, Cat, Ordered, HasFin;
    var w1 := w.(registered := true, calls := [], pending := [], pendingBytes := 0,
                 registrations := w.registrations + 1);
    SuffixOrdered(w.arrivals, w.pending);
    ReplayShape(w1, w.pending, 0, script);
    Nothing();
    assert [] + w.pending == w.pending;
    PendingFin(w);
    RegisteredOk(w, DoRegister(w, script));
  }

  lemma RegisteredOk(w: Wt, z: Wt)
    requires WtInv(w)
    requires z.pending == [] && z.pendingBytes == 0 && z.pumping == w.pumping && z.arrivals == w.arrivals
    requires z.given == w.given + w.pending && z.overflowed == w.overflowed
    requires z.registrations == w.registrations + 1 && (w.closed ==> z.closed)
    requires ItemsOf(z.calls) == w.pending
    requires Closes(z.calls) <= Closing(w, z) + (if HasFin(w.pending) then 1 else 0)
    requires HasFin(w.pending) ==> w.closed && !w.pumping
    ensures WtInv(z)
  {
    hide ItemsOf, Closes, Ordered;
    assert z.given + [] == z.given;
    assert w.pending == [] ==> w.given + w.pending == w.given;
  }

  lemma PendingFin(w: Wt)
    requires WtInv(w)
    ensures HasFin(w.pending) ==> w.closed && !w.pumping
  {
    assert HasFin(w.pending) ==> HasFin(w.arrivals);
  }

  lemma Nothing()
    ensures ItemsOf([]) == [] && Closes([]) == 0 && Cat([]) == []
  {
  }

  lemma SuffixOrdered(items: seq<Item>, tail: seq<Item>)
    requires Ordered(items) && |tail| <= |items| && (tail == [] || tail == items[|items| - |tail|..])
    ensures Ordered(tail)
  {
    forall i | 0 <= i < |tail|
      ensures tail[i] == items[|items| - |tail| + i]
    {
    }
  }

  /** Every event keeps the invariant. */
  lemma WtKeeps(w: Wt, e: WtEvent)
    requires WtInv(w) && WtEnabled(w, e)
    ensures WtInv(WtStep(w, e))
  {
    hide WtInv, DoRead, DoDone, DoFail, DoRegister, DoClose;
    match e
    case PumpRead(value, r) => ReadKeeps(w, value, r);
    case PumpDone(r, r2) => DoneKeeps(w, r, r2);
    case PumpFails(r) => FailKeeps(w, r);
    case Register(script) => RegisterKeeps(w, script);
    case Unregister => UnregisterKeeps(w);
    case Close => CloseKeeps(w);
  }

  lemma UnregisterKeeps(w: Wt)
    requires WtInv(w)
    ensures WtInv(w.(registered := false))
  {
    hide Cat, Ordered, ItemsOf, Closes;
  }
}
