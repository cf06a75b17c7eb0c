/** The adapter as the class it is, and what every run of it guarantees. */
module WtSession {
  import opened Bytes
  import opened Tunnel
  import opened TunnelInv
  import opened TunnelRuns
  import opened WtStream

  ghost predicate WtLegal(w: Wt, es: seq<WtEvent>)
    decreases |es|
  {
    es == [] || (WtEnabled(w, es[0]) && WtLegal(WtStep(w, es[0]), es[1..]))
  }

  ghost function WtRun(w: Wt, es: seq<WtEvent>): Wt
    decreases |es|
  {
    if es == [] then w else WtRun(WtStep(w, es[0]), es[1..])
  }

  lemma {:induction false} WtRunKeeps(w: Wt, es: seq<WtEvent>)
    requires WtInv(w) && WtLegal(w, es)
    ensures WtInv(WtRun(w, es))
    decreases |es|
  {
    hide WtInv, WtStep;
    if es != [] {
      WtKeeps(w, es[0]);
      WtRunKeeps(WtStep(w, es[0]), es[1..]);
    }
  }

  /** For every interleaving of arrivals, registrations, reactions and closing: what the
      handlers were given is what arrived, in order, with no gap and no duplicate, and FIN
      only as the last item; what was not given is buffered, within 4 MiB, unless the
      buffer overflowed. A single handler is given all of it, and is told of the close at
      most twice. */
  lemma AdapterFifo(es: seq<WtEvent>)
    requires WtLegal(START, es)
    ensures var w := WtRun(START, es);
            && Ordered(w.arrivals)
            && w.given <= w.arrivals
            && (!w.overflowed ==> w.given + w.pending == w.arrivals)
            && (!w.overflowed && w.registered ==> w.given == w.arrivals)
            && w.pendingBytes == |Cat(w.pending)| <= 4 * 1024 * 1024
            && (w.registrations == 1 ==> ItemsOf(w.calls) == w.given)
            && Closes(w.calls) <= 2
  {
    hide WtLegal, WtRun, Ordered, Cat, ItemsOf, Closes, HasFin;
    StartOk();
    WtRunKeeps(START, es);
  }

  lemma StartOk()
    ensures WtInv(START)
  {
  }

  /** The buffer overflows exactly when an arrival would take it over the limit with nobody
      registered; the stream is then closed, and nobody is given any of what was buffered. */
  lemma OverflowExact(w: Wt, e: WtEvent)
    requires WtInv(w) && WtEnabled(w, e)
    ensures WtStep(w, e).overflowed && !w.overflowed <==>
            && !w.overflowed && e.PumpRead? && e.value != []
            && !w.registered && w.pendingBytes + |e.value| > 4 * 1024 * 1024
    ensures WtStep(w, e).overflowed && !w.overflowed ==>
              var z := WtStep(w, e);
              && z.given == w.given && z.calls == w.calls
              && z.pending == [] && z.pendingBytes == 0 && z.closed && !z.pumping
  {
    hide WtInv, Replay;
    match e
    case Register(script) =>
      RegisterNeverOverflows(w, script);
    case _ =>
  }

  lemma RegisterNeverOverflows(w: Wt, script: nat -> Reaction)
    requires WtInv(w)
    ensures DoRegister(w, script).overflowed == w.overflowed
  {
    hide Replay, Ordered, Cat, ItemsOf, Closes;
    SuffixOrdered(w.arrivals, w.pending);
    var w1 := w.(registered := true, calls := [], pending := [], pendingBytes := 0,
                 registrations := w.registrations + 1);
    ReplayShape(w1, w.pending, 0, script);
  }

  // How often a handler is told of the close.

  /** This event tells the handler for the second time: FIN comes through the pump of an open
      adapter, and the handler neither leaves at FIN nor, unless it closes the adapter at FIN,
      when it is told of the close. */
  predicate TellsTwice(w: Wt, e: WtEvent) {
    e.PumpDone? && w.registered && !w.closed && e.r != Quit && !(e.r == Stay && e.r2 == Quit)
  }

  lemma DoneCloses(w: Wt, r: Reaction, r2: Reaction)
    requires WtInv(w) && w.pumping
    ensures Closes(DoDone(w, r, r2).calls) == 2 <==> TellsTwice(w, PumpDone(r, r2))
  {
    hide ItemsOf, Closes, Cat, Ordered, HasFin;
    if w.registered {
      var w0 := Give(w.(arrivals := w.arrivals + [FIN]), FIN);
      var w1 := React(w0, r);
      var w2 := React(CallClose(w1), r2);
      ItemsSnoc(w.calls, OnData([], true));
      ItemsSnoc(w0.calls, OnClose);
      ItemsSnoc(w1.calls, OnClose);
      ItemsSnoc(CallClose(w1).calls, OnClose);
    } else {
      ItemsSnoc(w.calls, OnClose);
    }
  }

  lemma OtherCloses(w: Wt, e: WtEvent)
    requires WtInv(w) && WtEnabled(w, e) && !e.PumpDone?
    ensures Closes(WtStep(w, e).calls) == 2 <==> Closes(w.calls) == 2 && !e.Register?
  {
    hide ItemsOf, Closes, Cat, Ordered, HasFin, Replay;
    match e
    case Register(script) => RegisterCloses(w, script);
    case PumpRead(value, r) =>
      ItemsSnoc(w.calls, OnData(value, false));
      ItemsSnoc(w.calls + [OnData(value, false)], OnClose);
      ItemsSnoc(w.calls, OnClose);
    case PumpFails(r) =>
      ItemsSnoc(w.calls, OnError);
      ItemsSnoc(w.calls + [OnError], OnClose);
      ItemsSnoc(w.calls, OnClose);
    case _ => ItemsSnoc(w.calls, OnClose);
  }

  lemma RegisterCloses(w: Wt, script: nat -> Reaction)
    requires WtInv(w)
    ensures Closes(DoRegister(w, script).calls) < 2
  {
    hide ItemsOf, Closes, Replay, Cat, Ordered, HasFin;
    var w1 := w.(registered := true, calls := [], pending := [], pendingBytes := 0,
                 registrations := w.registrations + 1);
    SuffixOrdered(w.arrivals, w.pending);
    ReplayShape(w1, w.pending, 0, script);
    Nothing();
    PendingFin(w);
  }

  /** A step makes it two exactly by such a FIN, and keeps it two unless it registers anew. */
  lemma StepCloses(w: Wt, e: WtEvent)
    requires WtInv(w) && WtEnabled(w, e)
    ensures Closes(WtStep(w, e).calls) == 2 <==> TellsTwice(w, e) || (Closes(w.calls) == 2 && !e.Register?)
  {
    hide Closes, WtInv, TellsTwice;
    if e.PumpDone? {
      DoneCloses(w, e.r, e.r2);
      NotYetTwice(w);
    } else {
      OtherCloses(w, e);
    }
    assert TellsTwice(w, e) ==> e.PumpDone? by {
      PumpDoneTells(w, e);
    }
  }

  lemma PumpDoneTells(w: Wt, e: WtEvent)
    ensures TellsTwice(w, e) ==> e.PumpDone?
  {
  }

  lemma NotYetTwice(w: Wt)
    requires WtInv(w) && w.pumping
    ensures Closes(w.calls) < 2
  {
    hide Closes;
  }

  /** The handler registered last was told twice in this run. */
  predicate ToldTwice(w: Wt, es: seq<WtEvent>)
    decreases |es|
  {
    es != [] &&
    ((TellsTwice(w, es[0]) && NoRegister(es[1..])) || ToldTwice(WtStep(w, es[0]), es[1..]))
  }

  predicate NoRegister(es: seq<WtEvent>) {
    forall i :: 0 <= i < |es| ==> !es[i].Register?
  }

  lemma {:induction false} RunCloses(w: Wt, es: seq<WtEvent>)
    requires WtInv(w) && WtLegal(w, es)
    ensures Closes(WtRun(w, es).calls) == 2 <==> ToldTwice(w, es) || (Closes(w.calls) == 2 && NoRegister(es))
    decreases |es|
  {
    hide WtInv, WtStep, WtEnabled, TellsTwice, Closes;
    if es != [] {
      WtKeeps(w, es[0]);
      StepCloses(w, es[0]);
      RunCloses(WtStep(w, es[0]), es[1..]);
      assert NoRegister(es) <==> !es[0].Register? && NoRegister(es[1..]);
    }
  }

  /** Over every run: a handler is told of the close twice exactly if, after it registered
      last, FIN came through the pump of the open adapter and it did not leave in time. */
  lemma ClosedTwice(es: seq<WtEvent>)
    requires WtLegal(START, es)
    ensures Closes(WtRun(START, es).calls) == 2 <==> ToldTwice(START, es)
    ensures Closes(WtRun(START, es).calls) <= 2
  {
    hide WtLegal, WtRun, ToldTwice, Closes;
    StartOk();
    Nothing();
    RunCloses(START, es);
    WtRunKeeps(START, es);
  }

  /** So it does happen, to a handler that does not react: FIN comes while it is registered. */
  lemma ToldTwiceReached(script: nat -> Reaction)
    ensures var es := [Register(script), PumpDone(Stay, Stay)];
            WtLegal(START, es) && Closes(WtRun(START, es).calls) == 2
  {
    var es := [Register(script), PumpDone(Stay, Stay)];
    var w := WtStep(START, es[0]);
    assert es[1..] == [PumpDone(Stay, Stay)] && es[1..][1..] == [];
    assert TellsTwice(w, es[1]) && NoRegister([]);
    assert ToldTwice(w, es[1..]);
    assert WtLegal(WtStep(w, es[1]), []);
    assert WtLegal(w, es[1..]);
    ClosedTwice(es);
  }

  // Errors, and who is told.

  function Errors(calls: seq<Call>): nat {
    if calls == [] then 0
    else Errors(calls[..|calls| - 1]) + if calls[|calls| - 1].OnError? then 1 else 0
  }

  lemma ErrorsSnoc(calls: seq<Call>, c: Call)
    ensures Errors(calls + [c]) == Errors(calls) + if c.OnError? then 1 else 0
  {
    assert (calls + [c])[..|calls|] == calls;
  }

  /** The reader fails while the adapter is open and somebody is registered. */
  predicate TellsError(w: Wt, e: WtEvent) {
    e.PumpFails? && w.registered && !w.closed
  }

  lemma ReactErrors(w: Wt, r: Reaction)
    ensures Errors(React(w, r).calls) == Errors(w.calls)
  {
    ErrorsSnoc(w.calls, OnClose);
  }

  lemma CloseErrors(w: Wt)
    ensures Errors(DoClose(w).calls) == Errors(PumpEnds(w).calls) == Errors(w.calls)
  {
    ErrorsSnoc(w.calls, OnClose);
  }

  lemma GiveErrors(w: Wt, item: Item, r: Reaction)
    ensures Errors(Give(w, item).calls) == Errors(GiveBuffered(w, item, r).calls) == Errors(w.calls)
    ensures Errors(CallClose(w).calls) == Errors(w.calls)
  {
    hide React, Errors;
    ErrorsSnoc(w.calls, OnData(item.data, item.fin));
    ErrorsSnoc(Give(w, item).calls, OnClose);
    ErrorsSnoc(w.calls, OnClose);
    ReactErrors(Give(w, item), r);
    ReactErrors(CallClose(Give(w, item)), r);
  }

  lemma {:induction false} ReplayErrors(w: Wt, items: seq<Item>, k: nat, script: nat -> Reaction)
    ensures Errors(Replay(w, items, k, script).calls) == Errors(w.calls)
    decreases |items|
  {
    hide GiveBuffered, Errors;
    if items != [] {
      GiveErrors(w, items[0], script(k));
      ReplayErrors(GiveBuffered(w, items[0], script(k)), items[1..], k + 1, script);
    }
  }

  lemma StepErrors(w: Wt, e: WtEvent)
    ensures Errors(WtStep(w, e).calls) ==
            (if e.Register? then 0 else Errors(w.calls)) + (if TellsError(w, e) then 1 else 0)
  {
    hide Errors, React, DoClose;
    match e
    case Register(script) =>
      NoErrors();
      ReplayErrors(w.(registered := true, calls := [], pending := [], pendingBytes := 0,
                      registrations := w.registrations + 1), w.pending, 0, script);
    case PumpRead(value, r) => ReadErrors(w, value, r);
    case PumpDone(r, r2) => DoneErrors(w, r, r2);
    case PumpFails(r) =>
      ErrorsSnoc(w.calls, OnError);
      var w1 := w.(calls := w.calls + [OnError]);
      ReactErrors(w1, r);
      CloseErrors(React(w1, r));
      CloseErrors(w);
    case _ => CloseErrors(w);
  }

  lemma NoErrors()
    ensures Errors([]) == 0
  {
  }

  lemma ReadErrors(w: Wt, value: bytes, r: Reaction)
    ensures Errors(DoRead(w, value, r).calls) == Errors(w.calls)
  {
    hide Errors, React, DoClose;
    var item := Item(value, false);
    var w1 := w.(arrivals := w.arrivals + [item]);
    GiveErrors(w1, item, r);
    ReactErrors(Give(w1, item), r);
    CloseErrors(w1.(pending := [], pendingBytes := 0, overflowed := true));
  }

  lemma DoneErrors(w: Wt, r: Reaction, r2: Reaction)
    ensures Errors(DoDone(w, r, r2).calls) == Errors(w.calls)
  {
    hide Errors, React, DoClose;
    var w0 := w.(arrivals := w.arrivals + [FIN]);
    var w1 := React(Give(w0, FIN), r);
    GiveErrors(w0, FIN, r);
    ReactErrors(Give(w0, FIN), r);
    GiveErrors(w1, FIN, r);
    ReactErrors(CallClose(w1), r2);
    CloseErrors(React(CallClose(w1), r2));
    CloseErrors(w0.(pending := w.pending + [FIN]));
  }

  /** Data only, then the error, then at most a close. */
  predicate ErrorShape(calls: seq<Call>, n: nat) {
    && n < |calls| <= n + 2
    && (forall i :: 0 <= i < n ==> calls[i].OnData?)
    && calls[n].OnError?
    && (|calls| == n + 2 ==> calls[n + 1].OnClose?)
  }

  lemma {:induction false} DataOnly(calls: seq<Call>)
    requires Errors(calls) == 0 && Closes(calls) == 0
    ensures forall i :: 0 <= i < |calls| ==> calls[i].OnData?
    decreases |calls|
  {
    if calls != [] {
      DataOnly(calls[..|calls| - 1]);
      assert calls == calls[..|calls| - 1] + [calls[|calls| - 1]];
    }
  }

  /** The handler registered last was told of an error in this run. */
  predicate ToldError(w: Wt, es: seq<WtEvent>)
    decreases |es|
  {
    es != [] &&
    ((TellsError(w, es[0]) && NoRegister(es[1..])) || ToldError(WtStep(w, es[0]), es[1..]))
  }

  /** While the pump runs there was no error; once told, nothing but a close has followed, and
      the handler is gone. */
  ghost predicate ErrorOk(w: Wt) {
    && (w.pumping ==> Errors(w.calls) == 0)
    && (Errors(w.calls) > 0 ==>
          w.closed && !w.registered && Errors(w.calls) == 1 && exists n :: ErrorShape(w.calls, n))
  }

  lemma ErrorKeeps(w: Wt, e: WtEvent)
    requires WtInv(w) && WtEnabled(w, e) && ErrorOk(w)
    ensures ErrorOk(WtStep(w, e))
  {
    hide Errors, Closes, ItemsOf, Ordered, HasFin, Cat, Replay, ErrorShape;
    StepErrors(w, e);
    if TellsError(w, e) {
      DataOnly(w.calls);
      Tells(w, e.r);
    } else if e.Register? {
    } else if Errors(w.calls) > 0 {
      NobodyTold(w, e);
      StaysClosed(w, e);
    }
  }

  lemma Tells(w: Wt, r: Reaction)
    requires w.registered && !w.closed && forall i :: 0 <= i < |w.calls| ==> w.calls[i].OnData?
    ensures var z := DoFail(w, r);
            && z.closed && !z.registered && !z.pumping && ErrorShape(z.calls, |w.calls|)
            && (|z.calls| == |w.calls| + 2 <==> r != Quit)
            && w.calls <= z.calls
  {
  }

  /** With nobody registered, nobody is told anything, until somebody registers. */
  lemma NobodyTold(w: Wt, e: WtEvent)
    requires WtEnabled(w, e) && !w.registered && !e.Register?
    ensures WtStep(w, e).calls == w.calls && !WtStep(w, e).registered
  {
  }

  lemma StaysClosed(w: Wt, e: WtEvent)
    requires WtEnabled(w, e) && w.closed && !w.registered && !e.Register?
    ensures WtStep(w, e).closed && (!w.pumping ==> !WtStep(w, e).pumping)
  {
  }

  lemma {:induction false} RunErrors(w: Wt, es: seq<WtEvent>)
    requires WtInv(w) && WtLegal(w, es) && ErrorOk(w)
    ensures ErrorOk(WtRun(w, es))
    ensures Errors(WtRun(w, es).calls) > 0 <==> ToldError(w, es) || (Errors(w.calls) > 0 && NoRegister(es))
    decreases |es|
  {
    hide WtInv, WtStep, WtEnabled, TellsError, Errors, ErrorOk;
    if es != [] {
      WtKeeps(w, es[0]);
      ErrorKeeps(w, es[0]);
      StepErrors(w, es[0]);
      FailsIsNoRegister(w, es[0]);
      RunErrors(WtStep(w, es[0]), es[1..]);
      assert NoRegister(es) <==> !es[0].Register? && NoRegister(es[1..]);
    }
  }

  lemma FailsIsNoRegister(w: Wt, e: WtEvent)
    ensures TellsError(w, e) ==> !e.Register?
  {
  }

  /** Over every run: the handler registered last has been told of exactly one error if the
      reader failed while it was registered and the adapter open, and of none else; the
      error comes after all data and before the close. */
  lemma ErrorIsTold(es: seq<WtEvent>)
    requires WtLegal(START, es)
    ensures var w := WtRun(START, es);
            && Errors(w.calls) == (if ToldError(START, es) then 1 else 0)
            && (ToldError(START, es) ==> exists n :: ErrorShape(w.calls, n))
  {
    hide WtLegal, WtRun, ToldError, Errors, ErrorShape;
    StartOk();
    NoErrors();
    RunErrors(START, es);
  }

  /** A handler that is registered when the adapter closes is told of the close, unless it
      leaves when it is told of an error. One that has left is told nothing more. */
  lemma CloseIsTold(w: Wt, e: WtEvent)
    requires WtInv(w) && WtEnabled(w, e) && !e.Register?
    ensures var z := WtStep(w, e);
            && (w.registered && !w.closed && z.closed ==>
                  (Closes(z.calls) == 0 <==> e.PumpFails? && e.r == Quit))
            && (!w.registered ==> z.calls == w.calls && !z.registered)
            && (e == Unregister ==> !z.registered && z.calls == w.calls)
            && (e == Close ==> z.closed)
  {
    hide Closes, ItemsOf, Ordered, HasFin, Cat, Replay;
    if !w.registered {
      NobodyTold(w, e);
    } else if !w.closed {
      RegisteredTold(w, e);
    }
  }

  lemma RegisteredTold(w: Wt, e: WtEvent)
    requires WtInv(w) && WtEnabled(w, e) && !e.Register? && w.registered && !w.closed
    ensures WtStep(w, e).closed ==> (Closes(WtStep(w, e).calls) == 0 <==> e.PumpFails? && e.r == Quit)
  {
    hide ItemsOf, Ordered, HasFin, Cat, Closes;
    match e
    case PumpRead(value, r) =>
      ItemsSnoc(w.calls, OnData(value, false));
      ItemsSnoc(w.calls + [OnData(value, false)], OnClose);
      ItemsSnoc(w.calls, OnClose);
    case PumpDone(r, r2) =>
      var w0 := Give(w.(arrivals := w.arrivals + [FIN]), FIN);
      var w1 := React(w0, r);
      var w2 := React(CallClose(w1), r2);
      ItemsSnoc(w.calls, OnData([], true));
      ItemsSnoc(w0.calls, OnClose);
      ItemsSnoc(w1.calls, OnClose);
      ItemsSnoc(CallClose(w1).calls, OnClose);
    case PumpFails(r) =>
      ItemsSnoc(w.calls, OnError);
      ItemsSnoc(w.calls + [OnError], OnClose);
    case _ => ItemsSnoc(w.calls, OnClose);
  }

  /** A handler that registers late is given everything that was kept, and is told of the close
      at once if that ends with FIN: once, since the adapter has closed. */
  lemma LateHandlerIsTold(w: Wt, script: nat -> Reaction)
    requires WtInv(w)
    ensures var z := WtStep(w, Register(script));
            && ItemsOf(z.calls) == w.pending && z.given == w.given + w.pending && z.pending == []
            && (HasFin(w.pending) ==> Closes(z.calls) == 1)
            && (!HasFin(w.pending) && Closes(z.calls) > 0 ==> Closes(z.calls) == 1 && !w.closed && z.closed)
  {
    hide ItemsOf, Closes, Replay, Cat, Ordered, HasFin;
    var w1 := w.(registered := true, calls := [], pending := [], pendingBytes := 0,
                 registrations := w.registrations + 1);
    SuffixOrdered(w.arrivals, w.pending);
    ReplayShape(w1, w.pending, 0, script);
    Nothing();
    PendingFin(w);
  }

  /** The pump reads on until the adapter is closed, and at most one more item after that. */
  lemma PumpLives(es: seq<WtEvent>, more: seq<WtEvent>)
    requires WtLegal(START, es) && WtLegal(WtRun(START, es), more)
    ensures var w := WtRun(START, es);
            var z := WtRun(w, more);
            && (!w.closed ==> w.pumping)
            && (w.closed ==>
                  z.closed && w.arrivals <= z.arrivals &&
                  |z.arrivals| <= |w.arrivals| + if w.pumping then 1 else 0)
  {
    hide WtLegal, WtRun;
    RunPumps(START, es);
    if WtRun(START, es).closed {
      RunPumps(WtRun(START, es), more);
    }
  }

  lemma {:induction false} RunPumps(w: Wt, es: seq<WtEvent>)
    requires (!w.closed ==> w.pumping) && WtLegal(w, es)
    ensures var z := WtRun(w, es);
            && (!z.closed ==> z.pumping) && (!w.pumping ==> !z.pumping)
            && (w.closed ==>
                  z.closed && w.arrivals <= z.arrivals &&
                  |z.arrivals| <= |w.arrivals| + if w.pumping && !z.pumping then 1 else 0)
    decreases |es|
  {
    hide WtStep;
    if es != [] {
      StepPumps(w, es[0]);
      RunPumps(WtStep(w, es[0]), es[1..]);
    }
  }

  lemma StepPumps(w: Wt, e: WtEvent)
    requires (!w.closed ==> w.pumping) && WtEnabled(w, e)
    ensures var z := WtStep(w, e);
            && (!z.closed ==> z.pumping) && (!w.pumping ==> !z.pumping)
            && (w.closed ==>
                  z.closed && w.arrivals <= z.arrivals &&
                  |z.arrivals| <= |w.arrivals| + if w.pumping && !z.pumping then 1 else 0)
  {
    hide Replay;
    if e.Register? {
      ReplayPumps(w.(registered := true, calls := [], pending := [], pendingBytes := 0,
                     registrations := w.registrations + 1), w.pending, 0, e.script);
    }
  }

  lemma {:induction false} ReplayPumps(w: Wt, items: seq<Item>, k: nat, script: nat -> Reaction)
    ensures var z := Replay(w, items, k, script);
            z.pumping == w.pumping && z.arrivals == w.arrivals && (w.closed ==> z.closed)
    decreases |items|
  {
    if items != [] {
      ReplayPumps(GiveBuffered(w, items[0], script(k)), items[1..], k + 1, script);
    }
  }

  // What the tunnel requires of its transport.

  function DataItems(es: seq<Event>): seq<Item> {
    if es == [] then []
    else (if es[0].Data? then [Item(es[0].data, es[0].fin)] else []) + DataItems(es[1..])
  }

  predicate AllEnabled(cfg: Config, s: State, es: seq<Event>)
    decreases |es|
  {
    es == [] || (Enabled(s, es[0]) && AllEnabled(cfg, Step(cfg, s, es[0]), es[1..]))
  }

  lemma FinSeenOnlyByFin(cfg: Config, s: State, e: Event)
    ensures Step(cfg, s, e).log.finSeen ==> s.log.finSeen || (e.Data? && e.fin)
  {
    if e.RxResume? {
      assert Step(cfg, s, e) == StepRx(cfg, s, e.ok);
    }
  }

  lemma OrderedRest(items: seq<Item>)
    requires items != [] && FinsLast(items)
    ensures FinsLast(items[1..]) && (items[0].fin ==> items[1..] == [] && items[0].data == [])
  {
  }

  lemma {:induction false} OrderedDataIsLegal(cfg: Config, s: State, es: seq<Event>)
    requires AllEnabled(cfg, s, es) && FinsLast(DataItems(es)) && (s.log.finSeen ==> DataItems(es) == [])
    ensures Legal(cfg, s, es)
    decreases |es|
  {
    hide Step, Enabled;
    if es != [] {
      var e := es[0];
      if e.Data? {
        assert DataItems(es)[1..] == DataItems(es[1..]);
        OrderedRest(DataItems(es));
      } else {
        assert DataItems(es) == DataItems(es[1..]);
      }
      FinSeenOnlyByFin(cfg, s, e);
      OrderedDataIsLegal(cfg, Step(cfg, s, e), es[1..]);
    }
  }

  lemma PrefixOrdered(items: seq<Item>, all: seq<Item>)
    requires items <= all && FinsLast(all)
    ensures FinsLast(items)
  {
    assert forall i :: 0 <= i < |items| ==> items[i] == all[i];
  }

  /** A tunnel registered as the one handler of an adapter: whatever the adapter has been
      through, a run of the tunnel whose data callbacks are the adapter's calls meets the
      contract that the tunnel's proofs rest on. */
  lemma AdapterMeetsContract(wes: seq<WtEvent>, cfg: Config, gauge: int, up: int, es: seq<Event>)
    requires WtLegal(START, wes) && WtRun(START, wes).registrations == 1
    requires DataItems(es) <= ItemsOf(WtRun(START, wes).calls)
    requires AllEnabled(cfg, Init(cfg, gauge, up), es)
    ensures Legal(cfg, Init(cfg, gauge, up), es)
  {
    hide WtLegal, WtRun, AllEnabled, Legal, ItemsOf, DataItems, Closes, Cat;
    AdapterFifo(wes);
    PrefixOrdered(DataItems(es), WtRun(START, wes).arrivals);
    OrderedDataIsLegal(cfg, Init(cfg, gauge, up), es);
  }

  // The class.

  /** What a tunnel registers: it records the calls made on it. */
  class Handler {
    var calls: seq<Call>

    constructor ()
      ensures calls == []
    {
      calls := [];
    }

    method Called(c: Call)
      modifies this
      ensures calls == old(calls) + [c]
    {
      calls := calls + [c];
    }
  }

  /** The reactions of a handler are parameters: what it does from inside each call. */
  class WtStreamSession {
    var pendingChunks: seq<Item>
    var pendingBytes: nat
    var isClosed: bool
    var pumping: bool
    var handler: Handler?
    ghost var last: Handler?
    ghost var arrivals: seq<Item>
    ghost var given: seq<Item>
    ghost var overflowed: bool
    ghost var registrations: nat

    ghost predicate Valid()
      reads this
    {
      handler != null ==> handler == last
    }

    ghost function View(): Wt
      reads this, last
    {
      Wt(pendingChunks, pendingBytes, isClosed, pumping, handler != null, arrivals, given,
         if last == null then [] else last.calls, overflowed, registrations)
    }

    constructor ()
      ensures Valid() && View() == START
    {
      pendingChunks, pendingBytes := [], 0;
      isClosed, pumping, handler := false, true, null;
      last, arrivals, given, overflowed, registrations := null, [], [], false, 0;
    }

    method CloseSession()
      requires Valid()
      modifies this`isClosed, this`handler, last
      ensures Valid() && View() == DoClose(old(View()))
    {
      if isClosed {
        return;
      }
      isClosed := true;
      if handler != null {
        handler.Called(OnClose);
      }
      handler := null;
    }

    method UnregisterStream()
      requires Valid()
      modifies this`handler
      ensures Valid() && View() == WtStep(old(View()), Unregister)
    {
      handler := null;
    }

    method Reacting(r: Reaction)
      requires Valid()
      modifies this`isClosed, this`handler, last
      ensures Valid() && View() == React(old(View()), r)
    {
      match r
      case Stay =>
      case Quit => UnregisterStream();
      case Shut => CloseSession();
    }

    /** One buffered item goes to the handler. */
    method HandOver(h: Handler, item: Item, r: Reaction)
      requires Valid() && last == h
      modifies this`isClosed, this`handler, this`given, h
      ensures Valid() && View() == GiveBuffered(old(View()), item, r)
    {
      hide React;
      h.Called(OnData(item.data, item.fin));
      given := given + [item];
      if item.fin {
        h.Called(OnClose);
      }
      Reacting(r);
    }

    /** Registration hands over what is buffered. The buffer is emptied first. */
    method RegisterStream(h: Handler, script: nat -> Reaction)
      requires Valid() && h.calls == []
      modifies this, h
      ensures Valid() && View() == DoRegister(old(View()), script)
    {
      hide Replay, GiveBuffered;
      ghost var w := View().(registered := true, calls := [], pending := [], pendingBytes := 0,
                             registrations := registrations + 1);
      handler, last := h, h;
      registrations := registrations + 1;
      var pending := pendingChunks;
      pendingChunks, pendingBytes := [], 0;
      var k := 0;
      assert pending[0..] == pending;
      while k < |pending|
        invariant k <= |pending| && Valid() && last == h
        invariant Replay(View(), pending[k..], k, script) == Replay(w, pending, 0, script)
      {
        ReplayNext(View(), pending, k, script);
        HandOver(h, pending[k], script(k));
        k := k + 1;
      }
      assert pending[k..] == [];
      ReplayNone(View(), k, script);
    }

    method PumpGot(value: bytes, r: Reaction)
      requires Valid() && pumping
      modifies this, last
      ensures Valid() && View() == DoRead(old(View()), value, r)
    {
      if |value| > 0 {
        arrivals := arrivals + [Item(value, false)];
        if handler != null {
          handler.Called(OnData(value, false));
          given := given + [Item(value, false)];
          Reacting(r);
        } else if pendingBytes + |value| > MAX_PENDING_BYTES {
          pendingChunks, pendingBytes, overflowed := [], 0, true;
          EndPump();
          return;
        } else {
          pendingChunks := pendingChunks + [Item(value, false)];
          pendingBytes := pendingBytes + |value|;
        }
      }
      pumping := !isClosed;
    }

    /** Leaving the pump, for whatever reason, closes the adapter. */
    method EndPump()
      requires Valid()
      modifies this`isClosed, this`handler, this`pumping, last
      ensures Valid() && View() == PumpEnds(old(View()))
    {
      CloseSession();
      pumping := false;
    }

    /** FIN and the close call go to the handler that was registered when FIN came, even if it
        leaves in between. */
    method DeliverFin(h: Handler, r: Reaction, r2: Reaction)
      requires Valid() && handler == h
      modifies this, last
      ensures Valid() && last == old(last)
      ensures View() == React(CallClose(React(Give(old(View()), FIN), r)), r2)
    {
      hide React, DoClose;
      h.Called(OnData([], true));
      given := given + [FIN];
      Reacting(r);
      h.Called(OnClose);
      Reacting(r2);
    }

    method PumpFinished(r: Reaction, r2: Reaction)
      requires Valid() && pumping
      modifies this, last
      ensures Valid() && View() == DoDone(old(View()), r, r2)
    {
      hide React, DoClose, PumpEnds;
      arrivals := arrivals + [FIN];
      var h := handler;
      if h != null {
        DeliverFin(h, r, r2);
      } else {
        pendingChunks := pendingChunks + [FIN];
      }
      EndPump();
    }

    method PumpFailed(r: Reaction)
      requires Valid() && pumping
      modifies this, last
      ensures Valid() && View() == DoFail(old(View()), r)
    {
      if !isClosed && handler != null {
        handler.Called(OnError);
        Reacting(r);
      }
      EndPump();
    }
  }

  lemma ReplayNext(w: Wt, items: seq<Item>, k: nat, script: nat -> Reaction)
    requires k < |items|
    ensures Replay(w, items[k..], k, script) ==
            Replay(GiveBuffered(w, items[k], script(k)), items[k + 1..], k + 1, script)
  {
    assert items[k..][0] == items[k] && items[k..][1..] == items[k + 1..];
  }

  lemma ReplayNone(w: Wt, k: nat, script: nat -> Reaction)
    ensures Replay(w, [], k, script) == w
  {
  }
}
