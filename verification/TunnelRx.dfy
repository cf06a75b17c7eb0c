/** The receive task keeps the invariant, segment by segment. */
module TunnelRx {
  import opened Bytes
  import opened Aead
  import opened Framing
  import opened Decoder
  import opened Tunnel
  import opened TunnelInv

  /** What holds whenever the receive task is about to look at its queue again. */
  ghost predicate Between(cfg: Config, s: State, others: nat) {
    && Core(cfg, s, others)
    && Settled(s.life, s.rx, s.log)
    && FinTracked(s.life, s.rx, s.log)
    && HalfClosed(s.life, s.rx, s.main)
    && Drained(s.life, s.rx)
  }

  /** What holds while it works on a data item. */
  ghost predicate Working(cfg: Config, s: State, others: nat) {
    && Core(cfg, s, others)
    && Settled(s.life, s.rx, s.log)
    && FinTracked(s.life, s.rx, s.log)
    && !s.rx.curFin && !s.rx.finReceived
    && !s.log.writeFailed
    && (!s.life.terminated ==> !s.rx.d.corrupt)
  }

  lemma FinallyKeeps(cfg: Config, s: State, others: nat)
    requires Between(cfg, s, others)
    ensures Inv(cfg, RxFinally(cfg, s), others)
  {
    var s1 := RxGoto(s, RxIdle);
    if s.rx.queue == [] && s.rx.transportClosed && !s.life.terminated && !s.rx.finReceived {
      CleanupCore(cfg, s1, TransportClosed, others);
    }
  }

  lemma AbortKeeps(cfg: Config, s: State, why: Reason, others: nat)
    requires Almost(cfg, s, others) && (!s.life.terminated ==> MayEnd(s, why))
    requires s.rx.d.flight.Nothing? && !s.life.activeWrite
    requires Confirmed(s.log)
    requires s.rx.handshakeDone ==> s.life.hs != HsPending
    requires s.rx.finReceived ==> s.life.writeClosed && Starved(s.rx.d)
    ensures Inv(cfg, RxAbort(cfg, s, why), others)
  {
    CleanupAlmost(cfg, s, why, others);
    FinallyKeeps(cfg, Cleanup(cfg, s, why), others);
  }

  lemma CoreIsAlmost(cfg: Config, s: State, others: nat)
    requires Core(cfg, s, others)
    ensures Almost(cfg, s, others)
  {
  }

  lemma FullCloseKeeps(cfg: Config, s: State, others: nat)
    requires Core(cfg, s, others)
    requires s.main.readClosed && s.rx.finReceived ==> s.rx.d.flight.Nothing?
    ensures Core(cfg, CheckFullClose(cfg, s), others)
    ensures Waits(s) ==> Waits(CheckFullClose(cfg, s))
    ensures Settled(s.life, s.rx, s.log) ==>
              Settled(CheckFullClose(cfg, s).life, CheckFullClose(cfg, s).rx, CheckFullClose(cfg, s).log)
    ensures s.main.readClosed && s.rx.finReceived ==> CheckFullClose(cfg, s).life.terminated
    ensures !(s.main.readClosed && s.rx.finReceived) ==> CheckFullClose(cfg, s) == s
  {
    if s.main.readClosed && s.rx.finReceived {
      var why := if !s.rx.handshakeDone then ClientAbort else if Leftover(s.rx.d) then FramingError
                 else if s.rx.recv == 0 then TargetDialRefused else BothClosed;
      CleanupCore(cfg, s, why, others);
    }
  }

  lemma AfterCloseKeeps(cfg: Config, s: State, others: nat)
    requires Core(cfg, s, others) && Settled(s.life, s.rx, s.log) && Drained(s.life, s.rx)
    requires s.rx.finReceived && s.life.writeClosed
    ensures Inv(cfg, RxAfterClose(cfg, s), others)
  {
    CoreIsAlmost(cfg, s, others);
    if Leftover(s.rx.d) {
      AbortKeeps(cfg, s, FramingError, others);
    } else if !s.rx.handshakeDone && s.rx.recv == 0 {
      AbortKeeps(cfg, s, TargetDialRefused, others);
    } else {
      FullCloseKeeps(cfg, s, others);
      if s.rx.recv > 0 {
        PayloadMeansUp(cfg, s, others);
      }
      var s1 := CheckFullClose(cfg, s);
      var s2 := if s1.rx.finReceived && !s1.main.readClosed && !s1.life.terminated then ResetIdle(s1) else s1;
      assert Core(cfg, s2, others);
      FinallyKeeps(cfg, s2, others);
    }
  }

  lemma PayloadMeansUp(cfg: Config, s: State, others: nat)
    requires Core(cfg, s, others) && s.rx.recv > 0
    ensures s.rx.handshakeDone
  {
    assert s.rx.d.frames == [] ==> Flatten(s.rx.d.frames) == [];
  }

  lemma FinKeeps(cfg: Config, s: State, others: nat)
    requires Core(cfg, s, others) && Settled(s.life, s.rx, s.log) && Drained(s.life, s.rx)
    requires !s.life.terminated && s.log.finSeen && s.rx.queue == [] && !s.rx.finReceived
    ensures Inv(cfg, RxFin(cfg, s), others)
  {
    var s1 := s.(rx := s.rx.(finReceived := true));
    assert Cat(s.rx.queue) == [];
    assert s.log.received == s.rx.d.fed + [] == s.rx.d.fed;
    assert Core(cfg, s1, others);
    if s.life.writeClosed {
      AfterCloseKeeps(cfg, s1, others);
    }
  }

  function Popped(rx: Receive): Receive
    requires rx.queue != []
  {
    var data := rx.queue[0].data;
    if data == [] then Pop(rx) else Pop(rx).(d := Feed(rx.d, data))
  }

  lemma Regroup(fed: bytes, data: bytes, rest: bytes)
    ensures fed + (data + rest) == (fed + data) + rest
    ensures fed + data <= fed + (data + rest)
    ensures data == [] ==> fed + data == fed
  {
  }

  lemma PopData(cfg: Config, l: Life, rx: Receive, g: Log)
    requires DataOk(cfg, l, rx, g) && !l.terminated && rx.queue != []
    ensures DataOk(cfg, l, Popped(rx), g)
  {
    var data, rest := rx.queue[0].data, rx.queue[1..];
    assert g.received == rx.d.fed + (data + Cat(rest));
    Regroup(rx.d.fed, data, Cat(rest));
    if data != [] {
      FeedCipher(cfg, rx.d, data);
    }
  }

  lemma PopQueue(l: Life, a: Acct, rx: Receive, g: Log, others: nat)
    requires QueueOk(l, a, rx, g, others) && !l.terminated && rx.queue != []
    ensures QueueOk(l, Unqueue(a, |rx.queue[0].data|), Popped(rx), g, others)
  {
    var data, rest := rx.queue[0].data, rx.queue[1..];
    assert Cat(rx.queue) == data + Cat(rest);
    forall i | 0 <= i < |rest|
      ensures rest[i] == rx.queue[i + 1]
    {
    }
  }

  /** Taking an item moves its bytes from the queue to the buffer and keeps the accounts. */
  lemma PopKeeps(cfg: Config, s: State, others: nat)
    requires Core(cfg, s, others) && !s.life.terminated && s.rx.queue != []
    requires s.rx.d.flight.Nothing?
    ensures Core(cfg, s.(rx := Popped(s.rx), acct := Unqueue(s.acct, |s.rx.queue[0].data|)), others)
  {
    PopData(cfg, s.life, s.rx, s.log);
    PopQueue(s.life, s.acct, s.rx, s.log, others);
  }

  /** Feeding bytes does not change the cipher the frames are read with. */
  lemma FeedCipher(cfg: Config, d: Rx, data: bytes)
    requires Rep(ServerCipher(cfg, d), d)
    ensures Rep(ServerCipher(cfg, Feed(d, data)), Feed(d, data))
  {
    FeedRep(ServerCipher(cfg, d), d, data);
  }

  /** Decoding steps that open nothing leave everything but the decoder as it was. */
  lemma DecoderStep(cfg: Config, s: State, d: Rx, others: nat)
    requires Core(cfg, s, others) && Rep(ServerCipher(cfg, s.rx.d), d)
    requires d.fed == s.rx.d.fed && d.frames == s.rx.d.frames && d.corrupt == s.rx.d.corrupt
    requires s.rx.d.snSet ==> d.snSet
    requires !s.rx.finReceived
    ensures Core(cfg, s.(rx := s.rx.(d := d)), others)
  {
  }

  lemma LoopKeeps(cfg: Config, s: State, others: nat)
    requires GoodConfig(cfg) && Between(cfg, s, others)
    ensures Inv(cfg, RxLoop(cfg, s), others)
    decreases |s.rx.queue|, 0
  {
    if s.rx.queue == [] || s.life.terminated {
      FinallyKeeps(cfg, s, others);
    } else {
      var item := s.rx.queue[0];
      var s1 := s.(rx := Popped(s.rx), acct := Unqueue(s.acct, |item.data|));
      PopKeeps(cfg, s, others);
      PopSettled(s.life, s.rx, s.log);
      if item.data != [] {
        FedKeeps(cfg, s1, others);
      } else if item.fin {
        FinKeeps(cfg, s1, others);
      } else {
        LoopKeeps(cfg, s1, others);
      }
    }
  }

  lemma PopSettled(l: Life, rx: Receive, g: Log)
    requires Settled(l, rx, g) && FinTracked(l, rx, g) && rx.queue != [] && FinsLast(rx.queue)
    requires rx.finReceived ==> rx.queue == []
    ensures Settled(l, Popped(rx), g)
    ensures !rx.queue[0].fin ==> FinTracked(l, Popped(rx), g)
    ensures rx.queue[0].fin ==> rx.queue[0].data == [] && Popped(rx).queue == []
    ensures !Popped(rx).finReceived
  {
    if !rx.queue[0].fin && |rx.queue| > 1 {
      assert rx.queue[1..][|rx.queue| - 2] == rx.queue[|rx.queue| - 1];
    }
  }

  lemma FedKeeps(cfg: Config, s: State, others: nat)
    requires GoodConfig(cfg) && Working(cfg, s, others) && !s.life.terminated
    ensures Inv(cfg, RxFed(cfg, s), others)
    decreases |s.rx.queue|, 4
  {
    if s.rx.handshakeDone {
      DecodeKeeps(cfg, s, others);
    } else if Available(s.rx.d) < NONCE_LENGTH {
      LoopKeeps(cfg, s, others);
    } else {
      TakeNonceRep(ServerCipher(cfg, s.rx.d), s.rx.d);
      TakeNonceRep(ServerCipher(cfg, TakeNonce(s.rx.d)), s.rx.d);
      DecoderStep(cfg, s, TakeNonce(s.rx.d), others);
    }
  }

  lemma DecodeKeeps(cfg: Config, s: State, others: nat)
    requires GoodConfig(cfg) && Working(cfg, s, others) && s.rx.handshakeDone
    ensures Inv(cfg, RxDecode(cfg, s), others)
    decreases |s.rx.queue|, 3
  {
    hide Inv, RxTrim, RxToPayload, TakeLength;
    if s.life.terminated {
      TrimKeeps(cfg, s, others);
    } else if s.rx.d.expected != -1 {
      ToPayloadKeeps(cfg, s, others);
    } else if Available(s.rx.d) < LENGTH_FRAME {
      TrimKeeps(cfg, s, others);
    } else {
      LengthTaken(cfg, s, others);
    }
  }

  lemma LengthTaken(cfg: Config, s: State, others: nat)
    requires GoodConfig(cfg) && Working(cfg, s, others) && s.rx.handshakeDone
    requires !s.life.terminated && s.rx.d.expected == -1 && Available(s.rx.d) >= LENGTH_FRAME
    ensures Inv(cfg, s.(rx := s.rx.(d := TakeLength(s.rx.d), pc := RxLength)), others)
  {
    TakeLengthRep(ServerCipher(cfg, s.rx.d), s.rx.d);
    DecoderStep(cfg, s, TakeLength(s.rx.d), others);
  }

  lemma ToPayloadKeeps(cfg: Config, s: State, others: nat)
    requires GoodConfig(cfg) && Working(cfg, s, others)
    requires s.log.hsLive && !s.rx.d.corrupt && s.rx.d.expected >= 0
    ensures Inv(cfg, RxToPayload(cfg, s), others)
    decreases |s.rx.queue|, 2
  {
    if Available(s.rx.d) < s.rx.d.expected + TAG {
      TrimKeeps(cfg, s, others);
    } else {
      TakePayloadRep(ServerCipher(cfg, s.rx.d), s.rx.d);
      DecoderStep(cfg, s, TakePayload(s.rx.d), others);
    }
  }

  lemma TrimKeeps(cfg: Config, s: State, others: nat)
    requires GoodConfig(cfg) && Working(cfg, s, others)
    requires Drained(s.life, s.rx)
    ensures Inv(cfg, RxTrim(cfg, s), others)
    decreases |s.rx.queue|, 2, 0
  {
    TrimRep(ServerCipher(cfg, s.rx.d), s.rx.d);
    DecoderStep(cfg, s, Trim(s.rx.d), others);
    LoopKeeps(cfg, s.(rx := s.rx.(d := Trim(s.rx.d))), others);
  }

  // Resumptions.

  lemma RepliedKeeps(cfg: Config, s: State, others: nat)
    requires GoodConfig(cfg) && Inv(cfg, s, others) && s.rx.pc == RxReply
    ensures Inv(cfg, RxReplied(cfg, s), others)
  {
    HandshakeSettles(cfg, s, others);
    DecodeKeeps(cfg, s.(life := s.life.(hs := if s.life.hs == HsPending then HsResolved else s.life.hs)), others);
  }

  lemma HandshakeSettles(cfg: Config, s: State, others: nat)
    requires Inv(cfg, s, others) && s.rx.pc == RxReply
    ensures Working(cfg, s.(life := s.life.(hs := if s.life.hs == HsPending then HsResolved else s.life.hs)), others)
  {
  }

  lemma DerivedKeeps(cfg: Config, s: State, ok: bool, others: nat)
    requires GoodConfig(cfg) && Inv(cfg, s, others) && s.rx.pc == RxDerive
    ensures Inv(cfg, RxDerived(cfg, s, ok), others)
  {
    if !ok {
      CoreIsAlmost(cfg, s, others);
      AbortKeeps(cfg, s, RxError, others);
    }
  }

  lemma LengthOpenedKeeps(cfg: Config, s: State, others: nat)
    requires GoodConfig(cfg) && Inv(cfg, s, others) && s.rx.pc == RxLength
    ensures Inv(cfg, RxLengthOpened(cfg, s), others)
  {
    var c, d := ServerCipher(cfg, s.rx.d), s.rx.d;
    match OpenLength(c, d.flight.iv, d.flight.chunk)
    case None =>
      BrokenKeeps(cfg, s, others);
    case Some(n) =>
      LengthOpenedRep(c, d, n);
      DecoderStep(cfg, s, LengthOpened(d, n), others);
      ToPayloadKeeps(cfg, s.(rx := s.rx.(d := LengthOpened(d, n))), others);
  }

  lemma BrokenKeeps(cfg: Config, s: State, others: nat)
    requires GoodConfig(cfg) && Inv(cfg, s, others) && (s.rx.pc == RxLength || s.rx.pc == RxPayload)
    ensures Inv(cfg, RxAbort(cfg, s.(rx := s.rx.(d := Broken(s.rx.d))), DecryptError), others)
  {
    BrokenRep(ServerCipher(cfg, s.rx.d), s.rx.d);
    AbortKeeps(cfg, s.(rx := s.rx.(d := Broken(s.rx.d))), DecryptError, others);
  }

  lemma PayloadData(cfg: Config, s: State, p: bytes)
    requires GoodConfig(cfg) && DataOk(cfg, s.life, s.rx, s.log) && !s.rx.d.corrupt && s.rx.d.snSet
    requires s.rx.d.flight.PayloadFrame? && !s.rx.finReceived
    requires ServerCipher(cfg, s.rx.d).open(s.rx.d.flight.iv, s.rx.d.flight.chunk) == Some(p)
    ensures DataOk(cfg, s.life, s.rx.(d := PayloadOpened(s.rx.d, p), recv := s.rx.recv + |p|),
                   s.log.(written := s.log.written + p))
  {
    PayloadOpenedRep(ServerCipher(cfg, s.rx.d), s.rx.d, p);
    FlattenSnoc(s.rx.d.frames, p);
  }

  lemma PayloadKept(cfg: Config, s: State, p: bytes, others: nat)
    requires GoodConfig(cfg) && Inv(cfg, s, others) && s.rx.pc == RxPayload
    requires ServerCipher(cfg, s.rx.d).open(s.rx.d.flight.iv, s.rx.d.flight.chunk) == Some(p)
    ensures Core(cfg, s.(rx := s.rx.(d := PayloadOpened(s.rx.d, p), recv := s.rx.recv + |p|),
                         log := s.log.(written := s.log.written + p)), others)
  {
    PayloadData(cfg, s, p);
  }

  lemma PayloadOpenedKeeps(cfg: Config, s: State, others: nat)
    requires GoodConfig(cfg) && Inv(cfg, s, others) && s.rx.pc == RxPayload
    ensures Inv(cfg, RxPayloadOpened(cfg, s), others)
  {
    var d := s.rx.d;
    match ServerCipher(cfg, d).open(d.flight.iv, d.flight.chunk)
    case None =>
      BrokenKeeps(cfg, s, others);
    case Some(p) =>
      PlainKeeps(cfg, s, p, others);
  }

  lemma PlainKeeps(cfg: Config, s: State, p: bytes, others: nat)
    requires GoodConfig(cfg) && Inv(cfg, s, others) && s.rx.pc == RxPayload
    requires ServerCipher(cfg, s.rx.d).open(s.rx.d.flight.iv, s.rx.d.flight.chunk) == Some(p)
    ensures Inv(cfg, RxPlain(cfg, s, p), others)
  {
    PayloadKept(cfg, s, p, others);
    if p == [] {
      EmptyPayload(cfg, s, others);
    } else {
      WriteBegins(cfg, s, p, others);
    }
  }

  lemma EmptyPayload(cfg: Config, s: State, others: nat)
    requires GoodConfig(cfg) && Waits(s) && s.rx.pc == RxPayload
    requires Core(cfg, s.(rx := s.rx.(d := PayloadOpened(s.rx.d, []), recv := s.rx.recv + 0),
                          log := s.log.(written := s.log.written + [])), others)
    ensures Inv(cfg, RxDecode(cfg, s.(rx := s.rx.(d := PayloadOpened(s.rx.d, [])))), others)
  {
    assert s.log.written + [] == s.log.written;
    DecodeKeeps(cfg, s.(rx := s.rx.(d := PayloadOpened(s.rx.d, []))), others);
  }

  lemma WriteBegins(cfg: Config, s: State, p: bytes, others: nat)
    requires Waits(s) && s.rx.pc == RxPayload && p != []
    requires Core(cfg, s.(rx := s.rx.(d := PayloadOpened(s.rx.d, p), recv := s.rx.recv + |p|),
                          log := s.log.(written := s.log.written + p)), others)
    ensures Inv(cfg, s.(rx := s.rx.(d := PayloadOpened(s.rx.d, p), recv := s.rx.recv + |p|, pc := RxWrite(p)),
                        log := s.log.(written := s.log.written + p),
                        life := s.life.(activeWrite := true)), others)
  {
  }

  lemma WriteDone(cfg: Config, s: State, p: bytes, others: nat)
    requires Inv(cfg, s, others) && s.rx.pc == RxWrite(p)
    ensures var s1 := s.(life := s.life.(activeWrite := false));
            && Working(cfg, ResetIdle(s1.(log := s.log.(confirmed := s.log.confirmed + p))), others)
            && Almost(cfg, s1.(log := s.log.(writeFailed := true)), others)
            && Confirmed(s.log.(writeFailed := true))
  {
    assert |s.log.confirmed| + |p| == |s.log.written|;
  }

  lemma WrittenKeeps(cfg: Config, s: State, p: bytes, ok: bool, others: nat)
    requires GoodConfig(cfg) && Inv(cfg, s, others) && s.rx.pc == RxWrite(p)
    ensures Inv(cfg, RxWritten(cfg, s, p, ok), others)
  {
    WriteDone(cfg, s, p, others);
    var s1 := s.(life := s.life.(activeWrite := false));
    if ok {
      DecodeKeeps(cfg, ResetIdle(s1.(log := s.log.(confirmed := s.log.confirmed + p))), others);
    } else {
      AbortKeeps(cfg, s1.(log := s.log.(writeFailed := true)), ClientWriteError, others);
    }
  }

  /** A resumption of the receive task keeps the invariant. */
  lemma StepRxKeeps(cfg: Config, s: State, ok: bool, others: nat)
    requires GoodConfig(cfg) && Inv(cfg, s, others)
    ensures Inv(cfg, StepRx(cfg, s, ok), others)
  {
    match s.rx.pc
    case RxIdle =>
    case RxDerive => DerivedKeeps(cfg, s, ok, others);
    case RxReply => RepliedKeeps(cfg, s, others);
    case RxLength => LengthOpenedKeeps(cfg, s, others);
    case RxPayload => PayloadOpenedKeeps(cfg, s, others);
    case RxWrite(p) => WrittenKeeps(cfg, s, p, ok, others);
    case RxClose => AfterCloseKeeps(cfg, s, others);
  }

  lemma StartKeeps(cfg: Config, s: State, others: nat)
    requires GoodConfig(cfg) && Core(cfg, s, others)
    requires s.rx.pc == RxIdle ==> Between(cfg, s, others)
    requires s.rx.pc == RxIdle && s.life.terminated ==> Waits(s)
    requires s.rx.pc != RxIdle ==> Waits(s)
    ensures Inv(cfg, RxStart(cfg, s), others)
  {
    if s.rx.pc == RxIdle && !s.life.terminated {
      LoopKeeps(cfg, s, others);
    }
  }

  // Transport callbacks.

  lemma EnqueueQueue(l: Life, a: Acct, rx: Receive, g: Log, item: Item, others: nat)
    requires QueueOk(l, a, rx, g, others) && !l.terminated && l.reason == Unknown
    requires !g.finSeen && (item.fin ==> item.data == [])
    requires a.queuedBytes + |item.data| <= MAX_RX_BUFFER_BYTES
    ensures QueueOk(l, Acct(a.queuedBytes + |item.data|, a.gauge + |item.data|),
                    rx.(queue := rx.queue + [item]), g.(finSeen := g.finSeen || item.fin), others)
  {
    CatSnoc(rx.queue, item);
  }

  lemma EnqueueKeeps(cfg: Config, s: State, data: bytes, fin: bool, others: nat)
    requires Core(cfg, s, others) && !s.life.terminated
    requires !s.log.finSeen && (fin ==> data == [])
    requires s.acct.queuedBytes + |data| <= MAX_RX_BUFFER_BYTES
    ensures Core(cfg, Enqueue(s, data, fin), others)
  {
    EnqueueQueue(s.life, s.acct, s.rx, s.log, Item(data, fin), others);
    CatSnoc(s.rx.queue, Item(data, fin));
    Regroup(s.rx.d.fed, Cat(s.rx.queue), data);
    PrefixGrows(s.rx.d.fed, s.log.received, data);
  }

  lemma PrefixGrows(a: bytes, b: bytes, c: bytes)
    requires a <= b
    ensures a <= b + c
  {
  }

  lemma EnqueueWaits(s: State, data: bytes, fin: bool)
    requires Waits(s) && !s.life.terminated && !s.log.finSeen
    requires s.rx.finReceived ==> s.log.finSeen
    ensures var r := Enqueue(s, data, fin);
            && (s.rx.pc != RxIdle ==> Waits(r))
            && (s.rx.pc == RxIdle ==>
                  Settled(r.life, r.rx, r.log) && FinTracked(r.life, r.rx, r.log) &&
                  HalfClosed(r.life, r.rx, r.main) && Drained(r.life, r.rx))
  {
  }

  lemma ResetCore(cfg: Config, s: State, others: nat)
    requires Core(cfg, s, others)
    ensures Core(cfg, ResetIdle(s), others)
  {
  }

  lemma ResetWaits(s: State)
    requires Waits(s)
    ensures Waits(ResetIdle(s))
  {
  }

  lemma OnDataKeeps(cfg: Config, s: State, data: bytes, fin: bool, others: nat)
    requires GoodConfig(cfg) && Inv(cfg, s, others) && Contract(s, Data(data, fin))
    ensures Inv(cfg, OnData(cfg, s, data, fin), others)
  {
    if !s.life.terminated {
      var s1 := ResetIdle(s);
      ResetCore(cfg, s, others);
      ResetWaits(s);
      if s.acct.queuedBytes + |data| > MAX_RX_BUFFER_BYTES {
        CleanupCore(cfg, s1, RxOverflow, others);
      } else {
        EnqueueKeeps(cfg, s1, data, fin, others);
        EnqueueWaits(s1, data, fin);
        StartKeeps(cfg, Enqueue(s1, data, fin), others);
      }
    }
  }

  lemma OnCloseKeeps(cfg: Config, s: State, others: nat)
    requires GoodConfig(cfg) && Inv(cfg, s, others)
    ensures Inv(cfg, OnClose(cfg, s), others)
  {
    hide Rep, Cat, Flatten, FinsLast, Starved;
    var s1 := s.(rx := s.rx.(transportClosed := true));
    assert Core(cfg, s1, others);
    if s.rx.queue == [] && s.rx.pc == RxIdle && !s.life.terminated {
      if !s.rx.finReceived {
        CleanupAlmost(cfg, s1, TransportClosed, others);
      } else {
        FullCloseKeeps(cfg, s1, others);
      }
    }
  }
}
