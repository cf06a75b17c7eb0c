/** What a run of the tunnel guarantees. */
module TunnelResults {
  import opened Bytes
  import opened Nonces
  import opened Aead
  import opened Framing
  import opened Decoder
  import opened Tunnel
  import opened TunnelInv
  import opened TunnelMain
  import opened TunnelRuns

  /** What an honest server sends for these payloads. */
  function Stream(cfg: Config, sn: Nonce, ps: seq<bytes>): bytes {
    sn + SealFrames(cfg.cipher(sn), sn, ps)
  }

  // Downstream: fragmentation does not matter.

  /** On an honest stream the bytes taken so far lead with the server's nonce. */
  lemma HonestFed(cfg: Config, s: State, others: nat, sn: Nonce, ps: seq<bytes>)
    requires Inv(cfg, s, others) && s.log.received <= Stream(cfg, sn, ps) && s.rx.d.snSet
    ensures ServerNonce(s.rx.d) == sn
    ensures s.rx.d.fed + Stream(cfg, sn, ps)[|s.rx.d.fed|..] == Stream(cfg, sn, ps)
  {
    hide Core, SealFrames;
    FedIsReceived(cfg, s, others);
    PrefixOfStream(s.rx.d.fed, s.log.received, sn, SealFrames(cfg.cipher(sn), sn, ps));
  }

  lemma FedIsReceived(cfg: Config, s: State, others: nat)
    requires Inv(cfg, s, others) && s.rx.d.snSet
    ensures NONCE_LENGTH <= |s.rx.d.fed| && s.rx.d.fed <= s.log.received
  {
  }

  lemma PrefixOfStream(fed: bytes, received: bytes, sn: Nonce, frames: bytes)
    requires |fed| >= NONCE_LENGTH && fed <= received <= sn + frames
    ensures fed[..NONCE_LENGTH] == sn && fed + (sn + frames)[|fed|..] == sn + frames
  {
    assert fed[..NONCE_LENGTH] == (sn + frames)[..NONCE_LENGTH];
  }

  lemma LengthHonest(cfg: Config, s: State, others: nat, sn: Nonce, ps: seq<bytes>)
    requires GoodConfig(cfg) && Inv(cfg, s, others) && s.rx.pc == RxLength && Payloads(ps)
    requires s.log.received <= Stream(cfg, sn, ps)
    ensures !RxLengthOpened(cfg, s).rx.d.corrupt
  {
    var d := s.rx.d;
    HonestFed(cfg, s, others, sn, ps);
    HonestLength(cfg.cipher(sn), d, Stream(cfg, sn, ps)[|d.fed|..], ps);
  }

  lemma PayloadHonest(cfg: Config, s: State, others: nat, sn: Nonce, ps: seq<bytes>)
    requires GoodConfig(cfg) && Inv(cfg, s, others) && s.rx.pc == RxPayload && Payloads(ps)
    requires s.log.received <= Stream(cfg, sn, ps)
    ensures !RxPayloadOpened(cfg, s).rx.d.corrupt
  {
    var d := s.rx.d;
    HonestFed(cfg, s, others, sn, ps);
    HonestPayload(cfg.cipher(sn), d, Stream(cfg, sn, ps)[|d.fed|..], ps);
  }

  /** Only an opening can find the stream corrupt. */
  lemma OnlyOpeningBreaks(cfg: Config, s: State, e: Event)
    requires !(e.RxResume? && (s.rx.pc == RxLength || s.rx.pc == RxPayload))
    ensures Step(cfg, s, e).rx.d.corrupt == s.rx.d.corrupt
  {
    if e.RxResume? {
      assert Step(cfg, s, e) == StepRx(cfg, s, e.ok);
    }
  }

  /** No opening fails on an honest stream. */
  lemma StepHonest(cfg: Config, s: State, e: Event, others: nat, sn: Nonce, ps: seq<bytes>)
    requires GoodConfig(cfg) && Inv(cfg, s, others) && Payloads(ps)
    requires s.log.received <= Stream(cfg, sn, ps) && !s.rx.d.corrupt
    ensures !Step(cfg, s, e).rx.d.corrupt
  {
    if e.RxResume? && s.rx.pc == RxLength {
      assert Step(cfg, s, e) == RxLengthOpened(cfg, s);
      LengthHonest(cfg, s, others, sn, ps);
    } else if e.RxResume? && s.rx.pc == RxPayload {
      assert Step(cfg, s, e) == RxPayloadOpened(cfg, s);
      PayloadHonest(cfg, s, others, sn, ps);
    } else {
      OnlyOpeningBreaks(cfg, s, e);
    }
  }

  lemma {:induction false} RunHonest(cfg: Config, s: State, es: seq<Event>, others: nat, sn: Nonce, ps: seq<bytes>)
    requires GoodConfig(cfg) && Inv(cfg, s, others) && Legal(cfg, s, es) && Payloads(ps)
    requires Run(cfg, s, es).log.received <= Stream(cfg, sn, ps) && !s.rx.d.corrupt
    ensures !Run(cfg, s, es).rx.d.corrupt
    decreases |es|
  {
    if es != [] {
      RunGrows(cfg, s, es, others);
      StepKeeps(cfg, s, es[0], others);
      StepHonest(cfg, s, es[0], others, sn, ps);
      RunHonest(cfg, Step(cfg, s, es[0]), es[1..], others, sn, ps);
    }
  }

  /** Nothing is left for the receive task to do. */
  predicate Quiet(s: State) {
    s.rx.pc == RxIdle && s.rx.microtasks == 0 && !s.life.terminated
  }

  lemma HonestState(cfg: Config, s: State, others: nat, sn: Nonce, ps: seq<bytes>)
    requires GoodConfig(cfg) && Inv(cfg, s, others) && Payloads(ps) && !s.rx.d.corrupt
    requires s.log.received <= Stream(cfg, sn, ps)
    ensures s.rx.d.frames <= ps && s.log.written <= Flatten(ps)
    ensures s.rx.d.snSet ==> FlightOk(Bump(sn, 2 * |s.rx.d.frames|), s.rx.d)
    ensures Quiet(s) && s.log.received == Stream(cfg, sn, ps) ==>
              s.log.confirmed == Flatten(ps) && s.rx.d.sn == Bump(sn, 2 * |ps|)
  {
    var d := s.rx.d;
    if d.snSet {
      HonestFed(cfg, s, others, sn, ps);
      HonestRest(cfg.cipher(sn), d, Stream(cfg, sn, ps)[|d.fed|..], ps);
    }
    FlattenPrefix(d.frames, ps);
    if Quiet(s) && s.log.received == Stream(cfg, sn, ps) {
      assert d.fed + [] == d.fed;
      StarvedIsComplete(cfg.cipher(sn), d, ps);
    }
  }

  /** Whatever the server seals after its nonce, and however the transport cuts it, the
      client socket gets a prefix of the payloads at every moment, both ends use the same
      nonce for the same frame, and once everything has arrived and been processed the
      client has been written all of it. */
  lemma DownstreamRoundTrip(cfg: Config, es: seq<Event>, gauge: nat, up: int, sn: Nonce, ps: seq<bytes>)
    requires GoodConfig(cfg) && Legal(cfg, Init(cfg, gauge, up), es) && Payloads(ps)
    requires Run(cfg, Init(cfg, gauge, up), es).log.received <= Stream(cfg, sn, ps)
    ensures var s := Run(cfg, Init(cfg, gauge, up), es);
            && s.log.written <= Flatten(ps)
            && s.life.reason != DecryptError
            && (s.rx.d.snSet ==> FlightOk(Bump(sn, 2 * |s.rx.d.frames|), s.rx.d))
            && (Quiet(s) && s.log.received == Stream(cfg, sn, ps) ==>
                  s.log.confirmed == Flatten(ps) && s.rx.d.sn == Bump(sn, 2 * |ps|))
  {
    var s := Run(cfg, Init(cfg, gauge, up), es);
    InitInv(cfg, gauge, up);
    RunKeeps(cfg, Init(cfg, gauge, up), es, gauge);
    RunHonest(cfg, Init(cfg, gauge, up), es, gauge, sn, ps);
    HonestState(cfg, s, gauge, sn, ps);
  }

  // Full close.

  /** The bytes are a nonce followed by the whole frames of these payloads. */
  ghost predicate Whole(cfg: Config, received: bytes, ps: seq<bytes>) {
    |received| >= NONCE_LENGTH && received == Stream(cfg, received[..NONCE_LENGTH], ps)
  }

  /** A tunnel that ends with `both_closed` was closed by both sides, was sent a nonce and
      whole frames and nothing else, and had every payload byte written and confirmed. */
  lemma BothClosedIsComplete(cfg: Config, es: seq<Event>, gauge: nat, up: int)
    requires GoodConfig(cfg) && Legal(cfg, Init(cfg, gauge, up), es)
    requires Run(cfg, Init(cfg, gauge, up), es).life.reason == BothClosed
    ensures var s := Run(cfg, Init(cfg, gauge, up), es);
            && s.main.readClosed && s.rx.finReceived
            && Whole(cfg, s.log.received, s.rx.d.frames)
            && s.log.confirmed == Flatten(s.rx.d.frames) == s.log.written
            && s.log.confirmed != []
  {
    var s := Run(cfg, Init(cfg, gauge, up), es);
    InitInv(cfg, gauge, up);
    RunKeeps(cfg, Init(cfg, gauge, up), es, gauge);
    WholeWhenNothingLeft(cfg, s, gauge);
  }

  lemma WholeWhenNothingLeft(cfg: Config, s: State, others: nat)
    requires Inv(cfg, s, others) && s.rx.finReceived && s.rx.d.snSet && !Leftover(s.rx.d) && s.rx.d.flight.Nothing?
    ensures Whole(cfg, s.log.received, s.rx.d.frames)
  {
    var d := s.rx.d;
    var head := ServerNonce(d) + SealFrames(ServerCipher(cfg, d), ServerNonce(d), d.frames);
    assert Pending(ServerCipher(cfg, d), FrameNonce(d), d) + d.buf[d.off..] == [];
    assert head + [] == head;
  }

  /** The bytes are a nonce and whole frames that carry at least one byte. */
  ghost predicate CompleteReply(cfg: Config, received: bytes) {
    exists ps: seq<bytes> :: Payloads(ps) && Whole(cfg, received, ps) && Flatten(ps) != []
  }

  lemma CheckVerdict(cfg: Config, s: State, others: nat)
    requires GoodConfig(cfg) && Inv(cfg, s, others) && !s.life.terminated
    requires s.main.readClosed && s.rx.finReceived
    ensures CheckFullClose(cfg, s).life.terminated && CheckFullClose(cfg, s).life.cleanPc != NoCleanup
    ensures CheckFullClose(cfg, s).life.reason == BothClosed <==> CompleteReply(cfg, s.log.received)
  {
    var d := s.rx.d;
    if d.snSet && !Leftover(d) {
      WholeWhenNothingLeft(cfg, s, others);
    }
    forall ps: seq<bytes> | Payloads(ps) && Whole(cfg, s.log.received, ps) && Flatten(ps) != []
      ensures CheckFullClose(cfg, s).life.reason == BothClosed
    {
      StarvedIsComplete(ServerCipher(cfg, d), d, ps);
    }
  }

  lemma SendingVerdict(cfg: Config, s: State, io: Io, others: nat)
    requires GoodConfig(cfg) && Inv(cfg, s, others) && !s.life.terminated
    requires s.main.readClosed && s.rx.finReceived && s.main.pc == SendingFin
    ensures var r := StepMain(cfg, s, io);
            r.life.terminated && (r.life.reason == BothClosed <==> CompleteReply(cfg, s.log.received))
  {
    hide CompleteReply, Inv, CheckFullClose;
    CheckVerdict(cfg, s, others);
    assert StepMain(cfg, s, io) == MainFinSent(cfg, s);
  }

  lemma ClosingVerdict(cfg: Config, s: State, ok: bool, others: nat)
    requires GoodConfig(cfg) && Inv(cfg, s, others) && !s.life.terminated
    requires s.main.readClosed && s.rx.finReceived && s.rx.pc == RxClose
    ensures var r := StepRx(cfg, s, ok);
            r.life.terminated && (r.life.reason == BothClosed <==> CompleteReply(cfg, s.log.received))
  {
    hide CompleteReply, Inv;
    CheckVerdict(cfg, s, others);
    TerminatedIsCleaning(cfg, s, others);
    assert StepRx(cfg, s, ok) == RxAfterClose(cfg, s);
  }

  lemma TransportVerdict(cfg: Config, s: State, others: nat)
    requires GoodConfig(cfg) && Inv(cfg, s, others) && !s.life.terminated
    requires s.main.readClosed && s.rx.finReceived && s.rx.pc == RxIdle
    ensures var r := OnClose(cfg, s);
            r.life.terminated && (r.life.reason == BothClosed <==> CompleteReply(cfg, s.log.received))
  {
    hide CompleteReply;
    var s1 := s.(rx := s.rx.(transportClosed := true));
    FinEmptiesQueue(cfg, s, others);
    ClosedTransport(cfg, s, others);
    CheckVerdict(cfg, s1, others);
    assert OnClose(cfg, s) == CheckFullClose(cfg, s1);
  }

  lemma FinEmptiesQueue(cfg: Config, s: State, others: nat)
    requires Inv(cfg, s, others) && s.rx.finReceived
    ensures s.rx.queue == []
  {
  }

  lemma ClosedTransport(cfg: Config, s: State, others: nat)
    requires Inv(cfg, s, others) && s.rx.finReceived
    ensures Inv(cfg, s.(rx := s.rx.(transportClosed := true)), others)
  {
    hide Rep, Cat, Flatten, FinsLast, Starved;
  }

  lemma TerminatedIsCleaning(cfg: Config, s: State, others: nat)
    requires Inv(cfg, s, others)
    ensures s.life.terminated <==> s.life.cleanPc != NoCleanup
  {
  }

  /** Whichever side closes last, and if the transport closes in between: at the step that
      finds both sides closed the verdict is `both_closed` exactly if the bytes received are
      a nonce and whole frames that carry at least one byte. */
  lemma FullCloseVerdict(cfg: Config, es: seq<Event>, gauge: nat, up: int, e: Event)
    requires GoodConfig(cfg) && Legal(cfg, Init(cfg, gauge, up), es)
    requires var s := Run(cfg, Init(cfg, gauge, up), es);
             && s.main.readClosed && s.rx.finReceived && !s.life.terminated
             && (|| (e.MainResume? && s.main.pc == SendingFin)
                 || (e.RxResume? && s.rx.pc == RxClose)
                 || (e == TransportClose && s.rx.pc == RxIdle))
    ensures var s := Run(cfg, Init(cfg, gauge, up), es);
            var r := Step(cfg, s, e);
            r.life.terminated && (r.life.reason == BothClosed <==> CompleteReply(cfg, s.log.received))
  {
    hide CompleteReply, Inv, StepMain, StepRx;
    InitInv(cfg, gauge, up);
    RunKeeps(cfg, Init(cfg, gauge, up), es, gauge);
    var s := Run(cfg, Init(cfg, gauge, up), es);
    match e
    case MainResume(io) => SendingVerdict(cfg, s, io, gauge);
    case RxResume(ok) => ClosingVerdict(cfg, s, ok, gauge);
    case TransportClose => TransportVerdict(cfg, s, gauge);
  }

  // Success.

  /** All that was received has been decoded: no opening under way or failed, no part of a
      frame, no data queued. */
  predicate AllDecoded(s: State) {
    !s.rx.d.corrupt && s.rx.d.flight.Nothing? && !Leftover(s.rx.d) && Cat(s.rx.queue) == []
  }

  /** All that was decoded has been written: no write under way or failed. */
  predicate AllWritten(s: State) {
    !s.rx.pc.RxWrite? && !s.log.writeFailed
  }

  lemma SealedIsShorter(cfg: Config, s: State, others: nat)
    requires GoodConfig(cfg) && Inv(cfg, s, others) && s.rx.d.snSet
    ensures var d := s.rx.d;
            var head := ServerNonce(d) + SealFrames(ServerCipher(cfg, d), ServerNonce(d), d.frames);
            && head <= d.fed <= s.log.received
            && |s.log.received| == |d.fed| + |Cat(s.rx.queue)|
            && (AllDecoded(s) <==> head == s.log.received)
  {
    var d := s.rx.d;
    var c, m := ServerCipher(cfg, d), FrameNonce(d);
    var head := ServerNonce(d) + SealFrames(c, ServerNonce(d), d.frames);
    if !d.corrupt {
      assert |d.fed| == |head| + (|Pending(c, m, d)| + |d.buf[d.off..]|);
      assert |Pending(c, m, d)| == 0 <==> d.flight.Nothing? && d.expected == -1;
      assert AllDecoded(s) ==> head + [] == d.fed && d.fed + [] == s.log.received;
    } else {
      assert |head| < |d.fed|;
    }
  }

  lemma WholeIsDecoded(cfg: Config, s: State, others: nat)
    requires GoodConfig(cfg) && Inv(cfg, s, others) && s.rx.d.snSet
    ensures Whole(cfg, s.log.received, s.rx.d.frames) <==> AllDecoded(s)
  {
    hide Core, AllDecoded, SealFrames;
    SealedIsShorter(cfg, s, others);
    ReceivedStarts(cfg, s, others);
  }

  lemma ReceivedStarts(cfg: Config, s: State, others: nat)
    requires Inv(cfg, s, others) && s.rx.d.snSet
    ensures |s.log.received| >= NONCE_LENGTH && s.log.received[..NONCE_LENGTH] == ServerNonce(s.rx.d)
  {
  }

  lemma ConfirmedIsWritten(cfg: Config, s: State, others: nat)
    requires Inv(cfg, s, others)
    ensures s.log.confirmed == Flatten(s.rx.d.frames) <==> AllWritten(s)
  {
    if s.rx.pc.RxWrite? {
      assert |s.log.confirmed| + |s.rx.pc.p| == |s.log.written|;
    }
  }

  /** What a returned success is worth. It means that the handshake finished and payload was
      received. What was received is a nonce and the whole frames that were decoded, and all
      their payload was written and confirmed, exactly if nothing is left to decode and no
      write is under way or has failed. After `both_closed` that is so; after
      `transport_closed` no FIN was seen, so the server may have had more to send. */
  lemma SuccessExact(cfg: Config, es: seq<Event>, gauge: nat, up: int)
    requires GoodConfig(cfg) && Legal(cfg, Init(cfg, gauge, up), es)
    requires var m := Run(cfg, Init(cfg, gauge, up), es).main;
             m.outcome.Some? && m.outcome.value.success
    ensures var s := Run(cfg, Init(cfg, gauge, up), es);
            var o := s.main.outcome.value;
            && o.handshakeDone && o.bytesReceived > 0
            && (o.kind == BothClosed || o.kind == IdleTimeout || o.kind == TransportClosed)
            && (Whole(cfg, s.log.received, s.rx.d.frames) <==> AllDecoded(s))
            && (s.log.confirmed == Flatten(s.rx.d.frames) <==> AllWritten(s))
            && (Whole(cfg, s.log.received, s.rx.d.frames) && s.log.confirmed == Flatten(s.rx.d.frames)
                <==> AllDecoded(s) && AllWritten(s))
            && (o.kind == BothClosed ==> s.log.finSeen && AllDecoded(s) && AllWritten(s))
            && (o.kind == TransportClosed ==> !s.log.finSeen)
  {
    var s := Run(cfg, Init(cfg, gauge, up), es);
    InitInv(cfg, gauge, up);
    RunKeeps(cfg, Init(cfg, gauge, up), es, gauge);
    SuccessKinds(cfg, s, gauge);
    WholeIsDecoded(cfg, s, gauge);
    ConfirmedIsWritten(cfg, s, gauge);
  }

  lemma SuccessKinds(cfg: Config, s: State, others: nat)
    requires Inv(cfg, s, others) && s.main.outcome.Some? && s.main.outcome.value.success
    ensures var o := s.main.outcome.value;
            && o.handshakeDone && o.bytesReceived > 0 && s.rx.d.snSet
            && (o.kind == BothClosed || o.kind == IdleTimeout || o.kind == TransportClosed)
            && (o.kind == BothClosed ==> s.log.finSeen && AllDecoded(s) && AllWritten(s))
            && (o.kind == TransportClosed ==> !s.log.finSeen)
  {
  }

  // Wakeups and the FIN.

  /** In every quiet state the queue is empty, every accepted byte is in the decoder, and a
      closed transport means that FIN was received. An accepted FIN is never reported as a
      transport that closed early. */
  lemma NoLostWakeup(cfg: Config, es: seq<Event>, gauge: nat, up: int)
    requires GoodConfig(cfg) && Legal(cfg, Init(cfg, gauge, up), es)
    ensures var s := Run(cfg, Init(cfg, gauge, up), es);
            && (Quiet(s) ==> s.rx.queue == [] && s.log.received == s.rx.d.fed)
            && (Quiet(s) && s.rx.transportClosed ==> s.rx.finReceived)
            && (s.log.finSeen ==> s.life.reason != TransportClosed)
  {
    var s := Run(cfg, Init(cfg, gauge, up), es);
    InitInv(cfg, gauge, up);
    RunKeeps(cfg, Init(cfg, gauge, up), es, gauge);
    assert s.rx.d.fed + [] == s.rx.d.fed;
  }

  /** The adapter's promise is needed: a FIN that comes with data before the handshake is
      forgotten exactly when the buffer is still shorter than a nonce. */
  lemma FinWithDataLost(cfg: Config, s: State, data: bytes, others: nat)
    requires Inv(cfg, s, others) && Quiet(s) && !s.rx.handshakeDone && s.rx.queue == []
    requires !s.log.finSeen && !s.rx.transportClosed
    requires data != [] && |data| + s.acct.queuedBytes <= MAX_RX_BUFFER_BYTES
    ensures var r := OnData(cfg, s, data, true);
            && r.log.finSeen
            && (r.rx.pc == RxIdle && r.rx.queue == [] && !r.rx.finReceived && !r.life.terminated
                <==> Available(s.rx.d) + |data| < NONCE_LENGTH)
            && (Available(s.rx.d) + |data| < NONCE_LENGTH ==> OnClose(cfg, r).life.reason == TransportClosed)
  {
    var s1 := Enqueue(ResetIdle(s), data, true);
    assert s1.rx.queue == [Item(data, true)];
    var s2 := s1.(rx := Pop(s1.rx), acct := Unqueue(s1.acct, |data|));
    assert s2.rx.queue == [];
    var s3 := s2.(rx := s2.rx.(d := Feed(s2.rx.d, data)));
    assert OnData(cfg, s, data, true) == RxFed(cfg, s3);
    assert Available(s3.rx.d) == Available(s.rx.d) + |data|;
  }

  // Termination.

  /** The cleanup body runs at most once; a live tunnel that has registered has an armed
      idle timer; the outcome carries the first reason, never a placeholder; success means
      that the handshake finished and a byte arrived; the replies exclude each other. */
  lemma TerminationProtocol(cfg: Config, es: seq<Event>, gauge: nat, up: int)
    requires GoodConfig(cfg) && Legal(cfg, Init(cfg, gauge, up), es)
    ensures var s := Run(cfg, Init(cfg, gauge, up), es);
            && s.life.cleanups <= 1
            && (!s.life.terminated && s.main.pc != Registering ==> s.life.idleArmed)
            && (s.main.outcome.Some? ==>
                  var o := s.main.outcome.value;
                  && o.kind == s.life.reason && o.kind != Unknown && o.kind != LoopExit
                  && (o.success ==> o.handshakeDone && o.bytesReceived > 0))
            && !(s.life.failureSent && s.log.hsLive)
            && (s.log.written != [] ==> s.rx.successSent && !s.life.failureSent)
  {
    var s := Run(cfg, Init(cfg, gauge, up), es);
    InitInv(cfg, gauge, up);
    RunKeeps(cfg, Init(cfg, gauge, up), es, gauge);
    if s.rx.d.frames == [] {
      assert s.log.written == [];
    }
  }

  /** Something this run waits for settles by itself: local computation, a promise already
      settled, or an operation with a time limit of its own. The time limits are 5 s for a
      write in progress and half a second each for cancelling the reader and closing the
      writer in cleanup, and 15 s for every send but the one of FIN; a cancelled reader ends
      its pending read. */
  predicate Bounded(s: State) {
    || s.life.cleanPc == CleanWrite || s.life.cleanPc == CleanCancel || s.life.cleanPc == CleanClose
    || match s.main.pc
       case AwaitingHandshake => s.life.hs != HsPending
       case Reading => s.life.cancelled
       case AwaitingCompletion => s.life.cleanPc == CleanDone
       case AwaitingCleanup => s.life.cleanPc == CleanDone
       case SendingFin => false
       case Returned => false
       case _ => true
  }

  /** The run has not returned, its idle timer is gone, and nothing it waits for is bounded. */
  predicate Stalled(s: State) {
    s.main.pc != Returned && !s.life.idleArmed && !Bounded(s)
  }

  /** The three operations without a time limit, each where it holds up the return: closing
      the transport's writer for FIN, sending the failure reply, sending the success reply. */
  predicate WaitsOnPeer(s: State) {
    && s.life.terminated
    && match s.main.pc
       case SendingFin => s.life.cleanPc == CleanDone
       case AwaitingCleanup => s.life.cleanPc == CleanReply
       case AwaitingHandshake =>
         s.life.hs == HsPending && s.rx.pc == RxReply && (s.life.cleanPc == CleanReply || s.life.cleanPc == CleanDone)
       case _ => false
  }

  /** Until it returns, a run has an armed idle timer or waits for something bounded, except
      exactly where one of three unbounded operations holds it up. */
  lemma NeverStuck(cfg: Config, es: seq<Event>, gauge: nat, up: int)
    requires GoodConfig(cfg) && Legal(cfg, Init(cfg, gauge, up), es)
    ensures var s := Run(cfg, Init(cfg, gauge, up), es);
            && (Stalled(s) <==> WaitsOnPeer(s))
            && (Bounded(s) ==> Enabled(s, CleanResume) || Enabled(s, MainResume(Ok)))
  {
    InitInv(cfg, gauge, up);
    RunKeeps(cfg, Init(cfg, gauge, up), es, gauge);
    StalledIs(cfg, Run(cfg, Init(cfg, gauge, up), es), gauge);
  }

  lemma StalledIs(cfg: Config, s: State, others: nat)
    requires Inv(cfg, s, others)
    ensures Stalled(s) <==> WaitsOnPeer(s)
    ensures Bounded(s) ==> Enabled(s, CleanResume) || Enabled(s, MainResume(Ok))
  {
    hide DataOk, QueueOk, BothOk;
  }

  /** How many frames are already on their way to the client. */
  function InFlight(s: State): nat {
    if s.rx.pc == RxLength || s.rx.pc == RxPayload then 1 else 0
  }

  lemma StepAfterEnd(cfg: Config, s: State, e: Event, others: nat)
    requires GoodConfig(cfg) && Inv(cfg, s, others) && Enabled(s, e) && Contract(s, e) && s.life.terminated
    ensures var r := Step(cfg, s, e);
            s.rx.d.frames <= r.rx.d.frames && |r.rx.d.frames| + InFlight(r) <= |s.rx.d.frames| + InFlight(s)
  {
    var r := Step(cfg, s, e);
    match e
    case RxResume(ok) =>
      assert r == StepRx(cfg, s, ok);
      RxAfterEnd(cfg, s, ok, others);
    case _ =>
      OtherAfterEnd(cfg, s, e);
  }

  lemma OtherAfterEnd(cfg: Config, s: State, e: Event)
    requires s.life.terminated && !e.RxResume?
    ensures Step(cfg, s, e).rx.d == s.rx.d && Step(cfg, s, e).rx.pc == s.rx.pc
  {
  }

  /** With the tunnel terminated the decoding loop stops at its head. */
  lemma StoppedLoop(cfg: Config, s: State)
    requires s.life.terminated && !s.rx.curFin
    ensures RxDecode(cfg, s).rx.pc == RxIdle && RxTrim(cfg, s).rx.pc == RxIdle
    ensures RxDecode(cfg, s).rx.d.frames == s.rx.d.frames
  {
    var t := s.(rx := s.rx.(d := Trim(s.rx.d)));
    assert RxLoop(cfg, t) == RxFinally(cfg, t);
    assert RxTrim(cfg, s) == RxAfterData(cfg, t) == RxLoop(cfg, t);
    assert RxDecode(cfg, s) == RxTrim(cfg, s);
  }

  lemma DeriveAfterEnd(cfg: Config, s: State, ok: bool, others: nat)
    requires Inv(cfg, s, others) && s.rx.pc == RxDerive
    ensures var r := RxDerived(cfg, s, ok);
            r.rx.d.frames == s.rx.d.frames && InFlight(r) == 0
  {
    hide DataOk, QueueOk, CleanOk, MainOk, BothOk, RxReplied;
  }

  lemma ReplyAfterEnd(cfg: Config, s: State, others: nat)
    requires Inv(cfg, s, others) && s.rx.pc == RxReply && s.life.terminated
    ensures var r := RxReplied(cfg, s);
            r.rx.d.frames == s.rx.d.frames && InFlight(r) == 0
  {
    hide Core, RxDecode, RxTrim;
    StoppedLoop(cfg, s.(life := s.life.(hs := if s.life.hs == HsPending then HsResolved else s.life.hs)));
  }

  lemma CloseAfterEnd(cfg: Config, s: State)
    ensures var r := RxAfterClose(cfg, s);
            r.rx.d.frames == s.rx.d.frames && InFlight(r) == 0
  {
    hide RxFinally, Cleanup, CheckFullClose, ResetIdle;
    FinallyIsIdle(cfg, Cleanup(cfg, s, FramingError));
    FinallyIsIdle(cfg, Cleanup(cfg, s, TargetDialRefused));
    var s1 := CheckFullClose(cfg, s);
    FinallyIsIdle(cfg, s1);
    FinallyIsIdle(cfg, ResetIdle(s1));
  }

  lemma FinallyIsIdle(cfg: Config, s: State)
    ensures InFlight(RxFinally(cfg, s)) == 0
  {
    hide Cleanup;
  }

  lemma LengthAfterEnd(cfg: Config, s: State)
    ensures var r := RxLengthOpened(cfg, s);
            s.rx.pc == RxLength ==> r.rx.d.frames == s.rx.d.frames && InFlight(r) <= InFlight(s)
  {
  }

  lemma WriteAfterEnd(cfg: Config, s: State, p: bytes, ok: bool, others: nat)
    requires Inv(cfg, s, others) && s.rx.pc == RxWrite(p) && s.life.terminated
    ensures RxWritten(cfg, s, p, ok).rx.pc == RxIdle && RxWritten(cfg, s, p, ok).rx.d.frames == s.rx.d.frames
  {
    hide Core, RxDecode, RxTrim;
    var s1 := s.(life := s.life.(activeWrite := false));
    StoppedLoop(cfg, ResetIdle(s1.(log := s.log.(confirmed := s.log.confirmed + p))));
  }

  lemma PayloadAfterEnd(cfg: Config, s: State, others: nat)
    requires Inv(cfg, s, others) && s.rx.pc == RxPayload && s.life.terminated
    ensures var r := RxPayloadOpened(cfg, s);
            s.rx.d.frames <= r.rx.d.frames && |r.rx.d.frames| + InFlight(r) <= |s.rx.d.frames| + 1
  {
    hide Core, RxDecode, RxTrim;
    var d := s.rx.d;
    match cfg.cipher(ServerNonce(d)).open(d.flight.iv, d.flight.chunk)
    case None =>
    case Some(p) =>
      StoppedLoop(cfg, s.(rx := s.rx.(d := PayloadOpened(d, p))));
  }

  lemma RxAfterEnd(cfg: Config, s: State, ok: bool, others: nat)
    requires Inv(cfg, s, others) && s.rx.pc != RxIdle && s.life.terminated
    ensures var r := StepRx(cfg, s, ok);
            s.rx.d.frames <= r.rx.d.frames && |r.rx.d.frames| + InFlight(r) <= |s.rx.d.frames| + InFlight(s)
  {
    hide Inv, RxDerived, RxReplied, RxLengthOpened, RxPayloadOpened, RxWritten, RxAfterClose;
    match s.rx.pc
    case RxDerive => DeriveAfterEnd(cfg, s, ok, others);
    case RxReply => ReplyAfterEnd(cfg, s, others);
    case RxLength => LengthAfterEnd(cfg, s);
    case RxPayload => PayloadAfterEnd(cfg, s, others);
    case RxWrite(p) => WriteAfterEnd(cfg, s, p, ok, others);
    case RxClose => CloseAfterEnd(cfg, s);
  }

  lemma {:induction false} FewAfterEnd(cfg: Config, s: State, es: seq<Event>, others: nat)
    requires GoodConfig(cfg) && Inv(cfg, s, others) && Legal(cfg, s, es) && s.life.terminated
    ensures var r := Run(cfg, s, es);
            s.rx.d.frames <= r.rx.d.frames && |r.rx.d.frames| + InFlight(r) <= |s.rx.d.frames| + InFlight(s)
    decreases |es|
  {
    if es != [] {
      StepKeeps(cfg, s, es[0], others);
      StepGrows(cfg, s, es[0], others);
      StepAfterEnd(cfg, s, es[0], others);
      FewAfterEnd(cfg, Step(cfg, s, es[0]), es[1..], others);
    }
  }

  /** Once a run has terminated, at most one more frame is decoded and written: one whose
      decryption had already begun. */
  lemma AtMostOneAfterEnd(cfg: Config, es: seq<Event>, more: seq<Event>, gauge: nat, up: int)
    requires GoodConfig(cfg) && Legal(cfg, Init(cfg, gauge, up), es)
    requires var s := Run(cfg, Init(cfg, gauge, up), es);
             s.life.terminated && Legal(cfg, s, more)
    ensures var s := Run(cfg, Init(cfg, gauge, up), es);
            var r := Run(cfg, s, more);
            && s.rx.d.frames <= r.rx.d.frames
            && |r.rx.d.frames| <= |s.rx.d.frames| + InFlight(s) <= |s.rx.d.frames| + 1
            && r.log.written == Flatten(r.rx.d.frames)
  {
    hide Legal, Step, Core;
    var s := Run(cfg, Init(cfg, gauge, up), es);
    InitInv(cfg, gauge, up);
    RunKeeps(cfg, Init(cfg, gauge, up), es, gauge);
    FewAfterEnd(cfg, s, more, gauge);
    RunKeeps(cfg, s, more, gauge);
    WrittenIsFrames(cfg, Run(cfg, s, more), gauge);
  }

  lemma WrittenIsFrames(cfg: Config, s: State, others: nat)
    requires Inv(cfg, s, others)
    ensures s.log.written == Flatten(s.rx.d.frames)
  {
  }

  // On an honest stream the number is exact.

  /** How many more frames a terminated run will decode: the one being opened, or the one
      whose length is being opened if all of it is in the buffer. */
  function Due(s: State, ps: seq<bytes>): nat {
    var d := s.rx.d;
    if s.rx.pc == RxPayload then 1
    else if s.rx.pc == RxLength && |d.frames| < |ps| && Available(d) >= |ps[|d.frames|]| + TAG then 1
    else 0
  }

  lemma DuePayload(cfg: Config, s: State, others: nat, sn: Nonce, ps: seq<bytes>)
    requires GoodConfig(cfg) && Inv(cfg, s, others) && s.rx.pc == RxPayload && s.life.terminated
    requires Payloads(ps) && s.log.received <= Stream(cfg, sn, ps)
    ensures var r := RxPayloadOpened(cfg, s);
            |s.rx.d.frames| < |ps| && r.rx.d.frames == s.rx.d.frames + [ps[|s.rx.d.frames|]] && Due(r, ps) == 0
  {
    hide Core;
    var d := s.rx.d;
    PayloadFlight(cfg, s, others, sn, ps);
    var p := ps[|d.frames|];
    assert RxPayloadOpened(cfg, s) == RxPlain(cfg, s, p);
    StoppedLoop(cfg, s.(rx := s.rx.(d := PayloadOpened(d, p))));
  }

  lemma PayloadFlight(cfg: Config, s: State, others: nat, sn: Nonce, ps: seq<bytes>)
    requires GoodConfig(cfg) && Inv(cfg, s, others) && s.rx.pc == RxPayload
    requires Payloads(ps) && s.log.received <= Stream(cfg, sn, ps)
    ensures var d := s.rx.d;
            && d.flight.PayloadFrame? && !s.rx.curFin && ServerNonce(d) == sn && |d.frames| < |ps|
            && cfg.cipher(sn).open(d.flight.iv, d.flight.chunk) == Some(ps[|d.frames|])
  {
    var d := s.rx.d;
    HonestFed(cfg, s, others, sn, ps);
    HonestPayload(cfg.cipher(sn), d, Stream(cfg, sn, ps)[|d.fed|..], ps);
  }

  lemma DueLength(cfg: Config, s: State, others: nat, sn: Nonce, ps: seq<bytes>)
    requires GoodConfig(cfg) && Inv(cfg, s, others) && s.rx.pc == RxLength && s.life.terminated
    requires Payloads(ps) && s.log.received <= Stream(cfg, sn, ps)
    ensures var r := RxLengthOpened(cfg, s);
            r.rx.d.frames == s.rx.d.frames && Due(r, ps) == Due(s, ps)
  {
    hide Core;
    var d := s.rx.d;
    LengthFlight(cfg, s, others, sn, ps);
    var n := |ps[|d.frames|]|;
    var s1 := s.(rx := s.rx.(d := LengthOpened(d, n)));
    assert RxLengthOpened(cfg, s) == RxToPayload(cfg, s1);
    if Available(d) < n + TAG {
      StoppedLoop(cfg, s1);
      assert RxToPayload(cfg, s1) == RxTrim(cfg, s1);
    }
  }

  lemma LengthFlight(cfg: Config, s: State, others: nat, sn: Nonce, ps: seq<bytes>)
    requires GoodConfig(cfg) && Inv(cfg, s, others) && s.rx.pc == RxLength
    requires Payloads(ps) && s.log.received <= Stream(cfg, sn, ps)
    ensures var d := s.rx.d;
            && d.flight.LengthFrame? && !s.rx.curFin && ServerNonce(d) == sn && |d.frames| < |ps|
            && OpenLength(cfg.cipher(sn), d.flight.iv, d.flight.chunk) == Some(|ps[|d.frames|]|)
  {
    var d := s.rx.d;
    HonestFed(cfg, s, others, sn, ps);
    HonestLength(cfg.cipher(sn), d, Stream(cfg, sn, ps)[|d.fed|..], ps);
  }

  lemma DueElse(cfg: Config, s: State, ok: bool, others: nat, ps: seq<bytes>)
    requires GoodConfig(cfg) && Inv(cfg, s, others) && s.life.terminated
    requires s.rx.pc != RxLength && s.rx.pc != RxPayload && s.rx.pc != RxIdle
    ensures var r := StepRx(cfg, s, ok);
            r.rx.d.frames == s.rx.d.frames && Due(r, ps) == 0
  {
    RxAfterEnd(cfg, s, ok, others);
    var r := StepRx(cfg, s, ok);
    assert InFlight(r) == 0 && |r.rx.d.frames| == |s.rx.d.frames|;
  }

  lemma StepDue(cfg: Config, s: State, e: Event, others: nat, sn: Nonce, ps: seq<bytes>)
    requires GoodConfig(cfg) && Inv(cfg, s, others) && Enabled(s, e) && s.life.terminated
    requires Payloads(ps) && s.log.received <= Stream(cfg, sn, ps)
    ensures var r := Step(cfg, s, e);
            |r.rx.d.frames| + Due(r, ps) == |s.rx.d.frames| + Due(s, ps)
  {
    hide Inv, Due;
    match e
    case RxResume(ok) => ResumeDue(cfg, s, ok, others, sn, ps);
    case _ =>
      OtherAfterEnd(cfg, s, e);
      SameDue(s, Step(cfg, s, e), ps);
  }

  lemma SameDue(s: State, r: State, ps: seq<bytes>)
    requires r.rx.d == s.rx.d && r.rx.pc == s.rx.pc
    ensures Due(r, ps) == Due(s, ps)
  {
  }

  lemma ResumeDue(cfg: Config, s: State, ok: bool, others: nat, sn: Nonce, ps: seq<bytes>)
    requires GoodConfig(cfg) && Inv(cfg, s, others) && s.rx.pc != RxIdle && s.life.terminated
    requires Payloads(ps) && s.log.received <= Stream(cfg, sn, ps)
    ensures var r := Step(cfg, s, RxResume(ok));
            |r.rx.d.frames| + Due(r, ps) == |s.rx.d.frames| + Due(s, ps)
  {
    hide Inv, RxLengthOpened, RxPayloadOpened;
    var r := Step(cfg, s, RxResume(ok));
    assert r == StepRx(cfg, s, ok);
    match s.rx.pc
    case RxPayload =>
      assert r == RxPayloadOpened(cfg, s);
      DuePayload(cfg, s, others, sn, ps);
    case RxLength =>
      assert r == RxLengthOpened(cfg, s);
      DueLength(cfg, s, others, sn, ps);
    case _ => DueElse(cfg, s, ok, others, ps);
  }

  lemma {:induction false} RunDue(cfg: Config, s: State, es: seq<Event>, others: nat, sn: Nonce, ps: seq<bytes>)
    requires GoodConfig(cfg) && Inv(cfg, s, others) && Legal(cfg, s, es) && s.life.terminated
    requires Payloads(ps) && Run(cfg, s, es).log.received <= Stream(cfg, sn, ps)
    ensures var r := Run(cfg, s, es);
            |r.rx.d.frames| + Due(r, ps) == |s.rx.d.frames| + Due(s, ps)
    decreases |es|
  {
    hide Inv, Step, Due, Enabled, Contract;
    if es != [] {
      RunGrows(cfg, s, es, others);
      StepKeeps(cfg, s, es[0], others);
      StepGrows(cfg, s, es[0], others);
      StepDue(cfg, s, es[0], others, sn, ps);
      RunDue(cfg, Step(cfg, s, es[0]), es[1..], others, sn, ps);
    }
  }

  /** On an honest stream it is exact: once the receive task of a terminated run has come to
      rest, the client has been written one frame more than at termination if a payload was
      being opened then, or a length whose payload was all in the buffer; else none. */
  lemma AfterEndExact(
      cfg: Config, es: seq<Event>, more: seq<Event>, gauge: nat, up: int, sn: Nonce, ps: seq<bytes>)
    requires GoodConfig(cfg) && Legal(cfg, Init(cfg, gauge, up), es) && Payloads(ps)
    requires var s := Run(cfg, Init(cfg, gauge, up), es);
             && s.life.terminated && Legal(cfg, s, more)
             && Run(cfg, s, more).log.received <= Stream(cfg, sn, ps)
             && Run(cfg, s, more).rx.pc == RxIdle
    ensures var s := Run(cfg, Init(cfg, gauge, up), es);
            var r := Run(cfg, s, more);
            && |r.rx.d.frames| == |s.rx.d.frames| + Due(s, ps)
            && r.log.written == Flatten(r.rx.d.frames)
  {
    hide Legal, Step, Core;
    var s := Run(cfg, Init(cfg, gauge, up), es);
    InitInv(cfg, gauge, up);
    RunKeeps(cfg, Init(cfg, gauge, up), es, gauge);
    RunDue(cfg, s, more, gauge, sn, ps);
    RunKeeps(cfg, s, more, gauge);
    WrittenIsFrames(cfg, Run(cfg, s, more), gauge);
  }

  /** The first termination decides: whatever happens later, the reason stays and the cleanup
      body is not run again. */
  lemma FirstReasonStays(cfg: Config, es: seq<Event>, more: seq<Event>, gauge: nat, up: int)
    requires GoodConfig(cfg) && Legal(cfg, Init(cfg, gauge, up), es)
    requires var s := Run(cfg, Init(cfg, gauge, up), es);
             s.life.terminated && Legal(cfg, s, more)
    ensures var s := Run(cfg, Init(cfg, gauge, up), es);
            var r := Run(cfg, s, more);
            r.life.terminated && r.life.reason == s.life.reason && r.life.cleanups == 1
  {
    hide Legal, Step, Core;
    InitInv(cfg, gauge, up);
    RunKeeps(cfg, Init(cfg, gauge, up), es, gauge);
    ReasonIsFinal(cfg, Run(cfg, Init(cfg, gauge, up), es), more, gauge);
  }

  // Upstream.

  /** Everything read so far has been sealed: the relay loop is back at its read, or over. */
  predicate AllSealed(pc: MainPc) {
    pc == Reading || pc == SendingFin || pc == AwaitingCompletion
  }

  /** What goes up is the client nonce and then frames at consecutive nonces: the header
      first, then the leftover followed by the client's bytes, in order and without gaps,
      cut into pieces that are never empty; and every piece that was read is either sealed
      or still to be sealed while the tunnel lives. */
  lemma UpstreamExact(cfg: Config, es: seq<Event>, gauge: nat, ups: nat)
    requires GoodConfig(cfg) && Legal(cfg, Init(cfg, gauge, ups), es)
    ensures var m := Run(cfg, Init(cfg, gauge, ups), es).main;
            && WireOk(cfg, m.u) && Sealed(m.u) <= Source(cfg, m.u)
            && (AllSealed(m.pc) ==> Sealed(m.u) == Source(cfg, m.u))
  {
    UplinkInvariant(cfg, es, gauge, ups);
    var m := Run(cfg, Init(cfg, gauge, ups), es).main;
    ProgressIsPrefix(cfg, m.pc, m.u);
  }

  lemma UplinkInvariant(cfg: Config, es: seq<Event>, gauge: nat, ups: nat)
    requires GoodConfig(cfg) && Legal(cfg, Init(cfg, gauge, ups), es)
    ensures UpOk(cfg, Run(cfg, Init(cfg, gauge, ups), es).main, ups)
  {
    InitInv(cfg, gauge, ups);
    RunUpKeeps(cfg, Init(cfg, gauge, ups), es, gauge, ups);
  }

  /** When the run returns, its client chunks have left the shared upload gauge as they
      found it, wherever a send failed; only what was given up while sealing stays counted. */
  lemma UploadGaugeRestored(cfg: Config, es: seq<Event>, gauge: nat, ups: nat)
    requires GoodConfig(cfg) && Legal(cfg, Init(cfg, gauge, ups), es)
    ensures var m := Run(cfg, Init(cfg, gauge, ups), es).main;
            && m.upGauge >= ups
            && (!m.pc.SealingData? && !m.pc.SendingData? ==> m.upGauge == ups + m.upLeak)
  {
    UplinkInvariant(cfg, es, gauge, ups);
  }

  lemma StepLeaks(cfg: Config, s: State, e: Event, others: nat, ups: nat)
    requires GoodConfig(cfg) && Inv(cfg, s, others) && Enabled(s, e) && UpOk(cfg, s.main, ups)
    ensures Step(cfg, s, e).main.upLeak >= s.main.upLeak
    ensures Step(cfg, s, e).main.upLeak > s.main.upLeak <==>
            s.main.pc.SealingData? && e.MainResume? && e.io != Ok
  {
    match e
    case RxResume(ok) =>
    case MainResume(io) =>
      if s.main.pc.SealingData? && io != Ok {
        SealLeaks(cfg, s, io, ups);
      } else {
        NoLeak(cfg, s, io);
      }
    case _ => OtherGrows(cfg, s, e, others);
  }

  /** In this run the sealing of a piece of a client chunk threw. */
  predicate SealThrew(cfg: Config, s: State, es: seq<Event>)
    decreases |es|
  {
    es != [] &&
    ((s.main.pc.SealingData? && es[0].MainResume? && es[0].io != Ok) || SealThrew(cfg, Step(cfg, s, es[0]), es[1..]))
  }

  lemma {:induction false} RunLeaks(cfg: Config, s: State, es: seq<Event>, others: nat, ups: nat)
    requires GoodConfig(cfg) && Inv(cfg, s, others) && Legal(cfg, s, es) && UpOk(cfg, s.main, ups)
    ensures Run(cfg, s, es).main.upLeak >= s.main.upLeak
    ensures Run(cfg, s, es).main.upLeak > s.main.upLeak <==> SealThrew(cfg, s, es)
    decreases |es|
  {
    hide Inv, UpOk, Step, Enabled, Contract;
    if es != [] {
      StepKeeps(cfg, s, es[0], others);
      StepUpKeeps(cfg, s, es[0], others, ups);
      StepLeaks(cfg, s, es[0], others, ups);
      RunLeaks(cfg, Step(cfg, s, es[0]), es[1..], others, ups);
    }
  }

  /** A run that has returned has left bytes behind in the shared upload gauge exactly if
      sealing a client piece threw in it. */
  lemma LeakExact(cfg: Config, es: seq<Event>, gauge: nat, ups: nat)
    requires GoodConfig(cfg) && Legal(cfg, Init(cfg, gauge, ups), es)
    requires Run(cfg, Init(cfg, gauge, ups), es).main.pc == Returned
    ensures Run(cfg, Init(cfg, gauge, ups), es).main.upGauge > ups <==> SealThrew(cfg, Init(cfg, gauge, ups), es)
    ensures Run(cfg, Init(cfg, gauge, ups), es).main.upGauge >= ups
  {
    hide Legal, Step, Core, WireOk, Progress, SealThrew;
    InitInv(cfg, gauge, ups);
    UplinkInvariant(cfg, es, gauge, ups);
    InitUp(cfg, gauge, ups);
    RunLeaks(cfg, Init(cfg, gauge, ups), es, gauge, ups);
  }

  lemma InitUp(cfg: Config, gauge: nat, ups: nat)
    ensures UpOk(cfg, Init(cfg, gauge, ups).main, ups)
  {
  }

  lemma SealLeaks(cfg: Config, s: State, io: Io, ups: nat)
    requires UpOk(cfg, s.main, ups) && s.main.pc.SealingData? && io != Ok
    ensures StepMain(cfg, s, io).main.upLeak > s.main.upLeak
  {
    hide WireOk, Cleanup;
    var v, off := s.main.pc.value, s.main.pc.off;
    assert off < |v|;
    assert StepMain(cfg, s, io) == MainSealed(cfg, s, v, off, false);
  }

  lemma NoLeak(cfg: Config, s: State, io: Io)
    requires s.main.pc.SealingData? ==> io == Ok
    ensures StepMain(cfg, s, io).main.upLeak == s.main.upLeak
  {
  }
}
