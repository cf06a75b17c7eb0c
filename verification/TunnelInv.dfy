/** The invariant of the tunnel machine, in pieces, and its preservation by every step. */
module TunnelInv {
  import opened Bytes
  import opened Aead
  import opened Decoder
  import opened Tunnel

  function Cat(queue: seq<Item>): bytes {
    if queue == [] then [] else queue[0].data + Cat(queue[1..])
  }

  lemma {:induction false} CatSnoc(queue: seq<Item>, item: Item)
    ensures Cat(queue + [item]) == Cat(queue) + item.data
  {
    if queue == [] {
      assert Cat([item]) == item.data;
    } else {
      assert (queue + [item])[1..] == queue[1..] + [item];
      CatSnoc(queue[1..], item);
    }
  }

  function ServerCipher(cfg: Config, d: Rx): Cipher {
    cfg.cipher(ServerNonce(d))
  }

  // Invariants that hold also in the middle of a segment of the receive task.

  /** Termination happens once and its reason is final; a live tunnel has an idle timer; the
      success reply and the end of the handshake coincide; a failure reply excludes both. The
      client's streams are left alone by an attempt that is not the last and never came up,
      but for the end of the server's stream. */
  ghost predicate LifeOk(cfg: Config, l: Life, rx: Receive, g: Log, m: Main) {
    && (l.terminated <==> l.cleanPc != NoCleanup)
    && l.cleanups == (if l.terminated then 1 else 0)
    && (if l.terminated then
          l.reason != Unknown && l.reason != LoopExit && !l.idleArmed && (l.hs == HsPending ==> rx.handshakeDone)
        else
          l.reason == Unknown && (m.pc != Registering ==> l.idleArmed))
    && (l.hs == HsRejected ==> l.terminated)
    && (l.hs == HsResolved ==> rx.handshakeDone)
    && rx.successSent == rx.handshakeDone
    && (g.hsLive ==> rx.handshakeDone)
    && (rx.handshakeDone && !l.terminated ==> g.hsLive)
    && (l.failureSent ==> l.terminated && !g.hsLive && cfg.lastAttempt)
    && (cfg.lastAttempt && !rx.handshakeDone && l.terminated && l.cleanPc != CleanWrite ==> l.failureSent)
    && (l.cancelled ==> cfg.lastAttempt || rx.handshakeDone)
    && (l.writeClosed ==> cfg.lastAttempt || rx.handshakeDone || rx.finReceived)
    && (rx.d.frames != [] ==> g.hsLive)
  }

  /** Cleanup order: once it is done, a tunnel that was up, and any last attempt, has
      cancelled the client reader and closed the client writer. */
  ghost predicate CleanOk(cfg: Config, l: Life, g: Log) {
    && (l.cleanPc == CleanReply ==> !g.hsLive)
    && (l.cleanPc == CleanCancel || l.cleanPc == CleanClose ==> l.cancelled)
    && (l.cleanPc == CleanClose ==> l.writeClosed)
    && (l.cleanPc == CleanDone && (g.hsLive || cfg.lastAttempt) ==> l.cancelled && l.writeClosed)
  }

  predicate Relaying(pc: MainPc) {
    pc == Reading || pc == SendingFin || pc.SealingData? || pc.SendingData? || pc == AwaitingCompletion
  }

  ghost predicate MainOk(l: Life, rx: Receive, g: Log, m: Main) {
    && (Relaying(m.pc) ==> g.hsLive)
    && (m.pc == AwaitingCleanup || m.pc == Returned ==> l.terminated)
    && (m.pc == Returned <==> m.outcome.Some?)
    && (m.readClosed ==>
          m.pc == SendingFin || m.pc == AwaitingCompletion || m.pc == AwaitingCleanup || m.pc == Returned)
    && (m.pc == SendingFin || m.pc == AwaitingCompletion ==> m.readClosed)
    && (m.pc == AwaitingHandshake && !rx.handshakeDone && !l.terminated ==> l.dialArmed)
    && (m.u.clientRead != [] ==> g.hsLive)
    && (m.outcome.Some? ==> OutcomeOk(l, rx, m.outcome.value))
  }

  ghost predicate OutcomeOk(l: Life, rx: Receive, o: Outcome) {
    && l.cleanPc == CleanDone
    && o.kind == l.reason
    && (o.success <==>
          o.kind == BothClosed ||
          (o.handshakeDone && o.bytesReceived > 0 && (o.kind == IdleTimeout || o.kind == TransportClosed)))
    && (o.success ==> o.handshakeDone && o.bytesReceived > 0)
    && o.bytesReceived <= rx.recv
    && (o.handshakeDone ==> rx.handshakeDone)
  }

  /** Everything received, decoded and written fits together. */
  ghost predicate DataOk(cfg: Config, l: Life, rx: Receive, g: Log) {
    && Rep(ServerCipher(cfg, rx.d), rx.d)
    && g.written == Flatten(rx.d.frames)
    && rx.recv == |g.written|
    && (rx.handshakeDone ==> rx.d.snSet)
    && (rx.d.corrupt || g.writeFailed ==> l.terminated && !rx.finReceived)
    && rx.d.fed <= g.received
    && g.received == rx.d.fed + Cat(rx.queue)
    && (rx.finReceived ==> g.finSeen && rx.queue == [] && g.received == rx.d.fed)
    && (l.reason == DecryptError ==> rx.d.corrupt)
  }

  /** Byte accounting; `others` is what other live tunnels hold in the shared gauge. */
  ghost predicate QueueOk(l: Life, a: Acct, rx: Receive, g: Log, others: nat) {
    && a.queuedBytes == (if l.terminated then 0 else |Cat(rx.queue)|)
    && a.queuedBytes <= MAX_RX_BUFFER_BYTES
    && a.gauge == others + a.queuedBytes
    && FinsLast(rx.queue)
    && (!g.finSeen ==> forall i :: 0 <= i < |rx.queue| ==> !rx.queue[i].fin)
    && (l.reason == TransportClosed ==> !g.finSeen)
  }

  predicate FinsLast(queue: seq<Item>) {
    forall i :: 0 <= i < |queue| && queue[i].fin ==> i == |queue| - 1 && queue[i].data == []
  }

  ghost predicate BothOk(l: Life, rx: Receive, g: Log, m: Main) {
    l.reason == BothClosed ==>
      m.readClosed && rx.finReceived && g.hsLive && !Leftover(rx.d) && rx.d.flight.Nothing? && rx.recv > 0
  }

  ghost predicate Core(cfg: Config, s: State, others: nat) {
    && LifeOk(cfg, s.life, s.rx, s.log, s.main)
    && CleanOk(cfg, s.life, s.log)
    && MainOk(s.life, s.rx, s.log, s.main)
    && DataOk(cfg, s.life, s.rx, s.log)
    && QueueOk(s.life, s.acct, s.rx, s.log, others)
    && BothOk(s.life, s.rx, s.log, s.main)
  }

  // Invariants tied to where the receive task stands.

  /** Every write was confirmed, except one that failed. */
  predicate Confirmed(g: Log) {
    if g.writeFailed then |g.confirmed| < |g.written| else g.confirmed == g.written
  }

  /** The receive task is not in the middle of an opening, a reply or a write. */
  ghost predicate Settled(l: Life, rx: Receive, g: Log) {
    && rx.d.flight.Nothing?
    && !l.activeWrite
    && Confirmed(g)
    && (rx.handshakeDone ==> l.hs != HsPending)
    && (!l.terminated ==> rx.d.snSet == rx.handshakeDone)
  }

  /** An accepted FIN is still at the end of the queue until it is processed. */
  ghost predicate FinTracked(l: Life, rx: Receive, g: Log) {
    g.finSeen && !l.terminated && !rx.finReceived ==> rx.queue != [] && rx.queue[|rx.queue| - 1].fin
  }

  ghost predicate Drained(l: Life, rx: Receive) {
    !l.terminated || rx.finReceived ==> Starved(rx.d)
  }

  /** The end of the server's stream has been passed on. A tunnel lives on after it only if
      it is up and has whole frames only, and both sides closed without termination only
      while the main task is about to check. */
  ghost predicate HalfClosed(l: Life, rx: Receive, m: Main) {
    && (rx.finReceived ==> l.writeClosed)
    && (rx.finReceived && !l.terminated ==> rx.handshakeDone && !Leftover(rx.d))
    && (m.readClosed && rx.finReceived && !l.terminated ==> m.pc == SendingFin)
  }

  /** No lost wakeup: an idle receive task of a live tunnel has nothing to do, or a call is
      scheduled; and if the transport has closed, FIN was received. */
  ghost predicate Awake(l: Life, rx: Receive) {
    !l.terminated ==>
      && (rx.queue != [] ==> rx.microtasks > 0)
      && (rx.queue == [] && rx.transportClosed ==> rx.finReceived)
  }

  ghost predicate Busy(l: Life, rx: Receive, g: Log) {
    && !rx.curFin && !rx.finReceived
    && FinTracked(l, rx, g)
    && (rx.pc != RxReply && rx.handshakeDone ==> l.hs != HsPending)
    && !g.writeFailed
    && (!rx.pc.RxWrite? ==> !l.activeWrite && g.confirmed == g.written)
  }

  ghost predicate Waits(s: State) {
    var l, rx, g := s.life, s.rx, s.log;
    match rx.pc
    case RxIdle =>
      Settled(l, rx, g) && FinTracked(l, rx, g) && Drained(l, rx) && HalfClosed(l, rx, s.main) && Awake(l, rx)
    case RxDerive =>
      Busy(l, rx, g) && rx.d.snSet && !rx.handshakeDone && rx.d.flight.Nothing? && !rx.d.corrupt
    case RxReply => Busy(l, rx, g) && rx.handshakeDone && rx.d.flight.Nothing? && !rx.d.corrupt
    case RxLength => Busy(l, rx, g) && g.hsLive && rx.d.flight.LengthFrame? && !rx.d.corrupt
    case RxPayload => Busy(l, rx, g) && g.hsLive && rx.d.flight.PayloadFrame? && !rx.d.corrupt
    case RxWrite(p) =>
      Busy(l, rx, g) && g.hsLive && rx.d.flight.Nothing? && !rx.d.corrupt && p != [] &&
      g.confirmed + p == g.written && (!l.terminated ==> l.activeWrite)
    case RxClose =>
      Settled(l, rx, g) && rx.finReceived && l.writeClosed && Drained(l, rx)
  }

  ghost predicate Inv(cfg: Config, s: State, others: nat) {
    Core(cfg, s, others) && Waits(s)
  }

  lemma InitInv(cfg: Config, gauge: nat, upGauge: int)
    ensures Inv(cfg, Init(cfg, gauge, upGauge), gauge)
  {
  }

  // Cleanup.

  /** What a termination for a given reason needs. */
  ghost predicate MayEnd(s: State, why: Reason) {
    && why != Unknown && why != LoopExit
    && (why == TransportClosed ==> !s.log.finSeen)
    && (why == DecryptError ==> s.rx.d.corrupt)
    && (why == BothClosed ==>
          s.main.readClosed && s.rx.finReceived && s.log.hsLive && !Leftover(s.rx.d) &&
          s.rx.d.flight.Nothing? && s.rx.recv > 0)
  }

  /** Core except what a failed opening or write needs from the termination that follows. */
  ghost predicate Almost(cfg: Config, s: State, others: nat) {
    && LifeOk(cfg, s.life, s.rx, s.log, s.main)
    && CleanOk(cfg, s.life, s.log)
    && MainOk(s.life, s.rx, s.log, s.main)
    && DataOk(cfg, s.life.(terminated := true), s.rx, s.log)
    && QueueOk(s.life, s.acct, s.rx, s.log, others)
    && BothOk(s.life, s.rx, s.log, s.main)
  }

  lemma CleanupAlmost(cfg: Config, s: State, why: Reason, others: nat)
    requires Almost(cfg, s, others) && (!s.life.terminated ==> MayEnd(s, why))
    ensures Core(cfg, Cleanup(cfg, s, why), others)
    ensures Cleanup(cfg, s, why).life.terminated
    ensures Cleanup(cfg, s, why).life.activeWrite == s.life.activeWrite
    ensures s.life.writeClosed == Cleanup(cfg, s, why).life.writeClosed
    ensures s.rx.handshakeDone ==> Cleanup(cfg, s, why).life.hs == s.life.hs
    ensures s.life.terminated ==> Cleanup(cfg, s, why) == s
  {
  }

  lemma CleanupCore(cfg: Config, s: State, why: Reason, others: nat)
    requires Core(cfg, s, others) && (!s.life.terminated ==> MayEnd(s, why))
    ensures Core(cfg, Cleanup(cfg, s, why), others)
    ensures Waits(s) ==> Waits(Cleanup(cfg, s, why))
    ensures Settled(s.life, s.rx, s.log) ==> Settled(Cleanup(cfg, s, why).life, s.rx, s.log)
  {
    CleanupAlmost(cfg, s, why, others);
  }
}
