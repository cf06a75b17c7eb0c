/** Whole runs of one tunnel: every step keeps the invariants, and what follows from them. */
module TunnelRuns {
  import opened Bytes
  import opened Decoder
  import opened Tunnel
  import opened TunnelInv
  import opened TunnelRx
  import opened TunnelMain

  /** Every step keeps the invariant. */
  lemma StepKeeps(cfg: Config, s: State, e: Event, others: nat)
    requires GoodConfig(cfg) && Inv(cfg, s, others) && Enabled(s, e) && Contract(s, e)
    ensures Inv(cfg, Step(cfg, s, e), others)
  {
    hide Inv;
    var r := Step(cfg, s, e);
    match e
    case Data(data, fin) =>
      assert r == OnData(cfg, s, data, fin);
      OnDataKeeps(cfg, s, data, fin, others);
    case TransportClose =>
      assert r == OnClose(cfg, s);
      OnCloseKeeps(cfg, s, others);
    case RxResume(ok) =>
      assert r == StepRx(cfg, s, ok);
      StepRxKeeps(cfg, s, ok, others);
    case MainResume(io) =>
      assert r == StepMain(cfg, s, io);
      StepMainKeeps(cfg, s, io, others);
    case _ => OtherKeeps(cfg, s, e, others);
  }

  lemma OtherKeeps(cfg: Config, s: State, e: Event, others: nat)
    requires GoodConfig(cfg) && Inv(cfg, s, others) && Enabled(s, e)
    requires e == TransportError || e == IdleFires || e == DialFires || e == RxMicrotask || e == CleanResume
    ensures Inv(cfg, Step(cfg, s, e), others)
  {
    match e
    case TransportError => CleanupCore(cfg, s, StreamError, others);
    case IdleFires => IdleKeeps(cfg, s, others);
    case DialFires => DialTimerKeeps(cfg, s, others);
    case RxMicrotask => MicrotaskKeeps(cfg, s, others);
    case CleanResume => CleanResumeKeeps(cfg, s, others);
  }

  lemma IdleKeeps(cfg: Config, s: State, others: nat)
    requires Inv(cfg, s, others) && s.life.idleArmed
    ensures Inv(cfg, Cleanup(cfg, s.(life := s.life.(idleArmed := false)), IdleTimeout), others)
  {
    CleanupCore(cfg, s, IdleTimeout, others);
  }

  lemma StillLive(cfg: Config, s: State, others: nat)
    requires Inv(cfg, s, others)
    ensures s.life.terminated <==> s.life.cleanPc != NoCleanup
  {
  }

  lemma TimerIrrelevant(cfg: Config, s: State, why: Reason)
    requires s.life.cleanPc == NoCleanup
    ensures Cleanup(cfg, s.(life := s.life.(dialArmed := false)), why) == Cleanup(cfg, s, why)
  {
  }

  lemma NoDialTimer(cfg: Config, s: State, others: nat)
    requires Inv(cfg, s, others) && (s.rx.handshakeDone || s.life.terminated)
    ensures Inv(cfg, s.(life := s.life.(dialArmed := false)), others)
  {
    hide Rep, Cat, Flatten, FinsLast, Starved;
  }

  lemma DialTimerKeeps(cfg: Config, s: State, others: nat)
    requires Inv(cfg, s, others) && s.life.dialArmed
    ensures Inv(cfg, Step(cfg, s, DialFires), others)
  {
    hide Core, Waits, Cleanup;
    var s1 := s.(life := s.life.(dialArmed := false));
    if !s.rx.handshakeDone && !s.life.terminated {
      StillLive(cfg, s, others);
      CleanupCore(cfg, s, HandshakeTimeout, others);
      TimerIrrelevant(cfg, s, HandshakeTimeout);
    } else {
      NoDialTimer(cfg, s, others);
    }
  }

  lemma MicrotaskKeeps(cfg: Config, s: State, others: nat)
    requires GoodConfig(cfg) && Inv(cfg, s, others) && s.rx.microtasks > 0
    ensures Inv(cfg, Step(cfg, s, RxMicrotask), others)
  {
    hide Rep, Cat, Flatten, FinsLast, Starved, RxStart;
    var s1 := s.(rx := s.rx.(microtasks := s.rx.microtasks - 1));
    assert Core(cfg, s1, others);
    StartKeeps(cfg, s1, others);
  }

  lemma CleanResumeKeeps(cfg: Config, s: State, others: nat)
    requires Inv(cfg, s, others) && s.life.cleanPc != NoCleanup
    ensures Inv(cfg, s.(life := StepClean(cfg, s.rx, s.life)), others)
  {
    hide Rep, Cat, Flatten, FinsLast, Starved;
  }

  // What a step can add.

  /** Facts that are never taken back, and byte streams that only get longer. */
  ghost predicate Grows(s: State, r: State) {
    && LifeGrows(s.life, r.life)
    && (s.rx.handshakeDone ==> r.rx.handshakeDone)
    && (s.log.hsLive ==> r.log.hsLive)
    && (s.life.terminated ==> r.log.hsLive == s.log.hsLive)
    && s.log.received <= r.log.received
    && s.log.written <= r.log.written
    && s.main.u.clientRead <= r.main.u.clientRead
    && (s.main.outcome.Some? ==> r.main == s.main)
  }

  /** A payload is handed to the client only by a tunnel that came up before it was
      terminated; client bytes are taken only by a tunnel that is relaying. */
  ghost predicate Licensed(s: State, r: State) {
    && (r.log.written != s.log.written ==> s.log.hsLive && !r.life.failureSent)
    && (r.main.u.clientRead != s.main.u.clientRead ==> s.log.hsLive && s.main.outcome.None?)
  }

  lemma RxGrows(cfg: Config, s: State, ok: bool, others: nat)
    requires Inv(cfg, s, others)
    ensures Grows(s, StepRx(cfg, s, ok)) && (StepRx(cfg, s, ok).log.written != s.log.written ==> s.log.hsLive)
  {
    hide DataOk, QueueOk, CleanOk, MainOk, BothOk, Starved;
    var r := StepRx(cfg, s, ok);
    match s.rx.pc
    case RxIdle =>
    case RxDerive => assert r == RxDerived(cfg, s, ok);
    case RxReply => assert r == RxReplied(cfg, s);
    case RxLength => assert r == RxLengthOpened(cfg, s);
    case RxPayload => assert r == RxPayloadOpened(cfg, s);
    case RxWrite(p) => assert r == RxWritten(cfg, s, p, ok);
    case RxClose => assert r == RxAfterClose(cfg, s);
  }

  lemma MainGrows(cfg: Config, s: State, io: Io, others: nat)
    requires Inv(cfg, s, others) && Enabled(s, MainResume(io))
    ensures Grows(s, StepMain(cfg, s, io)) && Licensed(s, StepMain(cfg, s, io))
  {
  }

  lemma OtherGrows(cfg: Config, s: State, e: Event, others: nat)
    requires GoodConfig(cfg) && Inv(cfg, s, others) && Enabled(s, e) && !e.RxResume? && !e.MainResume?
    ensures Grows(s, Step(cfg, s, e)) && Step(cfg, s, e).main == s.main
    ensures Step(cfg, s, e).log.written == s.log.written
  {
  }

  lemma StepGrows(cfg: Config, s: State, e: Event, others: nat)
    requires GoodConfig(cfg) && Inv(cfg, s, others) && Enabled(s, e) && Contract(s, e)
    ensures Grows(s, Step(cfg, s, e)) && Licensed(s, Step(cfg, s, e))
  {
    StepKeeps(cfg, s, e, others);
    var r := Step(cfg, s, e);
    match e
    case RxResume(ok) =>
      assert r == StepRx(cfg, s, ok);
      RxGrows(cfg, s, ok, others);
    case MainResume(io) =>
      assert r == StepMain(cfg, s, io);
      MainGrows(cfg, s, io, others);
    case _ =>
      OtherGrows(cfg, s, e, others);
  }

  // Runs.

  /** A sequence of events that can happen from s, with the stream adapter's contract. */
  predicate Legal(cfg: Config, s: State, es: seq<Event>)
    decreases |es|
  {
    es == [] || (Enabled(s, es[0]) && Contract(s, es[0]) && Legal(cfg, Step(cfg, s, es[0]), es[1..]))
  }

  function Run(cfg: Config, s: State, es: seq<Event>): State
    decreases |es|
  {
    if es == [] then s else Run(cfg, Step(cfg, s, es[0]), es[1..])
  }

  lemma {:induction false} RunKeeps(cfg: Config, s: State, es: seq<Event>, others: nat)
    requires GoodConfig(cfg) && Inv(cfg, s, others) && Legal(cfg, s, es)
    ensures Inv(cfg, Run(cfg, s, es), others)
    decreases |es|
  {
    hide Inv;
    if es != [] {
      StepKeeps(cfg, s, es[0], others);
      RunKeeps(cfg, Step(cfg, s, es[0]), es[1..], others);
    }
  }

  /** Once terminated, always terminated: with the same reason, and cleaned up once. */
  lemma {:induction false} ReasonIsFinal(cfg: Config, s: State, es: seq<Event>, others: nat)
    requires GoodConfig(cfg) && Inv(cfg, s, others) && Legal(cfg, s, es) && s.life.terminated
    ensures var r := Run(cfg, s, es);
            r.life.terminated && r.life.reason == s.life.reason && r.life.cleanups == 1
    decreases |es|
  {
    if es != [] {
      StepKeeps(cfg, s, es[0], others);
      StepGrows(cfg, s, es[0], others);
      ReasonIsFinal(cfg, Step(cfg, s, es[0]), es[1..], others);
    }
  }

  lemma {:induction false} RunGrows(cfg: Config, s: State, es: seq<Event>, others: nat)
    requires GoodConfig(cfg) && Inv(cfg, s, others) && Legal(cfg, s, es)
    ensures s.log.received <= Run(cfg, s, es).log.received
    ensures s.log.written <= Run(cfg, s, es).log.written
    decreases |es|
  {
    hide Inv;
    if es != [] {
      StepKeeps(cfg, s, es[0], others);
      StepGrows(cfg, s, es[0], others);
      RunGrows(cfg, Step(cfg, s, es[0]), es[1..], others);
    }
  }

  lemma StepUpKeeps(cfg: Config, s: State, e: Event, others: nat, ups: nat)
    requires GoodConfig(cfg) && Inv(cfg, s, others) && Enabled(s, e) && UpOk(cfg, s.main, ups)
    ensures UpOk(cfg, Step(cfg, s, e).main, ups)
  {
    match e
    case MainResume(io) => StepUp(cfg, s, io, ups);
    case RxResume(ok) =>
    case _ => OtherGrows(cfg, s, e, others);
  }

  lemma {:induction false} RunUpKeeps(cfg: Config, s: State, es: seq<Event>, others: nat, ups: nat)
    requires GoodConfig(cfg) && Inv(cfg, s, others) && Legal(cfg, s, es) && UpOk(cfg, s.main, ups)
    ensures UpOk(cfg, Run(cfg, s, es).main, ups)
    decreases |es|
  {
    hide Inv;
    if es != [] {
      StepKeeps(cfg, s, es[0], others);
      StepUpKeeps(cfg, s, es[0], others, ups);
      RunUpKeeps(cfg, Step(cfg, s, es[0]), es[1..], others, ups);
    }
  }
}
