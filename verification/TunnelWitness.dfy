/** Runs that show that the odd ends of the tunnel are really reached: two successes with
    part of the reply missing, the three ways to be held up for good, and a leak of the
    upload gauge. */
module TunnelWitness {
  import opened Bytes
  import opened Nonces
  import opened Aead
  import opened Framing
  import opened Decoder
  import opened Tunnel
  import opened TunnelRuns
  import opened TunnelResults

  /** Some legal run from the start of a tunnel, the gauges at zero, ends in this state. */
  ghost predicate Reached(cfg: Config, s: State) {
    exists es: seq<Event> :: Legal(cfg, Init(cfg, 0, 0), es) && Run(cfg, Init(cfg, 0, 0), es) == s
  }

  lemma {:induction false} RunSnoc(cfg: Config, s: State, es: seq<Event>, e: Event)
    requires Legal(cfg, s, es) && Enabled(Run(cfg, s, es), e) && Contract(Run(cfg, s, es), e)
    ensures Legal(cfg, s, es + [e]) && Run(cfg, s, es + [e]) == Step(cfg, Run(cfg, s, es), e)
    decreases |es|
  {
    hide Step, Enabled, Contract;
    if es == [] {
      assert es + [e] == [e] && [e][1..] == [];
      assert Legal(cfg, Step(cfg, s, e), []) && Run(cfg, Step(cfg, s, e), []) == Step(cfg, s, e);
    } else {
      assert (es + [e])[1..] == es[1..] + [e];
      RunSnoc(cfg, Step(cfg, s, es[0]), es[1..], e);
    }
  }

  lemma Onward(cfg: Config, s: State, e: Event, r: State)
    requires Reached(cfg, s) && Enabled(s, e) && Contract(s, e) && Step(cfg, s, e) == r
    ensures Reached(cfg, r)
  {
    hide Step, Enabled, Contract, Legal, Run;
    var es: seq<Event> :| Legal(cfg, Init(cfg, 0, 0), es) && Run(cfg, Init(cfg, 0, 0), es) == s;
    RunSnoc(cfg, Init(cfg, 0, 0), es, e);
  }

  lemma AtStart(cfg: Config)
    ensures Reached(cfg, Init(cfg, 0, 0))
  {
    assert Legal(cfg, Init(cfg, 0, 0), []) && Run(cfg, Init(cfg, 0, 0), []) == Init(cfg, 0, 0);
  }

  // The dial, without a leftover.

  function Dialled(cfg: Config): State {
    var s := Init(cfg, 0, 0);
    s.(life := s.life.(idleArmed := true, dialArmed := true),
       main := s.main.(pc := AwaitingHandshake,
                       u := SealPiece(cfg, s.main.u.(wire := s.main.u.wire + cfg.cn), cfg.header)))
  }

  lemma Dials(cfg: Config)
    requires cfg.leftover == []
    ensures Reached(cfg, Dialled(cfg))
  {
    hide Reached, SealPiece, Enabled, Contract, Step;
    var s0 := Init(cfg, 0, 0);
    var s1 := s0.(life := s0.life.(idleArmed := true), main := s0.main.(pc := Connecting));
    var s2 := s1.(main := s1.main.(pc := SendingNonce, u := s1.main.u.(wire := s1.main.u.wire + cfg.cn)));
    var s3 := s2.(main := s2.main.(pc := SealingHeader));
    var s4 := s3.(main := s3.main.(pc := SendingHeader, u := SealPiece(cfg, s3.main.u, cfg.header)));
    AtStart(cfg);
    Registers(cfg, s0);
    Onward(cfg, s0, MainResume(Ok), s1);
    DialSteps(cfg, s1);
    Onward(cfg, s1, MainResume(Ok), s2);
    DialSteps(cfg, s2);
    Onward(cfg, s2, MainResume(Ok), s3);
    DialSteps(cfg, s3);
    Onward(cfg, s3, MainResume(Ok), s4);
    DialSteps(cfg, s4);
    Onward(cfg, s4, MainResume(Ok), Dialled(cfg));
  }

  lemma Registers(cfg: Config, s: State)
    requires s.main.pc == Registering && !s.life.terminated
    ensures Enabled(s, MainResume(Ok)) && Contract(s, MainResume(Ok))
    ensures Step(cfg, s, MainResume(Ok)) ==
            s.(life := s.life.(idleArmed := true), main := s.main.(pc := Connecting))
  {
  }

  lemma DialSteps(cfg: Config, s: State)
    requires cfg.leftover == []
    requires s.main.pc == Connecting || s.main.pc == SendingNonce ||
             s.main.pc == SealingHeader || s.main.pc == SendingHeader
    ensures Enabled(s, MainResume(Ok)) && Contract(s, MainResume(Ok))
    ensures Step(cfg, s, MainResume(Ok)) ==
            match s.main.pc
            case Connecting => s.(main := s.main.(pc := SendingNonce, u := s.main.u.(wire := s.main.u.wire + cfg.cn)))
            case SendingNonce => s.(main := s.main.(pc := SealingHeader))
            case SealingHeader =>
              s.(main := s.main.(pc := SendingHeader, u := SealPiece(cfg, s.main.u, cfg.header)))
            case _ => s.(main := s.main.(pc := AwaitingHandshake), life := s.life.(dialArmed := true))
  {
  }

  // The server nonce, and perhaps more, arrives; the key is derived; success is replied.

  function Arrived(cfg: Config, data: bytes): State
    requires |data| >= 12
  {
    var s := Dialled(cfg);
    s.(rx := s.rx.(d := Rx(true, data[..12], data, 12, -1, Nothing, data, [], false), pc := RxDerive),
       log := s.log.(received := data))
  }

  function Replying(cfg: Config, data: bytes): State
    requires |data| >= 12
  {
    var s := Arrived(cfg, data);
    s.(rx := s.rx.(handshakeDone := true, successSent := true, pc := RxReply),
       log := s.log.(hsLive := true), life := s.life.(dialArmed := false))
  }

  lemma Arrives(cfg: Config, data: bytes)
    requires 12 <= |data| <= MAX_RX_BUFFER_BYTES
    ensures Enabled(Dialled(cfg), Data(data, false)) && Contract(Dialled(cfg), Data(data, false))
    ensures Step(cfg, Dialled(cfg), Data(data, false)) == Arrived(cfg, data)
  {
    hide SealPiece;
    var s := Enqueue(Dialled(cfg), data, false);
    assert s.rx.queue == [Item(data, false)] && s.rx.queue[1..] == [];
    assert s.log.received == data;
    var d := Feed(EMPTY, data);
    assert EMPTY.buf[0..] + data == data && [] + data == data;
    assert d == Rx(false, ZERO, data, 0, -1, Nothing, data, [], false);
    assert data[0..12] == data[..12];
    var s2 := s.(rx := s.rx.(queue := [], curFin := false, d := d), acct := Acct(0, 0));
    assert RxLoop(cfg, s) == RxFed(cfg, s2);
    assert RxFed(cfg, s2) == s2.(rx := s2.rx.(d := TakeNonce(d), pc := RxDerive));
  }

  lemma Derives(cfg: Config, data: bytes)
    requires |data| >= 12
    ensures var s := Arrived(cfg, data);
            && Enabled(s, RxResume(true)) && Contract(s, RxResume(true))
            && Step(cfg, s, RxResume(true)) == Replying(cfg, data)
  {
    hide SealPiece;
  }

  lemma Replies(cfg: Config, data: bytes)
    requires cfg.leftover == [] && 12 <= |data| <= MAX_RX_BUFFER_BYTES
    ensures Reached(cfg, Replying(cfg, data))
  {
    hide Reached, Step, Enabled, Contract, Dialled, Arrived, Replying;
    Dials(cfg);
    Arrives(cfg, data);
    Onward(cfg, Dialled(cfg), Data(data, false), Arrived(cfg, data));
    Derives(cfg, data);
    Onward(cfg, Arrived(cfg, data), RxResume(true), Replying(cfg, data));
  }

  // The end of a tunnel that is up: the idle timer fires, cleanup goes through.

  function Ending(s: State, why: Reason, clean: CleanPc): State {
    s.(life := s.life.(terminated := true, reason := why, cleanups := s.life.cleanups + 1,
                       idleArmed := false, dialArmed := false, cancelled := true, cleanPc := clean,
                       writeClosed := s.life.writeClosed || clean != CleanCancel))
  }

  predicate UpAndQuiet(s: State) {
    && s.rx.handshakeDone && s.life.idleArmed && s.life.cleanPc == NoCleanup
    && !s.life.activeWrite && !s.life.writeClosed && s.acct.queuedBytes == 0
  }

  lemma CleanupOf(cfg: Config, s: State, why: Reason)
    requires UpAndQuiet(s)
    ensures Cleanup(cfg, s, why) == Ending(s, why, CleanCancel)
    ensures Cleanup(cfg, s.(life := s.life.(idleArmed := false)), why) == Ending(s, why, CleanCancel)
  {
  }

  lemma CleanupGoesOn(cfg: Config, s: State, why: Reason)
    requires UpAndQuiet(s)
    ensures Enabled(Ending(s, why, CleanCancel), CleanResume) && Enabled(Ending(s, why, CleanClose), CleanResume)
    ensures Step(cfg, Ending(s, why, CleanCancel), CleanResume) == Ending(s, why, CleanClose)
    ensures Step(cfg, Ending(s, why, CleanClose), CleanResume) == Ending(s, why, CleanDone)
  {
  }

  lemma CleanupEnds(cfg: Config, s: State, why: Reason)
    requires UpAndQuiet(s) && Reached(cfg, Ending(s, why, CleanCancel))
    ensures Reached(cfg, Ending(s, why, CleanDone))
  {
    hide Reached, Step, Enabled, Ending, UpAndQuiet;
    CleanupGoesOn(cfg, s, why);
    Onward(cfg, Ending(s, why, CleanCancel), CleanResume, Ending(s, why, CleanClose));
    Onward(cfg, Ending(s, why, CleanClose), CleanResume, Ending(s, why, CleanDone));
  }

  /** The same with no write that cleanup would wait for. */
  function Quieted(s: State): State {
    s.(life := s.life.(activeWrite := false))
  }

  lemma IdleFiring(cfg: Config, s: State)
    requires UpAndQuiet(Quieted(s))
    ensures Enabled(s, IdleFires) && Contract(s, IdleFires)
    ensures var t := Step(cfg, s, IdleFires);
            if s.life.activeWrite then
              Enabled(t, CleanResume) && Step(cfg, t, CleanResume) == Ending(Quieted(s), IdleTimeout, CleanCancel)
            else t == Ending(Quieted(s), IdleTimeout, CleanCancel)
  {
  }

  /** If a write is under way, cleanup waits for it, but not longer than its grace. */
  lemma IdleEnds(cfg: Config, s: State)
    requires UpAndQuiet(Quieted(s)) && Reached(cfg, s)
    ensures Reached(cfg, Ending(Quieted(s), IdleTimeout, CleanDone))
  {
    hide Reached, Step, Enabled, Contract, Ending, UpAndQuiet;
    IdleFiring(cfg, s);
    var t := Step(cfg, s, IdleFires);
    Onward(cfg, s, IdleFires, t);
    if s.life.activeWrite {
      AnyTime(t);
      Onward(cfg, t, CleanResume, Step(cfg, t, CleanResume));
    }
    CleanupEnds(cfg, Quieted(s), IdleTimeout);
  }

  lemma AnyTime(s: State)
    ensures Contract(s, CleanResume)
  {
  }

  // Held up for good.

  /** The client does not take the success reply: cleanup is done, and the run waits for the
      handshake it has itself completed. */
  lemma HeldUpBySuccessReply(cfg: Config)
    requires cfg.leftover == []
    ensures exists s :: Reached(cfg, s) && Stalled(s) && s.main.pc == AwaitingHandshake && s.life.cleanPc == CleanDone
  {
    hide Reached;
    Replies(cfg, NONCE);
    IdleEnds(cfg, Replying(cfg, NONCE));
    var s := Ending(Replying(cfg, NONCE), IdleTimeout, CleanDone);
    assert Stalled(s) && s.main.pc == AwaitingHandshake;
  }

  const NONCE: bytes := [1, 2, 3, 4, 5, 6, 7, 8, 9, 10, 11, 12]

  /** The client does not take the failure reply of the last attempt. */
  lemma HeldUpByFailureReply(cfg: Config)
    requires cfg.leftover == [] && cfg.lastAttempt
    ensures exists s :: Reached(cfg, s) && Stalled(s) && s.main.pc == AwaitingCleanup && s.life.cleanPc == CleanReply
  {
    hide Reached;
    var s := Dialled(cfg);
    var s1 := s.(life := s.life.(terminated := true, reason := IdleTimeout, cleanups := 1, hs := HsRejected,
                                 idleArmed := false, dialArmed := false, failureSent := true, cleanPc := CleanReply));
    var s2 := s1.(main := s1.main.(pc := AwaitingCleanup));
    Dials(cfg);
    Fails(cfg);
    Onward(cfg, s, IdleFires, s1);
    Onward(cfg, s1, MainResume(Ok), s2);
    assert Stalled(s2);
  }

  lemma Fails(cfg: Config)
    requires cfg.lastAttempt
    ensures var s := Dialled(cfg);
            var s1 := s.(life := s.life.(terminated := true, reason := IdleTimeout, cleanups := 1, hs := HsRejected,
                                         idleArmed := false, dialArmed := false, failureSent := true,
                                         cleanPc := CleanReply));
            Step(cfg, s, IdleFires) == s1 &&
            Step(cfg, s1, MainResume(Ok)) == s1.(main := s1.main.(pc := AwaitingCleanup))
  {
    hide SealPiece;
  }

  /** Up, with everything that has come in decoded. */
  function Resting(cfg: Config): State {
    var s := Replying(cfg, NONCE);
    s.(rx := s.rx.(d := Rx(true, NONCE, [], 0, -1, Nothing, NONCE, [], false), pc := RxIdle),
       life := s.life.(hs := HsResolved))
  }

  lemma Rests(cfg: Config)
    ensures Step(cfg, Replying(cfg, NONCE), RxResume(true)) == Resting(cfg)
  {
    hide SealPiece;
    var s := Replying(cfg, NONCE);
    var s1 := s.(life := s.life.(hs := HsResolved));
    assert NONCE[..12] == NONCE && NONCE[12..] == [];
    var s2 := s1.(rx := s1.rx.(d := Trim(s1.rx.d)));
    assert Step(cfg, s, RxResume(true)) == RxDecode(cfg, s1) == RxTrim(cfg, s1);
    assert RxTrim(cfg, s1) == RxAfterData(cfg, s2) == RxLoop(cfg, s2);
    assert RxLoop(cfg, s2) == RxFinally(cfg, s2);
  }

  function AtRead(cfg: Config): State {
    var s := Resting(cfg);
    s.(main := s.main.(pc := Reading))
  }

  lemma Reads(cfg: Config)
    requires cfg.leftover == []
    ensures Reached(cfg, AtRead(cfg))
  {
    hide Reached;
    Replies(cfg, NONCE);
    Rests(cfg);
    Onward(cfg, Replying(cfg, NONCE), RxResume(true), Resting(cfg));
    Onward(cfg, Resting(cfg), MainResume(Ok), AtRead(cfg));
  }

  /** The transport does not take FIN: the client has closed, the idle timer has fired, the
      cleanup is done, and nothing is left to wake the run. */
  lemma HeldUpByFin(cfg: Config)
    requires cfg.leftover == []
    ensures exists s :: Reached(cfg, s) && Stalled(s) && s.main.pc == SendingFin
  {
    hide Reached;
    var s := AtRead(cfg);
    var s1 := s.(main := s.main.(pc := SendingFin, readClosed := true));
    Reads(cfg);
    Onward(cfg, s, MainResume(Done), s1);
    IdleEnds(cfg, s1);
    assert Stalled(Ending(s1, IdleTimeout, CleanDone));
  }

  // A leak of the upload gauge.

  /** Sealing a chunk of one byte throws; when the run has returned the byte still counts. */
  lemma LeakReached(cfg: Config)
    requires cfg.leftover == []
    ensures exists s :: Reached(cfg, s) && s.main.pc == Returned && s.main.upGauge == 1
  {
    hide Reached, Ending, Step, Enabled, Contract, AtRead, UpAndQuiet;
    var s := AtRead(cfg);
    var s1 := s.(main := s.main.(pc := SealingData([7], 0), upGauge := 1, u := s.main.u.(clientRead := [7])));
    var s2 := s1.(main := s1.main.(upLeak := 1, pc := AwaitingCleanup));
    Reads(cfg);
    ReadsOne(cfg);
    Onward(cfg, s, MainResume(Chunk([7])), s1);
    Throws(cfg, s1);
    Onward(cfg, s1, MainResume(SealThrows), Ending(s2, TunnelError, CleanCancel));
    CleanupEnds(cfg, s2, TunnelError);
    var s3 := Ending(s2, TunnelError, CleanDone);
    Returns(cfg, s2, TunnelError);
    Onward(cfg, s3, MainResume(Ok), MainReturn(s3));
  }

  lemma ReadsOne(cfg: Config)
    ensures var s := AtRead(cfg);
            var s1 := s.(main := s.main.(pc := SealingData([7], 0), upGauge := 1, u := s.main.u.(clientRead := [7])));
            && Enabled(s, MainResume(Chunk([7]))) && Contract(s, MainResume(Chunk([7])))
            && Step(cfg, s, MainResume(Chunk([7]))) == s1
            && s1.main.upLeak == 0 && UpAndQuiet(s1)
            && UpAndQuiet(s1.(main := s1.main.(upLeak := 1, pc := AwaitingCleanup)))
  {
    hide Step, Enabled;
    QuietAtRead(cfg);
    ChunkRead(cfg, AtRead(cfg), [7]);
    assert [] + [7] == [7];
  }

  lemma QuietAtRead(cfg: Config)
    ensures var s := AtRead(cfg);
            && UpAndQuiet(s) && s.main.pc == Reading && !s.life.terminated
            && s.main.upGauge == 0 && s.main.upLeak == 0 && s.main.u.clientRead == []
  {
    hide SealFrame, Bump;
  }

  lemma ChunkRead(cfg: Config, s: State, v: bytes)
    requires s.main.pc == Reading && s.life.idleArmed && v != []
    ensures Enabled(s, MainResume(Chunk(v)))
    ensures Step(cfg, s, MainResume(Chunk(v))) ==
            s.(main := s.main.(pc := SealingData(v, 0), upGauge := s.main.upGauge + |v|,
                               u := s.main.u.(clientRead := s.main.u.clientRead + v)))
  {
  }

  lemma Throws(cfg: Config, s: State)
    requires UpAndQuiet(s) && s.main.pc == SealingData([7], 0)
    ensures Enabled(s, MainResume(SealThrows)) && Contract(s, MainResume(SealThrows))
    ensures Step(cfg, s, MainResume(SealThrows)) ==
            Ending(s.(main := s.main.(upLeak := s.main.upLeak + 1, pc := AwaitingCleanup)), TunnelError, CleanCancel)
  {
    hide Cleanup;
    CleanupOf(cfg, s.(main := s.main.(upLeak := s.main.upLeak + 1)), TunnelError);
    Again(cfg, Ending(s.(main := s.main.(upLeak := s.main.upLeak + 1)), TunnelError, CleanCancel), LoopExit);
  }

  lemma Again(cfg: Config, s: State, why: Reason)
    requires s.life.cleanPc != NoCleanup
    ensures Cleanup(cfg, s, why) == s
  {
  }

  lemma Returns(cfg: Config, s: State, why: Reason)
    requires s.main.pc == AwaitingCleanup
    ensures var t := Ending(s, why, CleanDone);
            && t.main == s.main && t.rx == s.rx && t.log == s.log && t.life.reason == why
            && Enabled(t, MainResume(Ok)) && Contract(t, MainResume(Ok))
            && Step(cfg, t, MainResume(Ok)) == MainReturn(t)
  {
  }

  // Successes with part of the reply missing.

  /** The server sends one frame and something more. */
  function Sent(more: bytes): bytes {
    ONE + SealFrame(TOY, ONE, [7]) + more
  }

  const ONE: Nonce := [1, 0, 0, 0, 0, 0, 0, 0, 0, 0, 0, 9]
  const TOYCFG: Config := Config((n: Nonce) => TOY, ZERO, [], [], false)

  lemma SentParts(more: bytes)
    ensures |Sent(more)| == 47 + |more| && Sent(more)[..12] == ONE
    ensures Sent(more)[12..30] == TOY.seal(ONE, Be16(1)) && Sent(more)[30..47] == TOY.seal(Next(ONE), [7])
    ensures Sent(more)[47..] == more
  {
    hide Next, ToyTag;
    var a, b := TOY.seal(ONE, Be16(1)), TOY.seal(Next(ONE), [7]);
    ToySealLength(ONE, Be16(1));
    ToySealLength(Next(ONE), [7]);
    assert Sent(more) == ONE + a + b + more;
  }

  lemma ToySealLength(n: Nonce, p: bytes)
    ensures |TOY.seal(n, p)| == |p| + TAG
  {
  }

  lemma ToyOpens(n: Nonce, p: bytes)
    ensures TOY.open(n, TOY.seal(n, p)) == Some(p)
  {
    var x := ToySeal(n, p);
    assert x[|x| - TAG..] == ToyTag(n) && x[..|x| - TAG] == p;
  }

  /** The length frame of the first frame has been taken. */
  function TakingLength(more: bytes): State {
    SentParts(more);
    var s := Replying(TOYCFG, Sent(more));
    s.(rx := s.rx.(d := TakeLength(s.rx.d), pc := RxLength), life := s.life.(hs := HsResolved))
  }

  function TakingPayload(more: bytes): State {
    SentParts(more);
    var s := TakingLength(more);
    s.(rx := s.rx.(d := TakePayload(LengthOpened(s.rx.d, 1)), pc := RxPayload))
  }

  function Writing(more: bytes): State {
    var s := TakingPayload(more);
    s.(rx := s.rx.(d := PayloadOpened(s.rx.d, [7]), recv := 1, pc := RxWrite([7])),
       log := s.log.(written := [7]), life := s.life.(activeWrite := true))
  }

  function Waiting(more: bytes): State {
    var s := Writing(more);
    s.(rx := s.rx.(d := Trim(s.rx.d), pc := RxIdle),
       log := s.log.(confirmed := [7]), life := s.life.(activeWrite := false))
  }

  lemma TakesLength(more: bytes)
    ensures |Sent(more)| == 47 + |more|
    ensures var s := Replying(TOYCFG, Sent(more));
            && Enabled(s, RxResume(true)) && Contract(s, RxResume(true))
            && Step(TOYCFG, s, RxResume(true)) == TakingLength(more)
  {
    hide SealPiece, Sent;
    SentParts(more);
    var s := Replying(TOYCFG, Sent(more));
    assert Step(TOYCFG, s, RxResume(true)) == RxReplied(TOYCFG, s);
  }

  lemma TakesPayload(more: bytes)
    ensures var s := TakingLength(more);
            && Enabled(s, RxResume(true)) && Contract(s, RxResume(true))
            && Step(TOYCFG, s, RxResume(true)) == TakingPayload(more)
  {
    hide SealPiece, Sent, Next;
    SentParts(more);
    var s := TakingLength(more);
    var d := s.rx.d;
    assert d.flight == LengthFrame(ONE, TOY.seal(ONE, Be16(1)));
    ToyOpens(ONE, Be16(1));
    assert OpenLength(TOY, ONE, TOY.seal(ONE, Be16(1))) == Some(1);
    assert Step(TOYCFG, s, RxResume(true)) == RxLengthOpened(TOYCFG, s);
  }

  lemma Writes(more: bytes)
    ensures var s := TakingPayload(more);
            && Enabled(s, RxResume(true)) && Contract(s, RxResume(true))
            && Step(TOYCFG, s, RxResume(true)) == Writing(more)
  {
    hide SealPiece, Sent, Next;
    SentParts(more);
    var s := TakingPayload(more);
    var d := s.rx.d;
    assert d.flight == PayloadFrame(Next(ONE), TOY.seal(Next(ONE), [7]));
    ToyOpens(Next(ONE), [7]);
    assert Step(TOYCFG, s, RxResume(true)) == RxPayloadOpened(TOYCFG, s) == RxPlain(TOYCFG, s, [7]);
    assert s.log.written + [7] == [7];
  }

  /** The rest is too short for another length frame. */
  lemma Decodes(more: bytes)
    requires |more| < LENGTH_FRAME
    ensures var s := Writing(more);
            && Enabled(s, RxResume(true)) && Contract(s, RxResume(true))
            && Step(TOYCFG, s, RxResume(true)) == Waiting(more)
    ensures Waiting(more).rx.d.buf == more && Waiting(more).rx.d.off == 0
  {
    hide SealPiece, Sent, Next;
    SentParts(more);
    var s := Writing(more);
    var s1 := s.(life := s.life.(activeWrite := false), log := s.log.(confirmed := [7]));
    assert s.log.confirmed + [7] == [7];
    var s2 := s1.(rx := s1.rx.(d := Trim(s1.rx.d)));
    assert Step(TOYCFG, s, RxResume(true)) == RxWritten(TOYCFG, s, [7], true) == RxDecode(TOYCFG, s1);
    assert RxDecode(TOYCFG, s1) == RxTrim(TOYCFG, s1) == RxAfterData(TOYCFG, s2) == RxLoop(TOYCFG, s2);
    assert RxLoop(TOYCFG, s2) == RxFinally(TOYCFG, s2);
  }

  lemma WritingReached(more: bytes)
    requires |more| < LENGTH_FRAME
    ensures Reached(TOYCFG, Writing(more))
  {
    hide Reached, Step, Enabled, Contract, Replying, TakingLength, TakingPayload, Writing;
    TakesLength(more);
    Replies(TOYCFG, Sent(more));
    Onward(TOYCFG, Replying(TOYCFG, Sent(more)), RxResume(true), TakingLength(more));
    TakesPayload(more);
    Onward(TOYCFG, TakingLength(more), RxResume(true), TakingPayload(more));
    Writes(more);
    Onward(TOYCFG, TakingPayload(more), RxResume(true), Writing(more));
  }

  lemma WaitingReached(more: bytes)
    requires |more| < LENGTH_FRAME
    ensures Reached(TOYCFG, Waiting(more))
  {
    hide Reached, Step, Enabled, Contract, Writing, Waiting;
    WritingReached(more);
    Decodes(more);
    Onward(TOYCFG, Writing(more), RxResume(true), Waiting(more));
  }

  /** The tunnel is up and its main task has not gone on yet. */
  predicate JustUp(s: State) {
    && UpAndQuiet(Quieted(s)) && s.main.pc == AwaitingHandshake && s.life.hs == HsResolved
    && s.rx.handshakeDone && !s.rx.finReceived && !s.life.terminated
  }

  /** From there: the idle timer fires during the client read, cleanup goes through, the read
      ends, and the run returns. */
  function Finished(s: State): State {
    var q := Quieted(s);
    MainReturn(Ending(q.(main := q.main.(pc := AwaitingCleanup, readClosed := true)), IdleTimeout, CleanDone))
  }

  lemma StartsReading(cfg: Config, s: State)
    requires JustUp(s)
    ensures Enabled(s, MainResume(Ok)) && Contract(s, MainResume(Ok))
    ensures Step(cfg, s, MainResume(Ok)) == s.(main := s.main.(pc := Reading))
    ensures UpAndQuiet(Quieted(s.(main := s.main.(pc := Reading))))
  {
  }

  lemma AfterTheEnd(cfg: Config, s: State)
    requires JustUp(s)
    ensures var q := Quieted(s);
            var t := Ending(q.(main := q.main.(pc := Reading)), IdleTimeout, CleanDone);
            var t1 := t.(main := t.main.(pc := SendingFin, readClosed := true));
            && Enabled(t, MainResume(Done)) && Contract(t, MainResume(Done))
            && Step(cfg, t, MainResume(Done)) == t1
            && Enabled(t1, MainResume(Ok)) && Contract(t1, MainResume(Ok))
            && Step(cfg, t1, MainResume(Ok)) ==
               Ending(q.(main := q.main.(pc := AwaitingCleanup, readClosed := true)), IdleTimeout, CleanDone)
  {
  }

  lemma Finishes(cfg: Config, s: State)
    requires JustUp(s) && Reached(cfg, s)
    ensures Reached(cfg, Finished(s))
  {
    hide Reached, Step, Enabled, Contract, Ending, UpAndQuiet, JustUp;
    var q, s1 := Quieted(s), s.(main := s.main.(pc := Reading));
    StartsReading(cfg, s);
    Onward(cfg, s, MainResume(Ok), s1);
    IdleEnds(cfg, s1);
    AfterTheEnd(cfg, s);
    var t := Ending(Quieted(s1), IdleTimeout, CleanDone);
    var t1 := t.(main := t.main.(pc := SendingFin, readClosed := true));
    var u := q.(main := q.main.(pc := AwaitingCleanup, readClosed := true));
    Onward(cfg, t, MainResume(Done), t1);
    Onward(cfg, t1, MainResume(Ok), Ending(u, IdleTimeout, CleanDone));
    Returns(cfg, u, IdleTimeout);
    Onward(cfg, Ending(u, IdleTimeout, CleanDone), MainResume(Ok), Finished(s));
  }

  lemma FinishedShape(s: State)
    requires JustUp(s) && s.rx.recv == 1
    ensures var r := Finished(s);
            && r.main.outcome == Some(Outcome(true, IdleTimeout, 1, true))
            && r.log == s.log && r.rx == s.rx
  {
  }

  lemma WritingShape(more: bytes)
    ensures var s := Writing(more);
            && JustUp(s) && s.rx.recv == 1 && s.log.received == Sent(more)
            && s.rx.d.frames == [[7]] && s.rx.pc == RxWrite([7]) && s.log.written == [7] && s.log.confirmed == []
            && s.rx.d.flight == Nothing && s.rx.d.expected == -1 && !s.rx.d.corrupt && s.rx.queue == []
            && s.rx.d.off == 47 && |s.rx.d.buf| == 47 + |more|
  {
    hide SealFrame, Bump, Sent, Next;
    SentParts(more);
    var s := Replying(TOYCFG, Sent(more));
    assert s.rx.d.frames == [] && s.log.received == Sent(more) && s.rx.recv == 0 && s.log.confirmed == [];
    assert [] + [[7]] == [[7]];
  }

  /** A run that reports success although the reply was cut in the middle of a frame. */
  lemma SuccessCutShort()
    ensures GoodConfig(TOYCFG)
    ensures exists s :: Reached(TOYCFG, s) && s.main.outcome == Some(Outcome(true, IdleTimeout, 1, true)) &&
                        !Whole(TOYCFG, s.log.received, s.rx.d.frames) && !AllDecoded(s)
  {
    hide Reached, SealFrame, Sent, Writing, Finished, JustUp;
    ToyIsGcm();
    var more, s := [1, 2, 3], Waiting([1, 2, 3]);
    WritingShape(more);
    WaitingReached(more);
    WaitingIsUp(more);
    Decodes(more);
    Finishes(TOYCFG, s);
    FinishedShape(s);
    SentIsNotWhole(more);
    assert !AllDecoded(Finished(s));
  }

  lemma WaitingIsUp(more: bytes)
    ensures JustUp(Waiting(more)) && Waiting(more).rx.recv == 1 && Waiting(more).log.received == Sent(more)
    ensures Waiting(more).rx.d.frames == [[7]]
  {
    hide Writing, Sent;
    WritingShape(more);
  }

  /** A run that reports success although its one payload was never taken by the client: the
      idle timer fired during the write. All of the reply had been received. */
  lemma SuccessUnwritten()
    ensures GoodConfig(TOYCFG)
    ensures exists s :: Reached(TOYCFG, s) && s.main.outcome == Some(Outcome(true, IdleTimeout, 1, true)) &&
                        Whole(TOYCFG, s.log.received, s.rx.d.frames) && AllDecoded(s) &&
                        s.log.confirmed != Flatten(s.rx.d.frames) && !AllWritten(s)
  {
    hide Reached, SealFrame, Sent, Writing, Finished, JustUp;
    ToyIsGcm();
    var s := Writing([]);
    WritingShape([]);
    WritingReached([]);
    Finishes(TOYCFG, s);
    FinishedShape(s);
    SentIsWhole();
    assert Flatten([[7]]) == [7] + Flatten([]);
    assert AllDecoded(Finished(s)) && !AllWritten(Finished(s));
  }

  lemma SentIsWhole()
    ensures Whole(TOYCFG, Sent([]), [[7]])
  {
    hide SealFrame;
    SentParts([]);
    assert [[7]][1..] == [];
    assert SealFrames(TOY, ONE, [[7]]) == SealFrame(TOY, ONE, [7]) + SealFrames(TOY, Bump(ONE, 2), []);
  }

  lemma SentIsNotWhole(more: bytes)
    requires more != []
    ensures !Whole(TOYCFG, Sent(more), [[7]])
  {
    hide SealFrame, Sent;
    SentParts(more);
    if Whole(TOYCFG, Sent(more), [[7]]) {
      WholeLength(TOYCFG, Sent(more), [7]);
    }
  }

  lemma WholeLength(cfg: Config, received: bytes, p: bytes)
    requires cfg == TOYCFG && Whole(cfg, received, [p])
    ensures |received| == 12 + 34 + |p|
  {
    ToyIsGcm();
    var n: Nonce := received[..12];
    SealFrameLength(TOY, n, p);
    assert [p][1..] == [];
    assert SealFrames(TOY, n, [p]) == SealFrame(TOY, n, p) + SealFrames(TOY, Bump(n, 2), []);
  }
}
