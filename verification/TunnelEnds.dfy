/** How a run of the tunnel ends and what it has taken in: the reason names its cause, the
    client's streams are released, the outcome is true, and nothing that came in is lost. */
module TunnelEnds {
  import opened Bytes
  import opened Framing
  import opened Decoder
  import opened Tunnel
  import opened TunnelInv
  import opened TunnelMain
  import opened TunnelRuns
  import opened TunnelResults

  // One segment of the receive task.

  /** A live state between two items, before FIN. */
  predicate Going(s: State) {
    && !s.life.terminated && s.life.cleanPc == NoCleanup && !s.rx.finReceived
    && (s.rx.recv > 0 ==> s.rx.handshakeDone)
  }

  /** Why a tunnel ends when the receive task ends it: the transport closed without FIN, or
      what FIN found; but a tunnel that is up and has whole frames only goes on after FIN as
      long as its client does. */
  predicate EndedBy(r: State, why: Reason) {
    if !r.rx.finReceived then why == TransportClosed && r.rx.transportClosed
    else
      && why == (if Leftover(r.rx.d) then FramingError else if r.rx.recv == 0 then TargetDialRefused else BothClosed)
      && (Leftover(r.rx.d) || !r.rx.handshakeDone || r.main.readClosed)
  }

  /** A tunnel that has just ended does so for that reason, and its cleanup waits exactly for
      a write to the client that is under way. */
  predicate Ends(r: State) {
    r.life.terminated ==>
      EndedBy(r, r.life.reason) && (r.life.cleanPc == CleanWrite <==> r.life.activeWrite)
  }

  lemma CleanupWaits(cfg: Config, s: State, why: Reason)
    requires s.life.cleanPc == NoCleanup
    ensures var r := Cleanup(cfg, s, why);
            && r.life.terminated && r.life.reason == why && r.life.activeWrite == s.life.activeWrite
            && r.life.cleanPc != NoCleanup
            && (r.life.cleanPc == CleanWrite <==> r.life.activeWrite)
  {
  }

  lemma FinallyEnds(cfg: Config, s: State)
    requires !s.life.terminated && s.life.cleanPc == NoCleanup
    ensures Ends(RxFinally(cfg, s))
  {
    hide Cleanup;
    CleanupWaits(cfg, RxGoto(s, RxIdle), TransportClosed);
  }

  lemma FinallyStays(cfg: Config, s: State)
    requires s.life.terminated
    ensures RxFinally(cfg, s).life == s.life && RxFinally(cfg, s).rx == s.rx.(pc := RxIdle)
  {
  }

  lemma AbortEnds(cfg: Config, s: State, why: Reason)
    requires s.life.cleanPc == NoCleanup
    ensures var r := RxAbort(cfg, s, why);
            && r.life.terminated && r.life.reason == why && r.rx == s.rx.(pc := RxIdle)
            && (r.life.cleanPc == CleanWrite <==> r.life.activeWrite)
  {
    hide Cleanup, RxFinally;
    CleanupWaits(cfg, s, why);
    FinallyStays(cfg, Cleanup(cfg, s, why));
  }

  lemma AfterCloseEnds(cfg: Config, s: State)
    requires !s.life.terminated && s.life.cleanPc == NoCleanup && s.rx.finReceived
    requires s.rx.recv > 0 ==> s.rx.handshakeDone
    ensures Ends(RxAfterClose(cfg, s))
  {
    hide Cleanup, RxFinally, RxAbort;
    AbortEnds(cfg, s, FramingError);
    AbortEnds(cfg, s, TargetDialRefused);
    var s1 := CheckFullClose(cfg, s);
    if !Leftover(s.rx.d) && (s.rx.handshakeDone || s.rx.recv > 0) {
      CleanupWaits(cfg, s, TargetDialRefused);
      CleanupWaits(cfg, s, BothClosed);
      if s1.life.terminated {
        FinallyStays(cfg, s1);
      } else {
        FinallyEnds(cfg, s1);
        FinallyEnds(cfg, ResetIdle(s1));
      }
    }
  }

  lemma FinEnds(cfg: Config, s: State)
    requires Going(s)
    ensures Ends(RxFin(cfg, s))
  {
    hide RxAfterClose;
    if s.life.writeClosed {
      AfterCloseEnds(cfg, s.(rx := s.rx.(finReceived := true)));
    }
  }

  lemma LoopEnds(cfg: Config, s: State)
    requires Going(s)
    ensures Ends(RxLoop(cfg, s))
    decreases |s.rx.queue|, 0
  {
    hide RxFinally, Ends;
    if s.rx.queue == [] {
      FinallyEnds(cfg, s);
    } else {
      var data := s.rx.queue[0].data;
      var s1 := s.(rx := Pop(s.rx), acct := Unqueue(s.acct, |data|));
      if data == [] {
        AfterDataEnds(cfg, s1);
      } else {
        FedEnds(cfg, s1.(rx := s1.rx.(d := Feed(s1.rx.d, data))));
      }
    }
  }

  lemma FedEnds(cfg: Config, s: State)
    requires Going(s)
    ensures Ends(RxFed(cfg, s))
    decreases |s.rx.queue|, 4
  {
    if s.rx.handshakeDone {
      DecodeEnds(cfg, s);
    } else if Available(s.rx.d) < NONCE_LENGTH {
      LoopEnds(cfg, s);
    }
  }

  lemma DecodeEnds(cfg: Config, s: State)
    requires Going(s)
    ensures Ends(RxDecode(cfg, s))
    decreases |s.rx.queue|, 3
  {
    TrimEnds(cfg, s);
    ToPayloadEnds(cfg, s);
  }

  lemma ToPayloadEnds(cfg: Config, s: State)
    requires Going(s)
    ensures Ends(RxToPayload(cfg, s))
    decreases |s.rx.queue|, 2
  {
    TrimEnds(cfg, s);
  }

  lemma TrimEnds(cfg: Config, s: State)
    requires Going(s)
    ensures Ends(RxTrim(cfg, s))
    decreases |s.rx.queue|, 2, 0
  {
    AfterDataEnds(cfg, s.(rx := s.rx.(d := Trim(s.rx.d))));
  }

  lemma AfterDataEnds(cfg: Config, s: State)
    requires Going(s)
    ensures Ends(RxAfterData(cfg, s))
    decreases |s.rx.queue|, 1
  {
    if s.rx.curFin {
      FinEnds(cfg, s);
    } else {
      LoopEnds(cfg, s);
    }
  }

  // Every event.

  /** The events that end a live tunnel by themselves, and the reason each one gives. */
  function Interrupt(s: State, e: Event): Option<Reason> {
    match e
    case TransportError => Some(StreamError)
    case IdleFires => Some(IdleTimeout)
    case DialFires => if s.rx.handshakeDone then None else Some(HandshakeTimeout)
    case Data(data, _) => if |Cat(s.rx.queue)| + |data| > 16 * 1024 * 1024 then Some(RxOverflow) else None
    case RxResume(ok) =>
      if ok then None
      else if s.rx.pc == RxDerive then Some(RxError)
      else if s.rx.pc.RxWrite? then Some(ClientWriteError)
      else None
    case MainResume(io) => Breakage(s.main.pc, io)
    case _ => None
  }

  /** What fails in the main task: a client read, sending what the client sent, or anything
      else that is sealed or sent. */
  function Breakage(pc: MainPc, io: Io): Option<Reason> {
    match pc
    case Reading => if io.Chunk? || io.Done? then None else Some(ClientAbort)
    case SendingData(_, _) => if io == Ok then None else Some(UpstreamWriteFailed)
    case SealingData(_, _) => if io == Ok then None else Some(TunnelError)
    case Registering => None
    case AwaitingHandshake => None
    case SendingFin => None
    case AwaitingCompletion => None
    case AwaitingCleanup => None
    case Returned => None
    case _ => if io == Ok then None else Some(TunnelError)
  }

  /** One step of a live tunnel: it ends at an interruption, for the reason that names it; at
      a frame that does not open; and else only as the receive task ends it. */
  predicate EndsFor(s: State, e: Event, r: State) {
    && (Interrupt(s, e).Some? ==> r.life.terminated && r.life.reason == Interrupt(s, e).value)
    && (Interrupt(s, e).None? && r.rx.d.corrupt ==> r.life.terminated && r.life.reason == DecryptError)
    && (Interrupt(s, e).None? && !r.rx.d.corrupt && r.life.terminated ==> EndedBy(r, r.life.reason))
    && (r.life.terminated ==> (r.life.cleanPc == CleanWrite <==> r.life.activeWrite))
  }

  lemma LiveIsGoing(cfg: Config, s: State, others: nat)
    requires Inv(cfg, s, others) && !s.life.terminated
    ensures s.life.cleanPc == NoCleanup && (s.rx.recv > 0 ==> s.rx.handshakeDone) && !s.rx.d.corrupt
    ensures s.acct.queuedBytes == |Cat(s.rx.queue)|
    ensures s.main.readClosed ==> s.rx.handshakeDone
    ensures s.rx.pc != RxIdle && s.rx.pc != RxClose ==> !s.rx.finReceived
    ensures s.rx.pc == RxClose ==> s.rx.finReceived
    ensures s.rx.finReceived ==> s.rx.queue == []
    ensures s.main.pc == Reading || s.main.pc == SendingFin || s.main.pc == AwaitingHandshake ==> s.main.outcome.None?
    ensures s.main.pc == Reading || s.main.pc == SendingFin ==> s.rx.handshakeDone
    ensures s.main.pc == SendingFin ==> s.main.readClosed
    ensures s.main.pc != AwaitingCleanup && s.main.pc != Returned
    ensures s.main.pc == AwaitingHandshake && s.life.hs != HsPending ==> s.rx.handshakeDone
  {
    assert s.rx.d.frames == [] ==> Flatten(s.rx.d.frames) == [];
  }

  lemma StartEnds(cfg: Config, s: State)
    requires !s.life.terminated && s.life.cleanPc == NoCleanup && (s.rx.recv > 0 ==> s.rx.handshakeDone)
    requires s.rx.finReceived ==> s.rx.queue == []
    ensures Ends(RxStart(cfg, s))
  {
    hide RxFinally;
    if s.rx.pc == RxIdle {
      if s.rx.finReceived {
        FinallyEnds(cfg, s);
        assert RxLoop(cfg, s) == RxFinally(cfg, s);
      } else {
        LoopEnds(cfg, s);
      }
    }
  }

  lemma DataEnds(cfg: Config, s: State, data: bytes, fin: bool, others: nat)
    requires Inv(cfg, s, others) && !s.life.terminated && !s.log.finSeen
    ensures EndsFor(s, Data(data, fin), OnData(cfg, s, data, fin))
  {
    hide Inv, RxStart, Ends;
    LiveIsGoing(cfg, s, others);
    CleanupWaits(cfg, ResetIdle(s), RxOverflow);
    NoFinYet(cfg, s, others);
    StartEnds(cfg, Enqueue(ResetIdle(s), data, fin));
    EndsIs(OnData(cfg, s, data, fin));
  }

  lemma NoFinYet(cfg: Config, s: State, others: nat)
    requires Inv(cfg, s, others) && !s.log.finSeen
    ensures !s.rx.finReceived
  {
  }

  lemma EndsIs(r: State)
    ensures Ends(r) <==>
            (r.life.terminated ==>
               EndedBy(r, r.life.reason) && (r.life.cleanPc == CleanWrite <==> r.life.activeWrite))
  {
  }

  lemma TransportEnds(cfg: Config, s: State, others: nat)
    requires Inv(cfg, s, others) && !s.life.terminated
    ensures EndsFor(s, TransportClose, OnClose(cfg, s))
  {
    hide Inv, Cleanup;
    LiveIsGoing(cfg, s, others);
    var s1 := s.(rx := s.rx.(transportClosed := true));
    CleanupWaits(cfg, s1, TransportClosed);
    FullCloseEnds(cfg, s1);
  }

  lemma FullCloseEnds(cfg: Config, s: State)
    requires !s.life.terminated && s.life.cleanPc == NoCleanup
    requires s.main.readClosed ==> s.rx.handshakeDone
    ensures Ends(CheckFullClose(cfg, s))
  {
    hide Cleanup;
    CleanupWaits(cfg, s, FramingError);
    CleanupWaits(cfg, s, TargetDialRefused);
    CleanupWaits(cfg, s, BothClosed);
  }

  lemma DeriveEnds(cfg: Config, s: State, ok: bool)
    requires Going(s) && !s.rx.d.corrupt && s.rx.pc == RxDerive
    ensures EndsFor(s, RxResume(ok), RxDerived(cfg, s, ok))
  {
    hide RxAbort, RxDecode;
    AbortEnds(cfg, s, RxError);
    if ok {
      var s1 := s.(rx := s.rx.(handshakeDone := true), log := s.log.(hsLive := true),
                   life := s.life.(dialArmed := false));
      ReplyEnds(cfg, s1, s, ok);
    }
  }

  lemma ReplyEnds(cfg: Config, s: State, from: State, ok: bool)
    requires Going(s) && !s.rx.d.corrupt && (from.rx.pc == RxReply || (from.rx.pc == RxDerive && ok))
    ensures EndsFor(from, RxResume(ok), RxReplied(cfg, s))
  {
    hide RxDecode;
    DecodeEnds(cfg, s.(life := s.life.(hs := if s.life.hs == HsPending then HsResolved else s.life.hs)));
  }

  lemma CloseEnds(cfg: Config, s: State, ok: bool)
    requires !s.life.terminated && s.life.cleanPc == NoCleanup && s.rx.finReceived && !s.rx.d.corrupt
    requires (s.rx.recv > 0 ==> s.rx.handshakeDone) && s.rx.pc == RxClose
    ensures EndsFor(s, RxResume(ok), RxAfterClose(cfg, s))
  {
    hide RxAfterClose;
    AfterCloseEnds(cfg, s);
  }

  lemma ResumeEnds(cfg: Config, s: State, ok: bool, others: nat)
    requires Inv(cfg, s, others) && !s.life.terminated && s.rx.pc != RxIdle
    ensures EndsFor(s, RxResume(ok), StepRx(cfg, s, ok))
  {
    hide Inv, EndsFor, RxDerived, RxReplied, RxLengthOpened, RxPayloadOpened, RxWritten, RxAfterClose;
    LiveIsGoing(cfg, s, others);
    match s.rx.pc
    case RxDerive => DeriveEnds(cfg, s, ok);
    case RxReply => ReplyEnds(cfg, s, s, ok);
    case RxLength => LengthEnds(cfg, s, ok);
    case RxPayload => PayloadEnds(cfg, s, ok, others);
    case RxWrite(p) => WriteEnds(cfg, s, p, ok);
    case RxClose => CloseEnds(cfg, s, ok);
  }

  lemma LengthEnds(cfg: Config, s: State, ok: bool)
    requires Going(s) && !s.rx.d.corrupt && s.rx.pc == RxLength
    ensures EndsFor(s, RxResume(ok), RxLengthOpened(cfg, s))
  {
    hide RxAbort, RxToPayload, OpenLength;
    var d := s.rx.d;
    if d.flight.LengthFrame? {
      match OpenLength(cfg.cipher(ServerNonce(d)), d.flight.iv, d.flight.chunk)
      case None => AbortEnds(cfg, s.(rx := s.rx.(d := Broken(d))), DecryptError);
      case Some(n) => ToPayloadEnds(cfg, s.(rx := s.rx.(d := LengthOpened(d, n))));
    }
  }

  lemma PayloadEnds(cfg: Config, s: State, ok: bool, others: nat)
    requires Inv(cfg, s, others) && Going(s) && s.rx.pc == RxPayload && !s.rx.d.corrupt
    ensures EndsFor(s, RxResume(ok), RxPayloadOpened(cfg, s))
  {
    hide Inv, RxAbort, RxDecode;
    OpeningIsUp(cfg, s, others);
    var d := s.rx.d;
    match cfg.cipher(ServerNonce(d)).open(d.flight.iv, d.flight.chunk)
    case None => AbortEnds(cfg, s.(rx := s.rx.(d := Broken(d))), DecryptError);
    case Some(p) => DecodeEnds(cfg, s.(rx := s.rx.(d := PayloadOpened(d, p))));
  }

  lemma OpeningIsUp(cfg: Config, s: State, others: nat)
    requires Inv(cfg, s, others) && s.rx.pc == RxPayload
    ensures s.rx.handshakeDone && s.rx.d.flight.PayloadFrame?
  {
  }

  lemma WriteEnds(cfg: Config, s: State, p: bytes, ok: bool)
    requires Going(s) && !s.rx.d.corrupt && s.rx.pc == RxWrite(p)
    ensures EndsFor(s, RxResume(ok), RxWritten(cfg, s, p, ok))
  {
    hide RxAbort, RxDecode;
    var s1 := s.(life := s.life.(activeWrite := false));
    if ok {
      DecodeEnds(cfg, ResetIdle(s1.(log := s.log.(confirmed := s.log.confirmed + p))));
    } else {
      AbortEnds(cfg, s1.(log := s.log.(writeFailed := true)), ClientWriteError);
    }
  }

  lemma ReadEnds(cfg: Config, s: State, io: Io)
    requires !s.life.terminated && s.life.cleanPc == NoCleanup && !s.rx.d.corrupt && s.rx.handshakeDone
    requires s.main.pc == Reading
    ensures EndsFor(s, MainResume(io), MainRead(cfg, s, io))
  {
    hide Cleanup;
    CleanupWaits(cfg, s, ClientAbort);
    StaysEnded(cfg, Cleanup(cfg, s, ClientAbort));
  }

  lemma SentEnds(cfg: Config, s: State, io: Io)
    requires !s.life.terminated && s.life.cleanPc == NoCleanup && !s.rx.d.corrupt && s.main.pc.SendingData?
    ensures EndsFor(s, MainResume(io), MainPieceSent(cfg, s, s.main.pc.value, s.main.pc.off, io == Ok))
  {
    hide Cleanup, Piece;
    var s1 := UpSub(s, |s.main.pc.value| - s.main.pc.off);
    CleanupWaits(cfg, s1, UpstreamWriteFailed);
    StaysEnded(cfg, Cleanup(cfg, s1, UpstreamWriteFailed));
  }

  lemma ThrowEnds(cfg: Config, s: State, from: State, io: Io)
    requires !s.life.terminated && s.life.cleanPc == NoCleanup && !s.rx.d.corrupt
    requires Breakage(from.main.pc, io) == Some(TunnelError)
    ensures EndsFor(from, MainResume(io), MainThrows(cfg, s))
  {
    hide Cleanup;
    CleanupWaits(cfg, s, TunnelError);
    StaysEnded(cfg, Cleanup(cfg, s, TunnelError));
  }

  lemma SealEnds(cfg: Config, s: State, io: Io)
    requires !s.life.terminated && s.life.cleanPc == NoCleanup && !s.rx.d.corrupt && s.main.pc.SealingData?
    ensures EndsFor(s, MainResume(io), MainSealed(cfg, s, s.main.pc.value, s.main.pc.off, io == Ok))
  {
    hide MainThrows, SealPiece, Piece;
    var v, off := s.main.pc.value, s.main.pc.off;
    if io != Ok {
      var s1 := s.(main := s.main.(upLeak := s.main.upLeak + if off <= |v| then |v| - off else 0));
      ThrowEnds(cfg, s1, s, io);
    }
  }

  lemma QuietStep(cfg: Config, s: State, io: Io)
    requires !s.life.terminated && s.life.cleanPc == NoCleanup && !s.rx.d.corrupt
    requires s.main.pc == Registering || (s.main.pc == AwaitingHandshake && s.rx.handshakeDone) ||
             (Dialing(s.main.pc) && io == Ok)
    ensures EndsFor(s, MainResume(io), StepMain(cfg, s, io))
  {
    hide SealPiece, Piece;
  }

  lemma MainEnds(cfg: Config, s: State, io: Io, others: nat)
    requires Inv(cfg, s, others) && !s.life.terminated && Enabled(s, MainResume(io))
    ensures EndsFor(s, MainResume(io), StepMain(cfg, s, io))
  {
    hide Inv, EndsFor, MainRead, MainPieceSent, MainSealed, MainFinSent, MainThrows, StepDial;
    LiveIsGoing(cfg, s, others);
    match s.main.pc
    case Reading => ReadEnds(cfg, s, io);
    case SendingData(v, off) => SentEnds(cfg, s, io);
    case SealingData(v, off) => SealEnds(cfg, s, io);
    case SendingFin =>
      FullCloseEnds(cfg, s);
      FinSentEnds(cfg, s, io);
    case _ =>
      if s.main.pc == Registering || s.main.pc == AwaitingHandshake || io == Ok {
        QuietStep(cfg, s, io);
      } else {
        ThrowEnds(cfg, s, s, io);
      }
  }

  lemma StaysEnded(cfg: Config, s: State)
    requires s.life.cleanPc != NoCleanup
    ensures MainFinally(cfg, s).life == s.life && MainFinally(cfg, s).rx == s.rx
  {
  }

  lemma FinSentEnds(cfg: Config, s: State, io: Io)
    requires !s.life.terminated && s.life.cleanPc == NoCleanup && s.main.readClosed && s.rx.handshakeDone
    requires Ends(CheckFullClose(cfg, s)) && !s.rx.d.corrupt && s.main.pc == SendingFin
    ensures EndsFor(s, MainResume(io), MainFinSent(cfg, s))
  {
    var s1 := CheckFullClose(cfg, s);
    if s1.life.terminated {
      StaysEnded(cfg, s1);
    }
  }

  /** Why a run ends. Whatever event ends it, the reason names the cause; and every cause
      ends it. */
  lemma EndsForItsCause(cfg: Config, es: seq<Event>, gauge: nat, up: int, e: Event)
    requires GoodConfig(cfg) && Legal(cfg, Init(cfg, gauge, up), es)
    requires var s := Run(cfg, Init(cfg, gauge, up), es);
             !s.life.terminated && Enabled(s, e) && Contract(s, e)
    ensures var s := Run(cfg, Init(cfg, gauge, up), es);
            EndsFor(s, e, Step(cfg, s, e))
  {
    hide Inv, Legal, EndsFor, StepRx, StepMain, OnData, OnClose;
    InitInv(cfg, gauge, up);
    RunKeeps(cfg, Init(cfg, gauge, up), es, gauge);
    var s := Run(cfg, Init(cfg, gauge, up), es);
    match e
    case Data(data, fin) => DataEnds(cfg, s, data, fin, gauge);
    case TransportClose => TransportEnds(cfg, s, gauge);
    case RxResume(ok) => ResumeEnds(cfg, s, ok, gauge);
    case MainResume(io) => MainEnds(cfg, s, io, gauge);
    case _ => OtherEnds(cfg, s, e, gauge);
  }

  lemma OtherEnds(cfg: Config, s: State, e: Event, others: nat)
    requires Inv(cfg, s, others) && !s.life.terminated && Enabled(s, e)
    requires e == TransportError || e == IdleFires || e == DialFires || e == RxMicrotask || e == CleanResume
    ensures EndsFor(s, e, Step(cfg, s, e))
  {
    hide Inv, Cleanup, RxStart, Ends;
    LiveIsGoing(cfg, s, others);
    match e
    case TransportError => CleanupWaits(cfg, s, StreamError);
    case IdleFires => CleanupWaits(cfg, s.(life := s.life.(idleArmed := false)), IdleTimeout);
    case DialFires => CleanupWaits(cfg, s.(life := s.life.(dialArmed := false)), HandshakeTimeout);
    case RxMicrotask =>
      StartEnds(cfg, s.(rx := s.rx.(microtasks := s.rx.microtasks - 1)));
      EndsIs(Step(cfg, s, e));
    case CleanResume =>
  }

  /** A tunnel that ends while a payload is being written to the client waits for that write
      before it does anything to the client, and waits for nothing else. */
  lemma WriteIsAwaited(cfg: Config, es: seq<Event>, gauge: nat, up: int, e: Event)
    requires GoodConfig(cfg) && Legal(cfg, Init(cfg, gauge, up), es)
    requires var s := Run(cfg, Init(cfg, gauge, up), es);
             !s.life.terminated && Enabled(s, e) && Contract(s, e) && Step(cfg, s, e).life.terminated
    ensures var r := Step(cfg, Run(cfg, Init(cfg, gauge, up), es), e);
            r.life.cleanPc == CleanWrite <==> r.rx.pc.RxWrite?
  {
    hide Inv, Legal, Step, Enabled, Contract;
    var s := Run(cfg, Init(cfg, gauge, up), es);
    InitInv(cfg, gauge, up);
    RunKeeps(cfg, Init(cfg, gauge, up), es, gauge);
    StepKeeps(cfg, s, e, gauge);
    EndsForItsCause(cfg, es, gauge, up, e);
    LiveIsGoing(cfg, s, gauge);
    WriteIsMarked(cfg, s, gauge);
    WriteIsMarked(cfg, Step(cfg, s, e), gauge);
    WriteGoesOn(cfg, s, e);
  }

  lemma WriteIsMarked(cfg: Config, s: State, others: nat)
    requires Inv(cfg, s, others)
    ensures s.life.activeWrite ==> s.rx.pc.RxWrite?
    ensures s.rx.pc.RxWrite? && !s.life.terminated ==> s.life.activeWrite
  {
  }

  lemma WriteGoesOn(cfg: Config, s: State, e: Event)
    requires s.life.cleanPc == NoCleanup && (s.rx.pc.RxWrite? ==> s.life.activeWrite)
    ensures var r := Step(cfg, s, e);
            r.rx.pc.RxWrite? ==> r.life.activeWrite
  {
    hide Cleanup, RxStart, StepRx, StepMain, CheckFullClose;
    if e.RxResume? {
      WriteResumes(cfg, s, e.ok);
    }
  }

  lemma WriteResumes(cfg: Config, s: State, ok: bool)
    ensures var r := StepRx(cfg, s, ok);
            r.rx.pc.RxWrite? ==> r.life.activeWrite
  {
    hide RxDecode, RxAbort, RxAfterClose, RxToPayload;
  }

  // What FIN finds, in terms of the bytes received.

  /** The verdict on a finished stream: nothing at all, or whole frames without payload, is a
      refused dial; whole frames with payload are a complete reply; the rest is broken. */
  ghost function VerdictOn(cfg: Config, received: bytes): Reason {
    if CompleteReply(cfg, received) then BothClosed
    else if received == [] || exists ps: seq<bytes> :: Payloads(ps) && Whole(cfg, received, ps) then TargetDialRefused
    else FramingError
  }

  /** After FIN: what the decoder has left over, and whether any payload came, is decided by
      the bytes received alone. */
  lemma VerdictIsOnBytes(cfg: Config, s: State, others: nat)
    requires GoodConfig(cfg) && Inv(cfg, s, others) && s.rx.finReceived
    ensures VerdictOn(cfg, s.log.received) ==
            if Leftover(s.rx.d) then FramingError else if s.rx.recv == 0 then TargetDialRefused else BothClosed
  {
    hide Whole;
    FinishedShape(cfg, s, others);
    if s.rx.d.snSet && !Leftover(s.rx.d) {
      WholeWhenNothingLeft(cfg, s, others);
    }
    forall ps: seq<bytes> | Payloads(ps) && Whole(cfg, s.log.received, ps)
      ensures s.rx.d.snSet && !Leftover(s.rx.d) && ps == s.rx.d.frames
    {
      WholeIsDecodedAs(cfg, s, others, ps);
    }
  }

  lemma FinishedShape(cfg: Config, s: State, others: nat)
    requires Inv(cfg, s, others) && s.rx.finReceived
    ensures var d := s.rx.d;
            && d.flight.Nothing? && !d.corrupt && Starved(d) && s.log.received == d.fed
            && s.rx.recv == |Flatten(d.frames)|
            && (d.snSet ==> Payloads(d.frames) && |s.log.received| >= NONCE_LENGTH)
            && (!d.snSet ==> d.expected == -1 && |s.log.received| == Available(d) < NONCE_LENGTH && d.frames == [])
  {
  }

  lemma WholeIsDecodedAs(cfg: Config, s: State, others: nat, ps: seq<bytes>)
    requires GoodConfig(cfg) && Inv(cfg, s, others) && s.rx.finReceived
    requires Payloads(ps) && Whole(cfg, s.log.received, ps)
    ensures s.rx.d.snSet && !Leftover(s.rx.d) && ps == s.rx.d.frames
  {
    FinishedShape(cfg, s, others);
    StarvedIsComplete(ServerCipher(cfg, s.rx.d), s.rx.d, ps);
  }

  /** The verdict over runs: a tunnel that ends after FIN, without interruption, ends with the
      verdict on what it received, and if that is whole frames in a tunnel that was up, only
      once its client has ended too; before FIN, because the transport closed. */
  lemma EndVerdict(cfg: Config, es: seq<Event>, gauge: nat, up: int, e: Event)
    requires GoodConfig(cfg) && Legal(cfg, Init(cfg, gauge, up), es)
    requires var s := Run(cfg, Init(cfg, gauge, up), es);
             && !s.life.terminated && Enabled(s, e) && Contract(s, e) && Interrupt(s, e).None?
             && Step(cfg, s, e).life.terminated && !Step(cfg, s, e).rx.d.corrupt
    ensures var r := Step(cfg, Run(cfg, Init(cfg, gauge, up), es), e);
            if r.rx.finReceived then
              && r.life.reason == VerdictOn(cfg, r.log.received)
              && (r.life.reason == FramingError || !r.rx.handshakeDone || r.main.readClosed)
            else r.life.reason == TransportClosed && r.rx.transportClosed
  {
    hide Inv, Legal, Step, VerdictOn, Interrupt, Enabled, Contract;
    var s := Run(cfg, Init(cfg, gauge, up), es);
    InitInv(cfg, gauge, up);
    RunKeeps(cfg, Init(cfg, gauge, up), es, gauge);
    StepKeeps(cfg, s, e, gauge);
    EndsForItsCause(cfg, es, gauge, up, e);
    if Step(cfg, s, e).rx.finReceived {
      VerdictIsOnBytes(cfg, Step(cfg, s, e), gauge);
    }
  }

  // Half-close.

  /** Once FIN has been processed the client has been told of the end. A tunnel that lives on
      with nothing to do is up and has had whole frames only, and its client is still open
      or its end is just being passed on. */
  lemma LingersWithReason(cfg: Config, es: seq<Event>, gauge: nat, up: int)
    requires GoodConfig(cfg) && Legal(cfg, Init(cfg, gauge, up), es)
    ensures var s := Run(cfg, Init(cfg, gauge, up), es);
            && (s.rx.finReceived ==> s.life.writeClosed)
            && (s.rx.finReceived && Quiet(s) ==>
                  && s.rx.handshakeDone && VerdictOn(cfg, s.log.received) != FramingError
                  && (s.main.readClosed ==> s.main.pc == SendingFin))
  {
    hide Legal, Step, VerdictOn;
    var s := Run(cfg, Init(cfg, gauge, up), es);
    InitInv(cfg, gauge, up);
    RunKeeps(cfg, Init(cfg, gauge, up), es, gauge);
    if s.rx.finReceived {
      VerdictIsOnBytes(cfg, s, gauge);
      FinPassedOn(cfg, s, gauge);
    }
  }

  lemma FinPassedOn(cfg: Config, s: State, others: nat)
    requires Inv(cfg, s, others) && s.rx.finReceived
    ensures s.life.writeClosed
    ensures Quiet(s) ==>
              s.rx.handshakeDone && !Leftover(s.rx.d) && (s.main.readClosed ==> s.main.pc == SendingFin)
  {
  }

  // The outcome.

  /** When a run that has returned is a success: exactly after `both_closed`, or with the
      handshake done and payload received after an idle timeout or an early close of the
      transport. The outcome names the reason of the first termination. */
  lemma SuccessWhen(cfg: Config, es: seq<Event>, gauge: nat, up: int)
    requires GoodConfig(cfg) && Legal(cfg, Init(cfg, gauge, up), es)
    requires Run(cfg, Init(cfg, gauge, up), es).main.outcome.Some?
    ensures var s := Run(cfg, Init(cfg, gauge, up), es);
            var o := s.main.outcome.value;
            && o.kind == s.life.reason
            && (o.success <==>
                  o.kind == BothClosed ||
                  (o.handshakeDone && o.bytesReceived > 0 && (o.kind == IdleTimeout || o.kind == TransportClosed)))
  {
    hide Legal, Step;
    InitInv(cfg, gauge, up);
    RunKeeps(cfg, Init(cfg, gauge, up), es, gauge);
    OutcomeShape(cfg, Run(cfg, Init(cfg, gauge, up), es), gauge);
  }

  lemma OutcomeShape(cfg: Config, s: State, others: nat)
    requires Inv(cfg, s, others) && s.main.outcome.Some?
    ensures OutcomeOk(s.life, s.rx, s.main.outcome.value)
  {
  }

  /** What the run returns: the reason, the number of bytes handed to the client so far, and
      whether success had been replied. */
  lemma OutcomeCounts(cfg: Config, es: seq<Event>, gauge: nat, up: int, io: Io)
    requires GoodConfig(cfg) && Legal(cfg, Init(cfg, gauge, up), es)
    requires var s := Run(cfg, Init(cfg, gauge, up), es);
             s.main.pc == AwaitingCleanup && Enabled(s, MainResume(io))
    ensures var s := Run(cfg, Init(cfg, gauge, up), es);
            var r := Step(cfg, s, MainResume(io));
            && r.main.pc == Returned && r.main.outcome.Some?
            && var o := r.main.outcome.value;
            && o.bytesReceived == |s.log.written| && o.handshakeDone == s.rx.successSent
  {
    hide Legal, Run;
    var s := Run(cfg, Init(cfg, gauge, up), es);
    InitInv(cfg, gauge, up);
    RunKeeps(cfg, Init(cfg, gauge, up), es, gauge);
    WrittenCount(cfg, s, gauge);
    assert Step(cfg, s, MainResume(io)) == MainReturn(s);
  }

  lemma WrittenCount(cfg: Config, s: State, others: nat)
    requires Inv(cfg, s, others)
    ensures s.rx.recv == |s.log.written| && s.rx.successSent == s.rx.handshakeDone
  {
  }

  /** Whichever side closes last: the step that finds both sides closed decides the outcome
      for good. Whatever happens until the run returns, it returns success exactly if the
      bytes received were a nonce and whole frames with some payload. */
  lemma FullCloseSucceeds(cfg: Config, es: seq<Event>, e: Event, more: seq<Event>, gauge: nat, up: int)
    requires GoodConfig(cfg) && Legal(cfg, Init(cfg, gauge, up), es + [e])
    requires var s := Run(cfg, Init(cfg, gauge, up), es);
             && s.main.readClosed && s.rx.finReceived && !s.life.terminated
             && (|| (e.MainResume? && s.main.pc == SendingFin)
                 || (e.RxResume? && s.rx.pc == RxClose)
                 || (e == TransportClose && s.rx.pc == RxIdle))
    requires Legal(cfg, Run(cfg, Init(cfg, gauge, up), es + [e]), more)
    ensures var s := Run(cfg, Init(cfg, gauge, up), es);
            var r := Run(cfg, Run(cfg, Init(cfg, gauge, up), es + [e]), more);
            r.main.outcome.Some? ==> (r.main.outcome.value.success <==> CompleteReply(cfg, s.log.received))
  {
    hide Inv, Step, CompleteReply;
    var s0 := Init(cfg, gauge, up);
    var s := Run(cfg, s0, es);
    RunSplits(cfg, s0, es, e);
    FullCloseVerdict(cfg, es, gauge, up, e);
    var t := Run(cfg, s0, es + [e]);
    InitInv(cfg, gauge, up);
    RunKeeps(cfg, s0, es + [e], gauge);
    ReasonIsFinal(cfg, t, more, gauge);
    RunKeeps(cfg, t, more, gauge);
    var r := Run(cfg, t, more);
    if r.main.outcome.Some? {
      OutcomeShape(cfg, r, gauge);
      FullCloseReasons(cfg, es, gauge, up, e);
    }
  }

  lemma FullCloseReasons(cfg: Config, es: seq<Event>, gauge: nat, up: int, e: Event)
    requires GoodConfig(cfg) && Legal(cfg, Init(cfg, gauge, up), es)
    requires var s := Run(cfg, Init(cfg, gauge, up), es);
             && s.main.readClosed && s.rx.finReceived && !s.life.terminated && Enabled(s, e) && Contract(s, e)
             && (|| (e.MainResume? && s.main.pc == SendingFin)
                 || (e.RxResume? && s.rx.pc == RxClose)
                 || (e == TransportClose && s.rx.pc == RxIdle))
    ensures var r := Step(cfg, Run(cfg, Init(cfg, gauge, up), es), e);
            r.life.reason != IdleTimeout && r.life.reason != TransportClosed
  {
    hide Inv, Legal, Step, Enabled, Contract;
    var s := Run(cfg, Init(cfg, gauge, up), es);
    EndsForItsCause(cfg, es, gauge, up, e);
    FullCloseVerdict(cfg, es, gauge, up, e);
    FinStays(cfg, s, e);
  }

  lemma FinStays(cfg: Config, s: State, e: Event)
    requires s.rx.finReceived && (e.MainResume? || e == TransportClose || (e.RxResume? && s.rx.pc == RxClose))
    ensures Step(cfg, s, e).rx.finReceived
  {
    hide Cleanup;
    if e.RxResume? {
      assert Step(cfg, s, e) == RxAfterClose(cfg, s);
    }
  }

  lemma {:induction false} RunSplits(cfg: Config, s: State, es: seq<Event>, e: Event)
    requires Legal(cfg, s, es + [e])
    ensures Legal(cfg, s, es) && Enabled(Run(cfg, s, es), e) && Contract(Run(cfg, s, es), e)
    ensures Run(cfg, s, es + [e]) == Step(cfg, Run(cfg, s, es), e)
    decreases |es|
  {
    hide Step, Enabled, Contract;
    if es == [] {
      assert es + [e] == [e] && [e][1..] == [];
      assert Run(cfg, Step(cfg, s, e), []) == Step(cfg, s, e);
    } else {
      assert (es + [e])[1..] == es[1..] + [e];
      RunSplits(cfg, Step(cfg, s, es[0]), es[1..], e);
    }
  }

  // The client's streams.

  /** What a run that has returned leaves of the client's streams. A last attempt, and one that
      came up in time, has cancelled the reader and closed the writer. An earlier attempt
      that never came up has not cancelled the reader, and has closed the writer only if the
      server's FIN was processed. Failure was signalled by a last attempt that never came up. */
  lemma ClientStreamsExact(cfg: Config, es: seq<Event>, gauge: nat, up: int)
    requires GoodConfig(cfg) && Legal(cfg, Init(cfg, gauge, up), es)
    requires Run(cfg, Init(cfg, gauge, up), es).main.pc == Returned
    ensures var s := Run(cfg, Init(cfg, gauge, up), es);
            && (cfg.lastAttempt || s.log.hsLive ==> s.life.cancelled && s.life.writeClosed)
            && (!cfg.lastAttempt && !s.rx.handshakeDone ==>
                  !s.life.cancelled && (s.life.writeClosed <==> s.rx.finReceived))
            && (!s.rx.handshakeDone ==> (s.life.failureSent <==> cfg.lastAttempt))
            && (s.log.hsLive ==> !s.life.failureSent)
  {
    hide Legal, Step;
    InitInv(cfg, gauge, up);
    RunKeeps(cfg, Init(cfg, gauge, up), es, gauge);
    ReturnedShape(cfg, Run(cfg, Init(cfg, gauge, up), es), gauge);
  }

  lemma ReturnedShape(cfg: Config, s: State, others: nat)
    requires Inv(cfg, s, others) && s.main.pc == Returned
    ensures (cfg.lastAttempt || s.log.hsLive ==> s.life.cancelled && s.life.writeClosed)
    ensures !cfg.lastAttempt && !s.rx.handshakeDone ==>
              !s.life.cancelled && (s.life.writeClosed <==> s.rx.finReceived)
    ensures !s.rx.handshakeDone ==> (s.life.failureSent <==> cfg.lastAttempt)
    ensures s.log.hsLive ==> !s.life.failureSent
  {
    hide Rep, Cat, Flatten, FinsLast;
  }

  /** While the server's answer is awaited its time is limited. */
  lemma DialIsTimed(cfg: Config, es: seq<Event>, gauge: nat, up: int)
    requires GoodConfig(cfg) && Legal(cfg, Init(cfg, gauge, up), es)
    ensures var s := Run(cfg, Init(cfg, gauge, up), es);
            s.main.pc == AwaitingHandshake && !s.rx.handshakeDone && !s.life.terminated ==> s.life.dialArmed
  {
    hide Legal, Step;
    InitInv(cfg, gauge, up);
    RunKeeps(cfg, Init(cfg, gauge, up), es, gauge);
  }

  // Nothing that comes in is lost.

  /** All bytes that the transport delivers in a list of events. */
  function DataIn(es: seq<Event>): bytes {
    if es == [] then [] else (if es[0].Data? then es[0].data else []) + DataIn(es[1..])
  }

  predicate FinIn(es: seq<Event>) {
    exists i :: 0 <= i < |es| && es[i].Data? && es[i].fin
  }

  lemma StepTakes(cfg: Config, s: State, e: Event)
    ensures var r := Step(cfg, s, e);
            if e.Data? && !s.life.terminated && s.acct.queuedBytes + |e.data| <= MAX_RX_BUFFER_BYTES then
              r.log.received == s.log.received + e.data && r.log.finSeen == (s.log.finSeen || e.fin)
            else
              && r.log.received == s.log.received && r.log.finSeen == s.log.finSeen
              && (e.Data? ==> r.life.terminated || s.life.cleanPc != NoCleanup)
  {
    hide Cleanup;
    match e
    case RxResume(ok) => ReceivedSame(cfg, s, ok);
    case Data(data, fin) => CleanupEnds(cfg, ResetIdle(s), RxOverflow);
    case _ =>
  }

  lemma ReceivedSame(cfg: Config, s: State, ok: bool)
    ensures StepRx(cfg, s, ok).log.received == s.log.received && StepRx(cfg, s, ok).log.finSeen == s.log.finSeen
  {
  }

  lemma CleanupEnds(cfg: Config, s: State, why: Reason)
    ensures Cleanup(cfg, s, why).life.terminated || s.life.cleanPc != NoCleanup
  {
  }

  lemma {:induction false} RunTakes(cfg: Config, s: State, es: seq<Event>, others: nat)
    requires GoodConfig(cfg) && Inv(cfg, s, others) && Legal(cfg, s, es)
    ensures var r := Run(cfg, s, es);
            && s.log.received <= r.log.received <= s.log.received + DataIn(es)
            && (s.life.terminated ==> r.life.terminated && r.log.received == s.log.received)
            && (!r.life.terminated ==>
                  r.log.received == s.log.received + DataIn(es) && r.log.finSeen == (s.log.finSeen || FinIn(es)))
    decreases |es|
  {
    hide Inv, Step, Enabled, Contract;
    if es != [] {
      StepKeeps(cfg, s, es[0], others);
      StepGrows(cfg, s, es[0], others);
      StepTakes(cfg, s, es[0]);
      TerminatedIsCleaning(cfg, s, others);
      RunTakes(cfg, Step(cfg, s, es[0]), es[1..], others);
      FinInHead(es);
      assert s.log.received + DataIn(es) ==
             (s.log.received + if es[0].Data? then es[0].data else []) + DataIn(es[1..]);
    }
  }

  lemma FinInHead(es: seq<Event>)
    requires es != []
    ensures FinIn(es) <==> (es[0].Data? && es[0].fin) || FinIn(es[1..])
  {
    if FinIn(es[1..]) {
      var i :| 0 <= i < |es[1..]| && es[1..][i].Data? && es[1..][i].fin;
      assert es[i + 1].Data? && es[i + 1].fin;
    }
    if FinIn(es) {
      var i :| 0 <= i < |es| && es[i].Data? && es[i].fin;
      assert i > 0 ==> es[1..][i - 1].Data? && es[1..][i - 1].fin;
    }
  }

  /** A live tunnel has taken in every byte the transport delivered, and FIN; one that has
      ended, what came before its end. */
  lemma EverythingTaken(cfg: Config, es: seq<Event>, gauge: nat, up: int)
    requires GoodConfig(cfg) && Legal(cfg, Init(cfg, gauge, up), es)
    ensures var s := Run(cfg, Init(cfg, gauge, up), es);
            && s.log.received <= DataIn(es)
            && (!s.life.terminated ==> s.log.received == DataIn(es) && s.log.finSeen == FinIn(es))
  {
    hide Inv, Legal, Run, DataIn, FinIn;
    InitInv(cfg, gauge, up);
    RunTakes(cfg, Init(cfg, gauge, up), es, gauge);
    var s0 := Init(cfg, gauge, up);
    assert s0.log.received + DataIn(es) == DataIn(es);
  }

  /** What the client's reader hands out in a run, and whether it ends. */
  function ReadIn(cfg: Config, s: State, es: seq<Event>): bytes
    decreases |es|
  {
    if es == [] then []
    else
      (if s.main.pc == Reading && es[0].MainResume? && es[0].io.Chunk? then es[0].io.value else [])
      + ReadIn(cfg, Step(cfg, s, es[0]), es[1..])
  }

  /** The client's reader reported the end of the client's stream. */
  predicate EndIn(cfg: Config, s: State, es: seq<Event>)
    decreases |es|
  {
    es != [] &&
    ((s.main.pc == Reading && es[0] == MainResume(Done)) || EndIn(cfg, Step(cfg, s, es[0]), es[1..]))
  }

  lemma StepReads(cfg: Config, s: State, e: Event, others: nat)
    requires GoodConfig(cfg) && Inv(cfg, s, others) && Enabled(s, e)
    ensures var r := Step(cfg, s, e);
            && r.main.u.clientRead == s.main.u.clientRead +
                 (if s.main.pc == Reading && e.MainResume? && e.io.Chunk? then e.io.value else [])
            && (s.main.pc == Reading && e == MainResume(Done) ==> r.main.pc == SendingFin)
            && (r.main.readClosed <==> s.main.readClosed || (s.main.pc == Reading && e == MainResume(Done)))
  {
    hide Inv, StepMain, StepRx, Cleanup;
    assert s.main.u.clientRead + [] == s.main.u.clientRead;
    match e
    case RxResume(ok) => SameMain(cfg, s, ok);
    case MainResume(io) =>
      if s.main.pc == Reading {
        LiveAtRead(cfg, s, others);
      }
      MainReads(cfg, s, io);
    case _ => OtherGrows(cfg, s, e, others);
  }

  lemma SameMain(cfg: Config, s: State, ok: bool)
    ensures Step(cfg, s, RxResume(ok)).main == s.main
  {
    hide StepRx;
    assert Step(cfg, s, RxResume(ok)) == StepRx(cfg, s, ok);
  }

  lemma MainReads(cfg: Config, s: State, io: Io)
    requires s.main.pc == Reading ==> s.rx.handshakeDone
    ensures var r := StepMain(cfg, s, io);
            if s.main.pc == Reading then
              && r.main.u.clientRead == s.main.u.clientRead + (if io.Chunk? then io.value else [])
              && (io == Done ==> r.main.pc == SendingFin)
              && (r.main.readClosed <==> s.main.readClosed || io == Done)
            else r.main.u.clientRead == s.main.u.clientRead && r.main.readClosed == s.main.readClosed
  {
    if s.main.pc == Reading {
      hide MainAfterLoop, MainLoop, Cleanup;
      assert StepMain(cfg, s, io) == MainRead(cfg, s, io);
      assert s.main.u.clientRead + [] == s.main.u.clientRead;
    }
  }

  lemma LiveAtRead(cfg: Config, s: State, others: nat)
    requires Inv(cfg, s, others) && s.main.pc == Reading
    ensures s.rx.handshakeDone
  {
  }

  lemma {:induction false} RunReads(cfg: Config, s: State, es: seq<Event>, others: nat)
    requires GoodConfig(cfg) && Inv(cfg, s, others) && Legal(cfg, s, es)
    ensures Run(cfg, s, es).main.u.clientRead == s.main.u.clientRead + ReadIn(cfg, s, es)
    ensures Run(cfg, s, es).main.readClosed <==> s.main.readClosed || EndIn(cfg, s, es)
    decreases |es|
  {
    hide Inv, Step, Enabled, Contract;
    if es != [] {
      StepKeeps(cfg, s, es[0], others);
      StepReads(cfg, s, es[0], others);
      RunReads(cfg, Step(cfg, s, es[0]), es[1..], others);
    }
  }

  /** Every byte that the client's reader handed out was taken for sending, in order. The end
      of the client's stream, and nothing else, makes the tunnel pass an end on to the server
      and stop reading while it lives. */
  lemma EverythingRead(cfg: Config, es: seq<Event>, gauge: nat, up: int)
    requires GoodConfig(cfg) && Legal(cfg, Init(cfg, gauge, up), es)
    ensures var s0 := Init(cfg, gauge, up);
            var s := Run(cfg, s0, es);
            && s.main.u.clientRead == ReadIn(cfg, s0, es)
            && (s.main.readClosed <==> EndIn(cfg, s0, es))
            && (s.main.pc == Reading ==> Step(cfg, s, MainResume(Done)).main.pc == SendingFin)
            && (s.main.pc == SendingFin || s.main.pc == AwaitingCompletion ==> s.main.readClosed)
            && (s.main.pc == AwaitingCleanup || s.main.pc == Returned ==> s.life.terminated)
  {
    hide Inv, Legal, Run, Step, ReadIn, EndIn;
    var s0 := Init(cfg, gauge, up);
    InitInv(cfg, gauge, up);
    RunReads(cfg, s0, es, gauge);
    RunKeeps(cfg, s0, es, gauge);
    assert s0.main.u.clientRead + ReadIn(cfg, s0, es) == ReadIn(cfg, s0, es);
    StopsReading(cfg, Run(cfg, s0, es), gauge);
    if Run(cfg, s0, es).main.pc == Reading {
      StepReads(cfg, Run(cfg, s0, es), MainResume(Done), gauge);
    }
  }

  lemma StopsReading(cfg: Config, s: State, others: nat)
    requires Inv(cfg, s, others)
    ensures s.main.pc == SendingFin || s.main.pc == AwaitingCompletion ==> s.main.readClosed
    ensures s.main.pc == AwaitingCleanup || s.main.pc == Returned ==> s.life.terminated
  {
  }
}
