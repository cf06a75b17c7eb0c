/** One run of the client tunnel as a state machine. A step goes from one `await` to the
    next: the receive task, the main task and the cleanup task each have a program counter,
    and timers, transport callbacks and resumptions are events that may come in any order. */
module Tunnel {
  import opened Bytes
  import opened Nonces
  import opened Aead
  import opened Framing
  import opened Decoder

  const MAX_RX_BUFFER_BYTES: nat := 16 * 1024 * 1024
  const CHUNK_SIZE: nat := 32768

  datatype Reason =
    | Unknown | LoopExit | IdleTimeout | HandshakeTimeout | ClientAbort | FramingError
    | TargetDialRefused | BothClosed | DecryptError | ClientWriteError | RxError | RxOverflow
    | TransportClosed | StreamError | TunnelError | UpstreamWriteFailed

  /** What the receive task awaits. */
  datatype RxPc = RxIdle | RxDerive | RxReply | RxLength | RxPayload | RxWrite(p: bytes) | RxClose

  /** What the main task awaits. */
  datatype MainPc =
    | Registering | Connecting | SendingNonce | SealingHeader | SendingHeader
    | SealingLeftover(off: nat) | SendingLeftover(off: nat)
    | AwaitingHandshake | Reading | SendingFin
    | SealingData(value: bytes, off: nat) | SendingData(value: bytes, off: nat)
    | AwaitingCompletion | AwaitingCleanup | Returned

  /** What the cleanup task awaits. */
  datatype CleanPc = NoCleanup | CleanWrite | CleanReply | CleanCancel | CleanClose | CleanDone

  datatype Promise = HsPending | HsResolved | HsRejected

  datatype Item = Item(data: bytes, fin: bool)

  datatype Outcome = Outcome(success: bool, kind: Reason, bytesReceived: nat, handshakeDone: bool)

  /** Termination, timers, and what has been done to the client streams. */
  datatype Life = Life(
    terminated: bool, reason: Reason, cleanPc: CleanPc, cleanups: nat,
    hs: Promise, dialArmed: bool, idleArmed: bool,
    writeClosed: bool, failureSent: bool, cancelled: bool, activeWrite: bool)

  /** Receive-queue accounting: the tunnel's own counter and the shared gauge. */
  datatype Acct = Acct(queuedBytes: int, gauge: int)

  /** The receive task. */
  datatype Receive = Receive(
    d: Rx, queue: seq<Item>, pc: RxPc, curFin: bool, microtasks: nat,
    finReceived: bool, transportClosed: bool, successSent: bool, handshakeDone: bool, recv: nat)

  /** History: bytes accepted from the transport, bytes passed to the client writer, bytes
      whose write was confirmed, whether a write failed, whether FIN was accepted, and
      whether the handshake finished before termination. */
  datatype Log = Log(
    received: bytes, written: bytes, confirmed: bytes, writeFailed: bool, finSeen: bool, hsLive: bool)

  /** The sealing side: the advancing client nonce, and as history every byte handed to the
      transport, the payloads sealed, and the bytes read from the client socket. */
  datatype Uplink = Uplink(cn: Nonce, wire: bytes, up: seq<bytes>, clientRead: bytes)

  /** The main task, its share of the shared upload gauge included; `upLeak` is history. */
  datatype Main = Main(
    pc: MainPc, u: Uplink, readClosed: bool, upGauge: int, upLeak: nat, outcome: Option<Outcome>)

  datatype State = State(life: Life, acct: Acct, rx: Receive, log: Log, main: Main)

  /** The parameters of one run. `lastAttempt` stands for the two options the callers set
      together: close the client streams, and report failure to the client. */
  datatype Config = Config(cipher: Nonce -> Cipher, cn: Nonce, header: bytes, leftover: bytes, lastAttempt: bool)

  ghost predicate GoodConfig(cfg: Config) {
    forall n: Nonce :: Gcm(cfg.cipher(n))
  }

  /** Results of an awaited operation of the main task. */
  datatype Io = Ok | Fail | SealThrows | Chunk(value: bytes) | Done

  datatype Event =
    | Data(data: bytes, fin: bool) | TransportClose | TransportError
    | IdleFires | DialFires
    | RxMicrotask | RxResume(ok: bool)
    | MainResume(io: Io)
    | CleanResume

  function Init(cfg: Config, gauge: int, upGauge: int): State {
    State(
      Life(false, Unknown, NoCleanup, 0, HsPending, false, false, false, false, false, false),
      Acct(0, gauge),
      Receive(EMPTY, [], RxIdle, false, 0, false, false, false, false, 0),
      Log([], [], [], false, false, false),
      Main(Registering, Uplink(cfg.cn, [], [], []), false, upGauge, 0, None))
  }

  /** What only ever goes one way: marks on the client streams, and, once a cleanup has
      begun, its reason and the fact that it was the first. */
  ghost predicate LifeGrows(l: Life, r: Life) {
    && (l.writeClosed ==> r.writeClosed)
    && (l.cancelled ==> r.cancelled)
    && (l.failureSent ==> r.failureSent)
    && (l.terminated ==> r.terminated)
    && (l.cleanPc != NoCleanup ==> r.cleanPc != NoCleanup && r.reason == l.reason && r.cleanups == l.cleanups)
  }

  /** What queue handling and decoding never change. */
  ghost predicate Steady(rx: Receive, r: Receive) {
    && r.handshakeDone == rx.handshakeDone && r.successSent == rx.successSent
    && r.recv == rx.recv && r.d.corrupt == rx.d.corrupt && r.d.frames == rx.d.frames
  }

  // Shared pieces: timers, cleanup, the full-close check.

  function ResetIdle(s: State): State {
    if s.life.terminated then s else s.(life := s.life.(idleArmed := true))
  }

  function Cleanup(cfg: Config, s: State, why: Reason): (r: State)
    ensures r.rx == s.rx && r.log == s.log && r.main == s.main
    ensures LifeGrows(s.life, r.life) && r.life.activeWrite == s.life.activeWrite
  {
    if s.life.cleanPc != NoCleanup then s else
    var l := s.life.(
      terminated := true, reason := why, cleanups := s.life.cleanups + 1,
      hs := if !s.rx.handshakeDone && s.life.hs == HsPending then HsRejected else s.life.hs,
      dialArmed := false, idleArmed := false);
    s.(life := if l.activeWrite then l.(cleanPc := CleanWrite) else CleanToReply(cfg, s.rx, l),
       acct := ReleaseQueued(s.acct))
  }

  function ReleaseQueued(a: Acct): Acct {
    if a.queuedBytes > 0 then Acct(0, Max(0, a.gauge - a.queuedBytes)) else a
  }

  function CleanToReply(cfg: Config, rx: Receive, l: Life): (r: Life)
    ensures l.cleanPc != NoCleanup ==> LifeGrows(l, r)
  {
    if !rx.handshakeDone && !rx.successSent && cfg.lastAttempt then
      l.(failureSent := true, cleanPc := CleanReply)
    else
      CleanToCancel(cfg, rx, l)
  }

  function CleanToCancel(cfg: Config, rx: Receive, l: Life): (r: Life)
    ensures l.cleanPc != NoCleanup ==> LifeGrows(l, r)
  {
    if cfg.lastAttempt || rx.handshakeDone then
      l.(cancelled := true, cleanPc := CleanCancel)
    else
      l.(cleanPc := CleanDone)
  }

  function CleanToClose(l: Life): Life {
    if !l.writeClosed then l.(writeClosed := true, cleanPc := CleanClose) else l.(cleanPc := CleanDone)
  }

  function StepClean(cfg: Config, rx: Receive, l: Life): (r: Life)
    ensures l.cleanPc != NoCleanup ==> LifeGrows(l, r)
  {
    match l.cleanPc
    case CleanWrite => CleanToReply(cfg, rx, l.(activeWrite := false))
    case CleanReply => CleanToCancel(cfg, rx, l)
    case CleanCancel => CleanToClose(l)
    case CleanClose => l.(cleanPc := CleanDone)
    case _ => l
  }

  predicate Leftover(d: Rx) {
    d.expected != -1 || Available(d) > 0
  }

  function CheckFullClose(cfg: Config, s: State): (r: State)
    ensures r.rx == s.rx && r.log == s.log && r.main == s.main
    ensures LifeGrows(s.life, r.life) && r.life.activeWrite == s.life.activeWrite
  {
    if !(s.main.readClosed && s.rx.finReceived) then s
    else if !s.rx.handshakeDone then Cleanup(cfg, s, ClientAbort)
    else if Leftover(s.rx.d) then Cleanup(cfg, s, FramingError)
    else if s.rx.recv == 0 then Cleanup(cfg, s, TargetDialRefused)
    else Cleanup(cfg, s, BothClosed)
  }

  // The receive task.

  function RxGoto(s: State, pc: RxPc): State {
    s.(rx := s.rx.(pc := pc))
  }

  function RxFinally(cfg: Config, s: State): (r: State)
    ensures r.main == s.main && r.log == s.log
    ensures LifeGrows(s.life, r.life) && Steady(s.rx, r.rx)
    ensures !r.rx.pc.RxWrite?
  {
    var s1 := RxGoto(s, RxIdle);
    if s.rx.queue != [] && !s.life.terminated then s1.(rx := s1.rx.(microtasks := s1.rx.microtasks + 1))
    else if s.rx.transportClosed && !s.life.terminated && !s.rx.finReceived then Cleanup(cfg, s1, TransportClosed)
    else s1
  }

  function RxAbort(cfg: Config, s: State, why: Reason): (r: State)
    ensures r.main == s.main && r.log == s.log
    ensures LifeGrows(s.life, r.life) && Steady(s.rx, r.rx)
    ensures !r.rx.pc.RxWrite?
  {
    RxFinally(cfg, Cleanup(cfg, s, why))
  }

  function Pop(rx: Receive): (r: Receive)
    requires rx.queue != []
    ensures |r.queue| == |rx.queue| - 1
  {
    rx.(queue := rx.queue[1..], curFin := rx.queue[0].fin)
  }

  function Unqueue(a: Acct, n: nat): Acct {
    Acct(a.queuedBytes - n, Max(0, a.gauge - n))
  }

  /** The outer loop: take items until one of them makes the task wait. */
  function RxLoop(cfg: Config, s: State): (r: State)
    ensures r.main == s.main && r.log == s.log
    ensures LifeGrows(s.life, r.life) && Steady(s.rx, r.rx)
    ensures !r.rx.pc.RxWrite?
    decreases |s.rx.queue|, 0
  {
    if s.rx.queue == [] || s.life.terminated then RxFinally(cfg, s)
    else
      var data := s.rx.queue[0].data;
      var s1 := s.(rx := Pop(s.rx), acct := Unqueue(s.acct, |data|));
      if data == [] then RxAfterData(cfg, s1)
      else RxFed(cfg, s1.(rx := s1.rx.(d := Feed(s1.rx.d, data))))
  }

  /** New bytes are in the buffer: read the server nonce, or decode. */
  function RxFed(cfg: Config, s: State): (r: State)
    ensures r.main == s.main && r.log == s.log
    ensures LifeGrows(s.life, r.life) && Steady(s.rx, r.rx)
    ensures !r.rx.pc.RxWrite?
    decreases |s.rx.queue|, 4
  {
    if s.rx.handshakeDone then RxDecode(cfg, s)
    else if Available(s.rx.d) < NONCE_LENGTH then RxLoop(cfg, s)
    else s.(rx := s.rx.(d := TakeNonce(s.rx.d), pc := RxDerive))
  }

  /** The decoding loop, from its head. */
  function RxDecode(cfg: Config, s: State): (r: State)
    ensures r.main == s.main && r.log == s.log
    ensures LifeGrows(s.life, r.life) && Steady(s.rx, r.rx)
    ensures !r.rx.pc.RxWrite?
    decreases |s.rx.queue|, 3
  {
    if !s.rx.handshakeDone || s.life.terminated then RxTrim(cfg, s)
    else if s.rx.d.expected != -1 then RxToPayload(cfg, s)
    else if Available(s.rx.d) < LENGTH_FRAME then RxTrim(cfg, s)
    else s.(rx := s.rx.(d := TakeLength(s.rx.d), pc := RxLength))
  }

  function RxToPayload(cfg: Config, s: State): (r: State)
    ensures r.main == s.main && r.log == s.log
    ensures LifeGrows(s.life, r.life) && Steady(s.rx, r.rx)
    ensures !r.rx.pc.RxWrite?
    decreases |s.rx.queue|, 2
  {
    if s.rx.d.expected < 0 || Available(s.rx.d) < s.rx.d.expected + TAG then RxTrim(cfg, s)
    else s.(rx := s.rx.(d := TakePayload(s.rx.d), pc := RxPayload))
  }

  function RxTrim(cfg: Config, s: State): (r: State)
    ensures r.main == s.main && r.log == s.log
    ensures LifeGrows(s.life, r.life) && Steady(s.rx, r.rx)
    ensures !r.rx.pc.RxWrite?
    decreases |s.rx.queue|, 2, 0
  {
    RxAfterData(cfg, s.(rx := s.rx.(d := Trim(s.rx.d))))
  }

  function RxAfterData(cfg: Config, s: State): (r: State)
    ensures r.main == s.main && r.log == s.log
    ensures LifeGrows(s.life, r.life) && Steady(s.rx, r.rx)
    ensures !r.rx.pc.RxWrite?
    decreases |s.rx.queue|, 1
  {
    if s.rx.curFin then RxFin(cfg, s) else RxLoop(cfg, s)
  }

  function RxFin(cfg: Config, s: State): (r: State)
    ensures r.main == s.main && r.log == s.log
    ensures LifeGrows(s.life, r.life) && Steady(s.rx, r.rx)
    ensures !r.rx.pc.RxWrite?
  {
    var s1 := s.(rx := s.rx.(finReceived := true));
    if !s.life.writeClosed then
      RxGoto(s1, RxClose).(life := s.life.(writeClosed := true))
    else RxAfterClose(cfg, s1)
  }

  function RxAfterClose(cfg: Config, s: State): (r: State)
    ensures r.main == s.main && r.log == s.log
    ensures LifeGrows(s.life, r.life) && Steady(s.rx, r.rx)
    ensures !r.rx.pc.RxWrite?
  {
    if Leftover(s.rx.d) then RxAbort(cfg, s, FramingError)
    else if !s.rx.handshakeDone && s.rx.recv == 0 then RxAbort(cfg, s, TargetDialRefused)
    else
      var s1 := CheckFullClose(cfg, s);
      RxFinally(cfg, if s1.rx.finReceived && !s1.main.readClosed && !s1.life.terminated then ResetIdle(s1) else s1)
  }

  function RxDerived(cfg: Config, s: State, ok: bool): (r: State)
    ensures r.main == s.main
  {
    if !ok then RxAbort(cfg, s, RxError)
    else
      var s1 := s.(rx := s.rx.(handshakeDone := true),
                   log := s.log.(hsLive := !s.life.terminated),
                   life := s.life.(dialArmed := false));
      if !s.rx.successSent then s1.(rx := s1.rx.(successSent := true, pc := RxReply))
      else RxReplied(cfg, s1)
  }

  function RxReplied(cfg: Config, s: State): (r: State)
    ensures r.main == s.main && r.log == s.log
    ensures LifeGrows(s.life, r.life) && Steady(s.rx, r.rx)
    ensures !r.rx.pc.RxWrite?
  {
    RxDecode(cfg, s.(life := s.life.(hs := if s.life.hs == HsPending then HsResolved else s.life.hs)))
  }

  function RxLengthOpened(cfg: Config, s: State): (r: State)
    ensures r.main == s.main
  {
    var d := s.rx.d;
    if !d.flight.LengthFrame? then s else
    match OpenLength(cfg.cipher(ServerNonce(d)), d.flight.iv, d.flight.chunk)
    case None => RxAbort(cfg, s.(rx := s.rx.(d := Broken(d))), DecryptError)
    case Some(n) => RxToPayload(cfg, s.(rx := s.rx.(d := LengthOpened(d, n))))
  }

  function RxPayloadOpened(cfg: Config, s: State): (r: State)
    ensures r.main == s.main
  {
    var d := s.rx.d;
    if !d.flight.PayloadFrame? then s else
    match cfg.cipher(ServerNonce(d)).open(d.flight.iv, d.flight.chunk)
    case None => RxAbort(cfg, s.(rx := s.rx.(d := Broken(d))), DecryptError)
    case Some(p) => RxPlain(cfg, s, p)
  }

  /** A payload was opened: write it to the client unless it is empty. */
  function RxPlain(cfg: Config, s: State, p: bytes): (r: State)
    ensures r.main == s.main
  {
    var rx := s.rx.(d := PayloadOpened(s.rx.d, p));
    if p == [] then RxDecode(cfg, s.(rx := rx))
    else s.(rx := rx.(recv := rx.recv + |p|, pc := RxWrite(p)),
            log := s.log.(written := s.log.written + p),
            life := s.life.(activeWrite := true))
  }

  function RxWritten(cfg: Config, s: State, p: bytes, ok: bool): (r: State)
    ensures r.main == s.main
  {
    var s1 := s.(life := s.life.(activeWrite := false));
    if ok then RxDecode(cfg, ResetIdle(s1.(log := s.log.(confirmed := s.log.confirmed + p))))
    else RxAbort(cfg, s1.(log := s.log.(writeFailed := true)), ClientWriteError)
  }

  function StepRx(cfg: Config, s: State, ok: bool): (r: State)
    ensures r.main == s.main
  {
    match s.rx.pc
    case RxIdle => s
    case RxDerive => RxDerived(cfg, s, ok)
    case RxReply => RxReplied(cfg, s)
    case RxLength => RxLengthOpened(cfg, s)
    case RxPayload => RxPayloadOpened(cfg, s)
    case RxWrite(p) => RxWritten(cfg, s, p, ok)
    case RxClose => RxAfterClose(cfg, s)
  }

  /** A call of the queue processor: it does nothing while another call is active. */
  function RxStart(cfg: Config, s: State): (r: State)
    ensures r.main == s.main && r.log == s.log
    ensures LifeGrows(s.life, r.life) && Steady(s.rx, r.rx)
    ensures r.rx.pc.RxWrite? ==> r == s
  {
    if s.rx.pc != RxIdle || s.life.terminated then s else RxLoop(cfg, s)
  }

  // The transport callbacks.

  function OnData(cfg: Config, s: State, data: bytes, fin: bool): (r: State)
    ensures r.main == s.main
  {
    if s.life.terminated then s
    else if s.acct.queuedBytes + |data| > MAX_RX_BUFFER_BYTES then Cleanup(cfg, ResetIdle(s), RxOverflow)
    else RxStart(cfg, Enqueue(ResetIdle(s), data, fin))
  }

  function Enqueue(s: State, data: bytes, fin: bool): State {
    s.(acct := Acct(s.acct.queuedBytes + |data|, s.acct.gauge + |data|),
       rx := s.rx.(queue := s.rx.queue + [Item(data, fin)]),
       log := s.log.(received := s.log.received + data, finSeen := s.log.finSeen || fin))
  }

  function OnClose(cfg: Config, s: State): (r: State)
    ensures r.main == s.main && r.log == s.log
  {
    var s1 := s.(rx := s.rx.(transportClosed := true));
    if s.rx.queue == [] && s.rx.pc == RxIdle && !s.life.terminated then
      if !s.rx.finReceived then Cleanup(cfg, s1, TransportClosed) else CheckFullClose(cfg, s1)
    else s1
  }

  // The main task.

  /** The main task never touches what the receive task owns. */
  ghost predicate MainStep(s: State, r: State) {
    r.rx == s.rx && r.log == s.log && LifeGrows(s.life, r.life) && r.life.activeWrite == s.life.activeWrite
  }

  function Goto(s: State, pc: MainPc): State {
    s.(main := s.main.(pc := pc))
  }

  function Piece(b: bytes, off: nat): bytes {
    if off > |b| then [] else b[off..Min(off + CHUNK_SIZE, |b|)]
  }

  function SealPiece(cfg: Config, u: Uplink, piece: bytes): Uplink {
    u.(cn := Bump(u.cn, 2), wire := u.wire + SealFrame(cfg.cipher(cfg.cn), u.cn, piece), up := u.up + [piece])
  }

  function MainFinally(cfg: Config, s: State): (r: State)
    ensures MainStep(s, r) && r.main.u.clientRead == s.main.u.clientRead && r.main.upLeak == s.main.upLeak
  {
    Goto(Cleanup(cfg, s, LoopExit), AwaitingCleanup)
  }

  function MainThrows(cfg: Config, s: State): (r: State)
    ensures MainStep(s, r) && r.main.u.clientRead == s.main.u.clientRead && r.main.upLeak == s.main.upLeak
  {
    MainFinally(cfg, Cleanup(cfg, s, TunnelError))
  }

  function MainAfterLoop(cfg: Config, s: State): (r: State)
    ensures MainStep(s, r) && r.main.u.clientRead == s.main.u.clientRead && r.main.upLeak == s.main.upLeak
  {
    if !s.life.terminated && !s.rx.finReceived then Goto(s, AwaitingCompletion) else MainFinally(cfg, s)
  }

  function MainLoop(cfg: Config, s: State): (r: State)
    ensures MainStep(s, r) && r.main.u.clientRead == s.main.u.clientRead && r.main.upLeak == s.main.upLeak
  {
    if s.life.terminated then MainAfterLoop(cfg, s) else Goto(s, Reading)
  }

  function MainToHandshake(s: State): State {
    Goto(s, AwaitingHandshake).(life := s.life.(dialArmed := true))
  }

  function MainRead(cfg: Config, s: State, io: Io): (r: State)
    ensures MainStep(s, r) && s.main.u.clientRead <= r.main.u.clientRead && r.main.upLeak == s.main.upLeak
  {
    match io
    case Chunk(v) =>
      if v == [] then MainLoop(cfg, s)
      else ResetIdle(s.(main := s.main.(
        upGauge := s.main.upGauge + |v|, pc := SealingData(v, 0),
        u := s.main.u.(clientRead := s.main.u.clientRead + v))))
    case Done =>
      var s1 := s.(main := s.main.(readClosed := true));
      if !s.rx.handshakeDone then MainAfterLoop(cfg, Cleanup(cfg, s1, ClientAbort)) else Goto(s1, SendingFin)
    case _ => MainAfterLoop(cfg, Cleanup(cfg, s, ClientAbort))
  }

  function MainFinSent(cfg: Config, s: State): (r: State)
    ensures MainStep(s, r) && r.main.u.clientRead == s.main.u.clientRead && r.main.upLeak == s.main.upLeak
  {
    var s1 := CheckFullClose(cfg, s);
    MainAfterLoop(cfg, if !s1.life.terminated && !s1.rx.finReceived then ResetIdle(s1) else s1)
  }

  function UpSub(s: State, n: int): State {
    s.(main := s.main.(upGauge := Max(0, s.main.upGauge - n)))
  }

  function MainPieceSent(cfg: Config, s: State, v: bytes, off: nat, ok: bool): (r: State)
    ensures MainStep(s, r) && r.main.u.clientRead == s.main.u.clientRead && r.main.upLeak == s.main.upLeak
  {
    if !ok then MainAfterLoop(cfg, Cleanup(cfg, UpSub(s, |v| - off), UpstreamWriteFailed))
    else
      var s1 := UpSub(s, |Piece(v, off)|);
      if off + CHUNK_SIZE < |v| then Goto(s1, SealingData(v, off + CHUNK_SIZE)) else MainLoop(cfg, s1)
  }

  function OutcomeOf(s: State): Outcome {
    var why := s.life.reason;
    Outcome(
      why == BothClosed ||
        (s.rx.handshakeDone && s.rx.recv > 0 && (why == IdleTimeout || why == TransportClosed)),
      why, s.rx.recv, s.rx.handshakeDone)
  }

  function SealNext(cfg: Config, s: State, piece: bytes, pc: MainPc): (r: State)
    ensures MainStep(s, r) && r.main.u.clientRead == s.main.u.clientRead && r.main.upLeak == s.main.upLeak
  {
    s.(main := s.main.(u := SealPiece(cfg, s.main.u, piece), pc := pc))
  }

  function MainSealed(cfg: Config, s: State, v: bytes, off: nat, ok: bool): (r: State)
    ensures MainStep(s, r) && r.main.u.clientRead == s.main.u.clientRead
  {
    if ok then SealNext(cfg, s, Piece(v, off), SendingData(v, off))
    else MainThrows(cfg, s.(main := s.main.(upLeak := s.main.upLeak + if off <= |v| then |v| - off else 0)))
  }

  /** The steps up to the handshake, each after a successful one. */
  function StepDial(cfg: Config, s: State): (r: State)
    ensures MainStep(s, r) && r.main.u.clientRead == s.main.u.clientRead && r.main.upLeak == s.main.upLeak
  {
    match s.main.pc
    case Connecting => Goto(s.(main := s.main.(u := s.main.u.(wire := s.main.u.wire + cfg.cn))), SendingNonce)
    case SendingNonce => Goto(s, SealingHeader)
    case SealingHeader => SealNext(cfg, s, cfg.header, SendingHeader)
    case SendingHeader => if cfg.leftover != [] then Goto(s, SealingLeftover(0)) else MainToHandshake(s)
    case SealingLeftover(off) => SealNext(cfg, s, Piece(cfg.leftover, off), SendingLeftover(off))
    case SendingLeftover(off) =>
      if off + CHUNK_SIZE < |cfg.leftover| then Goto(s, SealingLeftover(off + CHUNK_SIZE)) else MainToHandshake(s)
    case _ => s
  }

  function MainHandshake(cfg: Config, s: State): (r: State)
    ensures MainStep(s, r) && r.main.u.clientRead == s.main.u.clientRead && r.main.upLeak == s.main.upLeak
  {
    if s.rx.handshakeDone && !s.life.terminated then Goto(s, Reading) else MainFinally(cfg, s)
  }

  function MainReturn(s: State): (r: State)
    ensures MainStep(s, r) && r.main.u.clientRead == s.main.u.clientRead && r.main.upLeak == s.main.upLeak
  {
    s.(main := s.main.(pc := Returned, outcome := Some(OutcomeOf(s))))
  }

  function StepMain(cfg: Config, s: State, io: Io): (r: State)
    ensures MainStep(s, r)
    ensures r.main.u.clientRead == s.main.u.clientRead ||
            (s.main.pc == Reading && s.main.u.clientRead <= r.main.u.clientRead)
  {
    match s.main.pc
    case Registering => Goto(ResetIdle(s), Connecting)
    case AwaitingHandshake => MainHandshake(cfg, s)
    case Reading => MainRead(cfg, s, io)
    case SendingFin => MainFinSent(cfg, s)
    case SealingData(v, off) => MainSealed(cfg, s, v, off, io == Ok)
    case SendingData(v, off) => MainPieceSent(cfg, s, v, off, io == Ok)
    case AwaitingCompletion => MainFinally(cfg, s)
    case AwaitingCleanup => MainReturn(s)
    case Returned => s
    case _ => if io == Ok then StepDial(cfg, s) else MainThrows(cfg, s)
  }

  // The whole machine.

  /** Which events can happen. Transport callbacks may come at any time; an awaiting task
      resumes only when its promise has settled. */
  predicate Enabled(s: State, e: Event) {
    match e
    case IdleFires => s.life.idleArmed
    case DialFires => s.life.dialArmed
    case RxMicrotask => s.rx.microtasks > 0
    case RxResume(_) => s.rx.pc != RxIdle
    case MainResume(_) =>
      && s.main.pc != Returned
      && (s.main.pc == AwaitingHandshake ==> s.life.hs != HsPending)
      && (s.main.pc == AwaitingCompletion || s.main.pc == AwaitingCleanup ==> s.life.cleanPc == CleanDone)
    case CleanResume => s.life.cleanPc != NoCleanup && s.life.cleanPc != CleanDone
    case _ => true
  }

  /** What the stream adapter promises: FIN comes once, alone, and last. */
  predicate Contract(s: State, e: Event) {
    e.Data? ==> !s.log.finSeen && (e.fin ==> e.data == [])
  }

  function Step(cfg: Config, s: State, e: Event): State {
    match e
    case Data(data, fin) => OnData(cfg, s, data, fin)
    case TransportClose => OnClose(cfg, s)
    case TransportError => Cleanup(cfg, s, StreamError)
    case IdleFires => Cleanup(cfg, s.(life := s.life.(idleArmed := false)), IdleTimeout)
    case DialFires =>
      var s1 := s.(life := s.life.(dialArmed := false));
      if !s.rx.handshakeDone && !s.life.terminated then Cleanup(cfg, s1, HandshakeTimeout) else s1
    case RxMicrotask =>
      RxStart(cfg, s.(rx := s.rx.(microtasks := if s.rx.microtasks > 0 then s.rx.microtasks - 1 else 0)))
    case RxResume(ok) => StepRx(cfg, s, ok)
    case MainResume(io) => StepMain(cfg, s, io)
    case CleanResume => s.(life := StepClean(cfg, s.rx, s.life))
  }
}
