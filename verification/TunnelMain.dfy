/** The main task keeps the invariant, and an invariant of its own: what it seals is the
    header, then the leftover, then what it reads from the client, in order, in pieces that
    are never empty. */
module TunnelMain {
  import opened Bytes
  import opened Nonces
  import opened Framing
  import opened Decoder
  import opened Tunnel
  import opened TunnelInv
  import opened TunnelRx

  lemma FinallyMainKeeps(cfg: Config, s: State, others: nat)
    requires Inv(cfg, s, others) && s.life.terminated && s.main.outcome.None?
    ensures Inv(cfg, MainFinally(cfg, s), others)
  {
  }

  lemma EndKeeps(cfg: Config, s: State, why: Reason, others: nat)
    requires Inv(cfg, s, others) && s.main.outcome.None?
    requires why == TunnelError || why == ClientAbort || why == UpstreamWriteFailed
    ensures Inv(cfg, MainFinally(cfg, Cleanup(cfg, s, why)), others)
    ensures MainAfterLoop(cfg, Cleanup(cfg, s, why)) == MainFinally(cfg, Cleanup(cfg, s, why))
  {
    CleanupCore(cfg, s, why, others);
    FinallyMainKeeps(cfg, Cleanup(cfg, s, why), others);
  }

  /** Only the program counter moves, to a place the state is ready for. */
  lemma GotoKeeps(cfg: Config, s: State, m: Main, others: nat)
    requires Inv(cfg, s, others)
    requires m.readClosed == s.main.readClosed && m.outcome.None? && s.main.outcome.None?
    requires m.pc != AwaitingCleanup && m.pc != Returned && m.pc != Registering && s.main.pc != Registering
    requires m.pc != SendingFin && m.pc != AwaitingHandshake && (m.pc == AwaitingCompletion ==> m.readClosed)
    requires Relaying(m.pc) || m.u.clientRead != [] ==> s.log.hsLive
    requires m.readClosed ==> s.life.terminated || (m.pc == AwaitingCompletion && !s.rx.finReceived)
    requires m.readClosed ==> m.pc == AwaitingCompletion
    ensures Inv(cfg, s.(main := m), others)
  {
  }

  lemma LoopMainKeeps(cfg: Config, s: State, m: Main, others: nat)
    requires Inv(cfg, s, others) && s.log.hsLive && !s.main.readClosed && s.main.outcome.None?
    requires s.main.pc != Registering
    requires !m.readClosed && m.outcome.None?
    ensures Inv(cfg, MainLoop(cfg, s.(main := m)), others)
  {
    if s.life.terminated {
      GotoKeeps(cfg, s, m.(pc := Reading), others);
      FinallyMainKeeps(cfg, s.(main := m.(pc := Reading)), others);
    } else {
      GotoKeeps(cfg, s, m.(pc := Reading), others);
    }
  }

  lemma ReadKeeps(cfg: Config, s: State, io: Io, others: nat)
    requires Inv(cfg, s, others) && s.main.pc == Reading
    ensures Inv(cfg, MainRead(cfg, s, io), others)
  {
    hide Rep, Cat, Flatten, FinsLast, Starved;
    match io
    case Chunk(v) =>
      if v == [] {
        LoopMainKeeps(cfg, s, s.main, others);
      } else {
        var m := s.main.(upGauge := s.main.upGauge + |v|, pc := SealingData(v, 0),
                         u := s.main.u.(clientRead := s.main.u.clientRead + v));
        GotoKeeps(cfg, s, m, others);
        ResetCore(cfg, s.(main := m), others);
        ResetWaits(s.(main := m));
      }
    case Done =>
    case _ => EndKeeps(cfg, s, ClientAbort, others);
  }

  lemma FinSentKeeps(cfg: Config, s: State, others: nat)
    requires Inv(cfg, s, others) && s.main.pc == SendingFin
    ensures Inv(cfg, MainFinSent(cfg, s), others)
  {
    FullCloseKeeps(cfg, s, others);
    var s1 := CheckFullClose(cfg, s);
    if s1.life.terminated {
      FinallyMainKeeps(cfg, s1, others);
    } else {
      ResetCore(cfg, s, others);
      ResetWaits(s);
      GotoKeeps(cfg, ResetIdle(s), s.main.(pc := AwaitingCompletion), others);
    }
  }

  lemma OutcomeIsOk(cfg: Config, s: State, others: nat)
    requires Core(cfg, s, others) && s.life.cleanPc == CleanDone
    ensures OutcomeOk(s.life, s.rx, OutcomeOf(s))
  {
  }

  lemma RegisteredKeeps(cfg: Config, s: State, others: nat)
    requires Inv(cfg, s, others) && s.main.pc == Registering
    ensures Inv(cfg, Goto(ResetIdle(s), Connecting), others)
  {
    ResetCore(cfg, s, others);
    ResetWaits(s);
  }

  lemma HandshakeKeeps(cfg: Config, s: State, others: nat)
    requires Inv(cfg, s, others) && s.main.pc == AwaitingHandshake && s.life.hs != HsPending
    ensures Inv(cfg, MainHandshake(cfg, s), others)
  {
    if s.rx.handshakeDone && !s.life.terminated {
      GotoKeeps(cfg, s, s.main.(pc := Reading), others);
    } else {
      FinallyMainKeeps(cfg, s, others);
    }
  }

  lemma SealedKeeps(cfg: Config, s: State, v: bytes, off: nat, others: nat)
    requires Inv(cfg, s, others) && s.main.pc == SealingData(v, off)
    ensures Inv(cfg, SealNext(cfg, s, Piece(v, off), SendingData(v, off)), others)
  {
    var u := SealPiece(cfg, s.main.u, Piece(v, off));
    GotoKeeps(cfg, s, s.main.(u := u, pc := SendingData(v, off)), others);
  }

  lemma SealThrowsKeeps(cfg: Config, s: State, leak: nat, others: nat)
    requires Inv(cfg, s, others) && s.main.pc.SealingData?
    ensures Inv(cfg, MainThrows(cfg, s.(main := s.main.(upLeak := leak))), others)
  {
    var m := s.main.(upLeak := leak);
    GotoKeeps(cfg, s, m, others);
    EndKeeps(cfg, s.(main := m), TunnelError, others);
  }

  lemma MainSealedKeeps(cfg: Config, s: State, v: bytes, off: nat, ok: bool, others: nat)
    requires Inv(cfg, s, others) && s.main.pc == SealingData(v, off)
    ensures Inv(cfg, MainSealed(cfg, s, v, off, ok), others)
  {
    hide Inv;
    var r := MainSealed(cfg, s, v, off, ok);
    if ok {
      assert r == SealNext(cfg, s, Piece(v, off), SendingData(v, off));
      SealedKeeps(cfg, s, v, off, others);
    } else {
      SealThrowsKeeps(cfg, s, s.main.upLeak + if off <= |v| then |v| - off else 0, others);
    }
  }

  lemma PieceSentKeeps(cfg: Config, s: State, v: bytes, off: nat, ok: bool, others: nat)
    requires Inv(cfg, s, others) && s.main.pc == SendingData(v, off)
    ensures Inv(cfg, MainPieceSent(cfg, s, v, off, ok), others)
  {
    var n := if ok then |Piece(v, off)| else |v| - off;
    var m := UpSub(s, n).main;
    GotoKeeps(cfg, s, m, others);
    if !ok {
      EndKeeps(cfg, s.(main := m), UpstreamWriteFailed, others);
    } else if off + CHUNK_SIZE < |v| {
      GotoKeeps(cfg, s, m.(pc := SealingData(v, off + CHUNK_SIZE)), others);
    } else {
      LoopMainKeeps(cfg, s, m, others);
    }
  }

  predicate Dialing(pc: MainPc) {
    pc == Connecting || pc == SendingNonce || pc == SealingHeader || pc == SendingHeader ||
    pc.SealingLeftover? || pc.SendingLeftover?
  }

  /** The steps up to the handshake only move the program counter and the sealing side,
      and at the end arm the dial timer. */
  lemma DialShape(cfg: Config, s: State)
    requires Dialing(s.main.pc)
    ensures var r := StepDial(cfg, s);
            && r.acct == s.acct && r.rx == s.rx && r.log == s.log
            && r.life == s.life.(dialArmed := r.life.dialArmed)
            && r.main.readClosed == s.main.readClosed && r.main.outcome == s.main.outcome
            && r.main.u.clientRead == s.main.u.clientRead
            && (Dialing(r.main.pc) || (r.main.pc == AwaitingHandshake && r.life.dialArmed))
  {
    hide SealPiece, Piece;
  }

  lemma DialKeeps(cfg: Config, s: State, others: nat)
    requires Inv(cfg, s, others) && Dialing(s.main.pc)
    ensures Inv(cfg, StepDial(cfg, s), others)
  {
    DialShape(cfg, s);
    SameButMain(cfg, s, StepDial(cfg, s), others);
  }

  lemma SameButMain(cfg: Config, s: State, r: State, others: nat)
    requires Inv(cfg, s, others) && Dialing(s.main.pc)
    requires r.acct == s.acct && r.rx == s.rx && r.log == s.log
    requires r.life == s.life.(dialArmed := r.life.dialArmed)
    requires r.main.readClosed == s.main.readClosed && r.main.outcome == s.main.outcome
    requires r.main.u.clientRead == s.main.u.clientRead
    requires Dialing(r.main.pc) || (r.main.pc == AwaitingHandshake && r.life.dialArmed)
    ensures Inv(cfg, r, others)
  {
    hide DataOk, Rep, Cat, FinsLast, Flatten, Starved, Leftover;
    DataOkIgnoresTimers(cfg, s.life, r.life, s.rx, s.log);
  }

  lemma DataOkIgnoresTimers(cfg: Config, l: Life, l1: Life, rx: Receive, g: Log)
    requires DataOk(cfg, l, rx, g) && l1 == l.(dialArmed := l1.dialArmed)
    ensures DataOk(cfg, l1, rx, g)
  {
  }

  lemma RelayKeeps(cfg: Config, s: State, io: Io, others: nat)
    requires Inv(cfg, s, others)
    requires s.main.pc == Reading || s.main.pc == SendingFin || s.main.pc.SealingData? || s.main.pc.SendingData?
    ensures Inv(cfg, StepMain(cfg, s, io), others)
  {
    hide Inv;
    var r := StepMain(cfg, s, io);
    match s.main.pc
    case Reading =>
      assert r == MainRead(cfg, s, io);
      ReadKeeps(cfg, s, io, others);
    case SendingFin =>
      assert r == MainFinSent(cfg, s);
      FinSentKeeps(cfg, s, others);
    case SealingData(v, off) =>
      assert r == MainSealed(cfg, s, v, off, io == Ok);
      MainSealedKeeps(cfg, s, v, off, io == Ok, others);
    case SendingData(v, off) =>
      assert r == MainPieceSent(cfg, s, v, off, io == Ok);
      PieceSentKeeps(cfg, s, v, off, io == Ok, others);
  }

  lemma DialOrEndKeeps(cfg: Config, s: State, io: Io, others: nat)
    requires Inv(cfg, s, others) && Dialing(s.main.pc)
    ensures Inv(cfg, StepMain(cfg, s, io), others)
  {
    var r := StepMain(cfg, s, io);
    if io == Ok {
      assert r == StepDial(cfg, s);
      DialKeeps(cfg, s, others);
    } else {
      assert r == MainThrows(cfg, s);
      EndKeeps(cfg, s, TunnelError, others);
    }
  }

  /** A step of the main task keeps the invariant; in particular it never has to end a
      tunnel that is still live when it leaves its loop. */
  lemma StepMainKeeps(cfg: Config, s: State, io: Io, others: nat)
    requires Inv(cfg, s, others) && Enabled(s, MainResume(io))
    ensures Inv(cfg, StepMain(cfg, s, io), others)
  {
    hide Inv;
    if Dialing(s.main.pc) {
      DialOrEndKeeps(cfg, s, io, others);
    } else if Relaying(s.main.pc) && s.main.pc != AwaitingCompletion {
      RelayKeeps(cfg, s, io, others);
    } else {
      EdgeKeeps(cfg, s, io, others);
    }
  }

  lemma EdgeKeeps(cfg: Config, s: State, io: Io, others: nat)
    requires Inv(cfg, s, others) && Enabled(s, MainResume(io))
    requires !Dialing(s.main.pc) && (Relaying(s.main.pc) ==> s.main.pc == AwaitingCompletion)
    ensures Inv(cfg, StepMain(cfg, s, io), others)
  {
    var r := StepMain(cfg, s, io);
    match s.main.pc
    case Registering =>
      assert r == Goto(ResetIdle(s), Connecting);
      RegisteredKeeps(cfg, s, others);
    case AwaitingHandshake =>
      assert r == MainHandshake(cfg, s);
      HandshakeKeeps(cfg, s, others);
    case AwaitingCompletion =>
      assert r == MainFinally(cfg, s);
      FinallyMainKeeps(cfg, s, others);
    case AwaitingCleanup =>
      assert r == MainReturn(s);
      ReturnKeeps(cfg, s, others);
  }

  lemma ReturnKeeps(cfg: Config, s: State, others: nat)
    requires Inv(cfg, s, others) && s.main.pc == AwaitingCleanup && s.life.cleanPc == CleanDone
    ensures Inv(cfg, MainReturn(s), others)
  {
    OutcomeIsOk(cfg, s, others);
  }

  // What is sealed.

  /** The payloads sealed after the header, joined. */
  function Sealed(u: Uplink): bytes {
    if u.up == [] then [] else Flatten(u.up[1..])
  }

  /** What is to be sealed: the leftover, then all that was read from the client. */
  function Source(cfg: Config, u: Uplink): bytes {
    cfg.leftover + u.clientRead
  }

  /** Every sealed payload after the header is a proper piece: never empty. */
  predicate Pieces(up: seq<bytes>) {
    forall i :: 1 <= i < |up| ==> 0 < |up[i]| <= 32768
  }

  ghost predicate WireOk(cfg: Config, u: Uplink) {
    && Pieces(u.up)
    && (u.up != [] ==> u.up[0] == cfg.header)
    && u.cn == Bump(cfg.cn, 2 * |u.up|)
    && (if u.wire == [] then u.up == []
        else u.wire == cfg.cn + SealFrames(cfg.cipher(cfg.cn), cfg.cn, u.up))
  }

  /** How far the sealing has come, for each place the main task can be. */
  ghost predicate Progress(cfg: Config, pc: MainPc, u: Uplink) {
    match pc
    case Registering => u.wire == [] && u.clientRead == []
    case Connecting => u.wire == [] && u.clientRead == []
    case SendingNonce => u.wire != [] && u.up == [] && u.clientRead == []
    case SealingHeader => u.wire != [] && u.up == [] && u.clientRead == []
    case SendingHeader => |u.up| == 1 && u.clientRead == []
    case SealingLeftover(off) =>
      u.up != [] && u.clientRead == [] && off < |cfg.leftover| && Sealed(u) == cfg.leftover[..off]
    case SendingLeftover(off) =>
      u.up != [] && u.clientRead == [] && off < |cfg.leftover| &&
      Sealed(u) == cfg.leftover[..Min(off + CHUNK_SIZE, |cfg.leftover|)]
    case SealingData(v, off) => u.up != [] && off < |v| && Sealed(u) + v[off..] == Source(cfg, u)
    case SendingData(v, off) =>
      u.up != [] && off < |v| && Sealed(u) + v[Min(off + CHUNK_SIZE, |v|)..] == Source(cfg, u)
    case AwaitingCleanup => Sealed(u) <= Source(cfg, u)
    case Returned => Sealed(u) <= Source(cfg, u)
    case _ => u.up != [] && Sealed(u) == Source(cfg, u)
  }

  /** What a client chunk in progress still holds in the shared upload gauge. */
  function PendingUp(pc: MainPc): int {
    match pc
    case SealingData(v, off) => |v| - off
    case SendingData(v, off) => |v| - off
    case _ => 0
  }

  /** The sealing side; `others` is what other tunnels hold in the upload gauge. */
  ghost predicate UpOk(cfg: Config, m: Main, others: nat) {
    WireOk(cfg, m.u) && Progress(cfg, m.pc, m.u) && m.upGauge == others + PendingUp(m.pc) + m.upLeak
  }

  lemma ProgressIsPrefix(cfg: Config, pc: MainPc, u: Uplink)
    requires Progress(cfg, pc, u) && WireOk(cfg, u)
    ensures Sealed(u) <= Source(cfg, u)
  {
    match pc
    case SealingLeftover(off) => PrefixOf(cfg.leftover, off, u.clientRead);
    case SendingLeftover(off) => PrefixOf(cfg.leftover, Min(off + CHUNK_SIZE, |cfg.leftover|), u.clientRead);
    case _ =>
  }

  lemma PrefixOf(a: bytes, n: nat, b: bytes)
    requires n <= |a|
    ensures a[..n] <= a + b
  {
  }

  lemma SealPieceOk(cfg: Config, u: Uplink, piece: bytes)
    requires WireOk(cfg, u) && u.wire != []
    requires if u.up == [] then piece == cfg.header else 0 < |piece| <= CHUNK_SIZE
    ensures WireOk(cfg, SealPiece(cfg, u, piece))
  {
    var c := cfg.cipher(cfg.cn);
    SealFramesSnoc(c, cfg.cn, u.up, piece);
    JoinWire(cfg.cn, SealFrames(c, cfg.cn, u.up), SealFrame(c, u.cn, piece));
    BumpAdd(cfg.cn, 2 * |u.up|, 2);
  }

  lemma SealedSnoc(cfg: Config, u: Uplink, piece: bytes)
    requires u.up != []
    ensures Sealed(SealPiece(cfg, u, piece)) == Sealed(u) + piece
  {
    assert (u.up + [piece])[1..] == u.up[1..] + [piece];
    FlattenSnoc(u.up[1..], piece);
  }

  lemma JoinWire(cn: bytes, frames: bytes, frame: bytes)
    ensures (cn + frames) + frame == cn + (frames + frame)
  {
  }

  lemma PieceJoins(b: bytes, off: nat)
    requires off < |b|
    ensures 0 < |Piece(b, off)| <= CHUNK_SIZE
    ensures b[..off] + Piece(b, off) == b[..Min(off + CHUNK_SIZE, |b|)]
    ensures Piece(b, off) + b[Min(off + CHUNK_SIZE, |b|)..] == b[off..]
  {
  }

  lemma UpConnect(cfg: Config, m: Main, others: nat)
    requires UpOk(cfg, m, others) && m.pc == Connecting
    ensures UpOk(cfg, m.(u := m.u.(wire := m.u.wire + cfg.cn), pc := SendingNonce), others)
  {
    assert cfg.cn + SealFrames(cfg.cipher(cfg.cn), cfg.cn, []) == cfg.cn;
    assert m.u.wire + cfg.cn == cfg.cn;
  }

  lemma UpHeader(cfg: Config, m: Main, others: nat)
    requires UpOk(cfg, m, others) && m.pc == SealingHeader
    ensures UpOk(cfg, m.(u := SealPiece(cfg, m.u, cfg.header), pc := SendingHeader), others)
  {
    SealPieceOk(cfg, m.u, cfg.header);
  }

  lemma UpLeftover(cfg: Config, m: Main, off: nat, others: nat)
    requires UpOk(cfg, m, others) && m.pc == SealingLeftover(off)
    ensures UpOk(cfg, m.(u := SealPiece(cfg, m.u, Piece(cfg.leftover, off)), pc := SendingLeftover(off)), others)
  {
    PieceJoins(cfg.leftover, off);
    SealPieceOk(cfg, m.u, Piece(cfg.leftover, off));
    SealedSnoc(cfg, m.u, Piece(cfg.leftover, off));
  }

  lemma UpLeftoverSent(cfg: Config, m: Main, others: nat)
    requires UpOk(cfg, m, others)
    requires m.pc == SendingHeader || m.pc.SendingLeftover?
    ensures m.pc == SendingHeader && cfg.leftover != [] ==> UpOk(cfg, m.(pc := SealingLeftover(0)), others)
    ensures m.pc == SendingHeader && cfg.leftover == [] ==> UpOk(cfg, m.(pc := AwaitingHandshake), others)
    ensures m.pc.SendingLeftover? ==>
              if m.pc.off + CHUNK_SIZE < |cfg.leftover| then
                UpOk(cfg, m.(pc := SealingLeftover(m.pc.off + CHUNK_SIZE)), others)
              else
                UpOk(cfg, m.(pc := AwaitingHandshake), others)
  {
    assert m.pc == SendingHeader ==> Sealed(m.u) == [];
    assert cfg.leftover[..0] == [] && cfg.leftover[..|cfg.leftover|] == cfg.leftover;
    assert cfg.leftover + [] == cfg.leftover;
  }

  lemma UpRead(cfg: Config, m: Main, v: bytes, others: nat)
    requires UpOk(cfg, m, others) && m.pc == Reading && v != []
    ensures UpOk(cfg, m.(upGauge := m.upGauge + |v|, pc := SealingData(v, 0),
                         u := m.u.(clientRead := m.u.clientRead + v)), others)
  {
    Reassociate(cfg.leftover, m.u.clientRead, v);
    assert v[0..] == v;
  }

  lemma UpSealData(cfg: Config, m: Main, v: bytes, off: nat, others: nat)
    requires UpOk(cfg, m, others) && m.pc == SealingData(v, off)
    ensures UpOk(cfg, m.(u := SealPiece(cfg, m.u, Piece(v, off)), pc := SendingData(v, off)), others)
  {
    PieceJoins(v, off);
    SealPieceOk(cfg, m.u, Piece(v, off));
    SealedSnoc(cfg, m.u, Piece(v, off));
    Reassociate(Sealed(m.u), Piece(v, off), v[Min(off + CHUNK_SIZE, |v|)..]);
  }

  lemma UpDataSent(cfg: Config, m: Main, v: bytes, off: nat, others: nat)
    requires UpOk(cfg, m, others) && m.pc == SendingData(v, off)
    ensures var g := Max(0, m.upGauge - |Piece(v, off)|);
            if off + CHUNK_SIZE < |v| then UpOk(cfg, m.(upGauge := g, pc := SealingData(v, off + CHUNK_SIZE)), others)
            else UpOk(cfg, m.(upGauge := g, pc := Reading), others)
  {
    PieceJoins(v, off);
    assert |Piece(v, off)| == Min(off + CHUNK_SIZE, |v|) - off;
    assert Sealed(m.u) + v[|v|..] == Sealed(m.u);
  }

  /** Wherever the main task ends, its share of the gauge is gone or counted as leaked. */
  lemma UpEnd(cfg: Config, m: Main, gauge: int, leak: nat, others: nat)
    requires UpOk(cfg, m, others) && gauge == others + leak
    ensures UpOk(cfg, m.(pc := AwaitingCleanup, upGauge := gauge, upLeak := leak), others)
    ensures UpOk(cfg, m.(pc := Returned, upGauge := gauge, upLeak := leak), others)
  {
    ProgressIsPrefix(cfg, m.pc, m.u);
  }

  lemma Reassociate(a: bytes, b: bytes, c: bytes)
    ensures (a + b) + c == a + (b + c)
  {
  }

  /** The sealing side does not see the order of the other fields of the main task. */
  lemma UpSame(cfg: Config, m: Main, r: Main, others: nat)
    requires UpOk(cfg, m, others) && r.pc == m.pc && r.u == m.u && r.upGauge == m.upGauge && r.upLeak == m.upLeak
    ensures UpOk(cfg, r, others)
  {
  }

  predicate Ended(s: State) {
    s.life.cleanPc != NoCleanup ==> s.life.terminated
  }

  /** Leaving the main task through any door only moves its program counter. */
  lemma Exits(cfg: Config, s: State, why: Reason)
    requires Ended(s)
    ensures MainFinally(cfg, s).main == s.main.(pc := AwaitingCleanup)
    ensures MainThrows(cfg, s).main == s.main.(pc := AwaitingCleanup)
    ensures MainAfterLoop(cfg, Cleanup(cfg, s, why)).main == s.main.(pc := AwaitingCleanup)
    ensures MainLoop(cfg, s).main == s.main.(pc := AwaitingCleanup) || MainLoop(cfg, s).main == s.main.(pc := Reading)
  {
  }

  lemma UpDial(cfg: Config, s: State, others: nat)
    requires UpOk(cfg, s.main, others) && Dialing(s.main.pc)
    ensures UpOk(cfg, StepDial(cfg, s).main, others)
  {
    match s.main.pc
    case Connecting => UpConnect(cfg, s.main, others);
    case SendingNonce =>
    case SealingHeader => UpHeader(cfg, s.main, others);
    case SendingHeader => UpLeftoverSent(cfg, s.main, others);
    case SealingLeftover(off) => UpLeftover(cfg, s.main, off, others);
    case SendingLeftover(off) => UpLeftoverSent(cfg, s.main, others);
  }

  lemma UpReadEnds(cfg: Config, s: State, others: nat)
    requires Ended(s)
    requires UpOk(cfg, s.main, others) && s.main.pc == Reading
    ensures UpOk(cfg, MainLoop(cfg, s).main, others)
    ensures UpOk(cfg, MainAfterLoop(cfg, Cleanup(cfg, s, ClientAbort)).main, others)
  {
    hide WireOk, Progress, MainLoop, MainAfterLoop, Cleanup;
    UpEnd(cfg, s.main, s.main.upGauge, s.main.upLeak, others);
    Exits(cfg, s, ClientAbort);
  }

  lemma UpReadDone(cfg: Config, s: State, others: nat)
    requires Ended(s)
    requires UpOk(cfg, s.main, others) && s.main.pc == Reading
    ensures UpOk(cfg, MainRead(cfg, s, Done).main, others)
  {
    hide WireOk, MainAfterLoop, Cleanup;
    var s1 := s.(main := s.main.(readClosed := true));
    UpEnd(cfg, s1.main, s.main.upGauge, s.main.upLeak, others);
    Exits(cfg, s1, ClientAbort);
  }

  lemma UpReading(cfg: Config, s: State, io: Io, others: nat)
    requires Ended(s)
    requires UpOk(cfg, s.main, others) && s.main.pc == Reading
    ensures UpOk(cfg, MainRead(cfg, s, io).main, others)
  {
    match io
    case Chunk(v) =>
      if v == [] {
        UpReadEnds(cfg, s, others);
      } else {
        hide WireOk, Progress;
        UpRead(cfg, s.main, v, others);
      }
    case Done => UpReadDone(cfg, s, others);
    case _ => UpReadEnds(cfg, s, others);
  }

  lemma UpSealed(cfg: Config, s: State, v: bytes, off: nat, ok: bool, others: nat)
    requires Ended(s)
    requires UpOk(cfg, s.main, others) && s.main.pc == SealingData(v, off)
    ensures UpOk(cfg, MainSealed(cfg, s, v, off, ok).main, others)
  {
    if ok {
      UpSealData(cfg, s.main, v, off, others);
    } else {
      var leak := s.main.upLeak + (|v| - off);
      UpEnd(cfg, s.main, s.main.upGauge, leak, others);
      Exits(cfg, s.(main := s.main.(upLeak := leak)), TunnelError);
    }
  }

  lemma UpSent(cfg: Config, s: State, v: bytes, off: nat, ok: bool, others: nat)
    requires Ended(s)
    requires UpOk(cfg, s.main, others) && s.main.pc == SendingData(v, off)
    ensures UpOk(cfg, MainPieceSent(cfg, s, v, off, ok).main, others)
  {
    if !ok {
      UpEnd(cfg, s.main, s.main.upGauge - (|v| - off), s.main.upLeak, others);
      Exits(cfg, UpSub(s, |v| - off), UpstreamWriteFailed);
    } else {
      var n := |Piece(v, off)|;
      UpDataSent(cfg, s.main, v, off, others);
      if off + CHUNK_SIZE >= |v| {
        UpEnd(cfg, UpSub(s, n).main.(pc := Reading), UpSub(s, n).main.upGauge, s.main.upLeak, others);
      }
      Exits(cfg, UpSub(s, n), UpstreamWriteFailed);
    }
  }

  lemma UpFinSent(cfg: Config, s: State, others: nat)
    requires UpOk(cfg, s.main, others) && s.main.pc == SendingFin
    ensures UpOk(cfg, MainFinSent(cfg, s).main, others)
  {
    hide WireOk, CheckFullClose, MainAfterLoop;
    var s1 := CheckFullClose(cfg, s);
    var s2 := if !s1.life.terminated && !s1.rx.finReceived then ResetIdle(s1) else s1;
    assert s2.main == s.main;
    AfterLoopExit(cfg, s2);
    UpEnd(cfg, s.main, s.main.upGauge, s.main.upLeak, others);
  }

  lemma AfterLoopExit(cfg: Config, s: State)
    ensures MainAfterLoop(cfg, s).main == s.main.(pc := AwaitingCleanup) ||
            MainAfterLoop(cfg, s).main == s.main.(pc := AwaitingCompletion)
  {
  }

  lemma UpDialOrEnd(cfg: Config, s: State, io: Io, others: nat)
    requires Ended(s) && UpOk(cfg, s.main, others) && Dialing(s.main.pc)
    ensures UpOk(cfg, if io == Ok then StepDial(cfg, s).main else MainThrows(cfg, s).main, others)
  {
    if io == Ok {
      UpDial(cfg, s, others);
    } else {
      Exits(cfg, s, TunnelError);
      UpEnd(cfg, s.main, s.main.upGauge, s.main.upLeak, others);
    }
  }

  lemma UpOther(cfg: Config, s: State, io: Io, others: nat)
    requires Ended(s) && UpOk(cfg, s.main, others)
    requires !Dialing(s.main.pc) && (Relaying(s.main.pc) ==> s.main.pc == AwaitingCompletion)
    ensures UpOk(cfg, StepMain(cfg, s, io).main, others)
  {
    Exits(cfg, s, TunnelError);
    UpEnd(cfg, s.main, s.main.upGauge, s.main.upLeak, others);
    var r := StepMain(cfg, s, io).main;
    if s.main.pc == AwaitingCleanup {
      UpSame(cfg, s.main.(pc := Returned), r, others);
    }
  }

  /** Every step of the main task keeps the sealing side as described. */
  lemma StepUp(cfg: Config, s: State, io: Io, others: nat)
    requires Ended(s) && UpOk(cfg, s.main, others)
    ensures UpOk(cfg, StepMain(cfg, s, io).main, others)
  {
    hide UpOk, MainRead, MainSealed, MainPieceSent, MainFinSent, StepDial, MainThrows;
    var r := StepMain(cfg, s, io);
    if Dialing(s.main.pc) {
      assert r == if io == Ok then StepDial(cfg, s) else MainThrows(cfg, s);
      UpDialOrEnd(cfg, s, io, others);
    } else {
      match s.main.pc
      case Reading =>
        assert r == MainRead(cfg, s, io);
        UpReading(cfg, s, io, others);
      case SealingData(v, off) =>
        assert r == MainSealed(cfg, s, v, off, io == Ok);
        UpSealed(cfg, s, v, off, io == Ok, others);
      case SendingData(v, off) =>
        assert r == MainPieceSent(cfg, s, v, off, io == Ok);
        UpSent(cfg, s, v, off, io == Ok, others);
      case SendingFin =>
        assert r == MainFinSent(cfg, s);
        UpFinSent(cfg, s, others);
      case _ => UpOther(cfg, s, io, others);
    }
  }
}
