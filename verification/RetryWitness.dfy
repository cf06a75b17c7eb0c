/** Runs of both retry loops that start another attempt after success was replied. */
module RetryWitness {
  import opened Bytes
  import opened Decoder
  import opened Tunnel
  import opened Retry
  import opened RetryResults

  /** Some legal run of the loop ends in this state. */
  ghost predicate SysReached(policy: Policy, y: Sys) {
    exists es: seq<SysEvent> :: SysLegal(policy, START, es) && SysRun(policy, START, es) == y
  }

  lemma {:induction false} SysRunSnoc(policy: Policy, y: Sys, es: seq<SysEvent>, e: SysEvent)
    requires SysLegal(policy, y, es) && SysEnabled(SysRun(policy, y, es), e)
    ensures SysLegal(policy, y, es + [e])
    ensures SysRun(policy, y, es + [e]) == SysStep(policy, SysRun(policy, y, es), e)
    decreases |es|
  {
    hide SysStep, SysEnabled;
    if es == [] {
      assert es + [e] == [e] && [e][1..] == [];
      assert SysLegal(policy, SysStep(policy, y, e), []);
    } else {
      assert (es + [e])[1..] == es[1..] + [e];
      SysRunSnoc(policy, SysStep(policy, y, es[0]), es[1..], e);
    }
  }

  lemma SysOnward(policy: Policy, y: Sys, e: SysEvent, z: Sys)
    requires SysReached(policy, y) && SysEnabled(y, e) && SysStep(policy, y, e) == z
    ensures SysReached(policy, z)
  {
    hide SysStep, SysEnabled, SysLegal, SysRun;
    var es: seq<SysEvent> :| SysLegal(policy, START, es) && SysRun(policy, START, es) == y;
    SysRunSnoc(policy, START, es, e);
  }

  lemma AtStart(policy: Policy)
    ensures SysReached(policy, START)
  {
    assert SysLegal(policy, START, []) && SysRun(policy, START, []) == START;
  }

  // A loop with one attempt.

  function With(cfg: Config, s: State, pc: LoopPc, k: nat, replies: seq<Reply>, cancelled: bool, closed: bool): Sys {
    Sys(Control(pc, k, replies != [], false), Client(replies, [], [], closed, cancelled), [Attempt(cfg, s)])
  }

  lemma Begins(policy: Policy, cfg: Config)
    requires GoodConfig(cfg) && !cfg.lastAttempt
    ensures SysReached(policy, With(cfg, Init(cfg, 0, 0), Running, 1, [], false, false))
  {
    hide SysReached;
    AtStart(policy);
    assert [] + [Attempt(cfg, Init(cfg, 0, 0))] == [Attempt(cfg, Init(cfg, 0, 0))];
    SysOnward(policy, START, Begin(cfg), With(cfg, Init(cfg, 0, 0), Running, 1, [], false, false));
  }

  /** A step of the attempt that moves no bytes: a first success is replied, and what it does
      to the client's streams shows. */
  lemma TunnelOnward(
      policy: Policy, cfg: Config, s: State, e: Event, r: State, pc: LoopPc, k: nat, replies: seq<Reply>,
      cancelled: bool, closed: bool)
    requires SysReached(policy, With(cfg, s, pc, k, replies, cancelled, closed))
    requires Enabled(s, e) && Contract(s, e) && Step(cfg, s, e) == r
    requires r.log.written == s.log.written && r.main.u.clientRead == s.main.u.clientRead
    requires r.life.failureSent == s.life.failureSent
    requires s.rx.successSent <==> replies != []
    ensures SysReached(policy, With(cfg, r, pc, k, if r.rx.successSent && replies == [] then [Success] else replies,
                                    cancelled || r.life.cancelled, closed || r.life.writeClosed))
  {
    hide SysReached, Step, Enabled, Contract;
    var y := With(cfg, s, pc, k, replies, cancelled, closed);
    var z := With(cfg, r, pc, k, if r.rx.successSent && replies == [] then [Success] else replies,
                  cancelled || r.life.cancelled, closed || r.life.writeClosed);
    assert y.attempts[0] == Attempt(cfg, s);
    assert y.attempts[0 := Attempt(cfg, r)] == [Attempt(cfg, r)];
    assert [] + [Success] == [Success];
    assert StepTunnel(y, 0, e) == z;
    SysOnward(policy, y, InTunnel(0, e), z);
  }

  // The dispatcher: the stream fails after the success reply and before any payload.

  const NONCE: bytes := [1, 2, 3, 4, 5, 6, 7, 8, 9, 10, 11, 12]

  function Registered(cfg: Config): State {
    var s := Init(cfg, 0, 0);
    s.(life := s.life.(idleArmed := true), main := s.main.(pc := Connecting))
  }

  function NonceTaken(cfg: Config): State {
    var s := Registered(cfg);
    s.(rx := s.rx.(d := Rx(true, NONCE, NONCE, 12, -1, Nothing, NONCE, [], false), pc := RxDerive),
       log := s.log.(received := NONCE))
  }

  function UpAndReplying(cfg: Config): State {
    var s := NonceTaken(cfg);
    s.(rx := s.rx.(handshakeDone := true, successSent := true, pc := RxReply), log := s.log.(hsLive := true))
  }

  function Ended(cfg: Config, clean: CleanPc, closed: bool): State {
    var s := UpAndReplying(cfg);
    s.(life := s.life.(terminated := true, reason := StreamError, cleanups := 1, idleArmed := false,
                       cancelled := true, cleanPc := clean, writeClosed := closed))
  }

  function Left(cfg: Config): State {
    var s := Ended(cfg, CleanDone, true);
    s.(main := s.main.(pc := AwaitingCleanup))
  }

  function Over(cfg: Config): State {
    var s := Left(cfg);
    s.(main := s.main.(pc := Tunnel.Returned, outcome := Some(Outcome(false, StreamError, 0, true))))
  }

  lemma NonceArrives(cfg: Config)
    ensures Step(cfg, Registered(cfg), Data(NONCE, false)) == NonceTaken(cfg)
  {
    var s := Enqueue(Registered(cfg), NONCE, false);
    assert ResetIdle(Registered(cfg)) == Registered(cfg);
    assert s.rx.queue == [Item(NONCE, false)] && s.rx.queue[1..] == [];
    assert s.log.received == NONCE;
    var d := Feed(EMPTY, NONCE);
    assert EMPTY.buf[0..] + NONCE == NONCE;
    assert d == Rx(false, ZERO, NONCE, 0, -1, Nothing, NONCE, [], false);
    assert NONCE[0..12] == NONCE;
    assert TakeNonce(d) == NonceTaken(cfg).rx.d;
    assert Step(cfg, Registered(cfg), Data(NONCE, false)) == RxStart(cfg, s) == RxLoop(cfg, s);
    var s2 := s.(rx := s.rx.(queue := [], curFin := false, d := d), acct := Acct(0, 0));
    assert RxLoop(cfg, s) == RxFed(cfg, s2);
    assert RxFed(cfg, s2) == s2.(rx := s2.rx.(d := TakeNonce(d), pc := RxDerive));
  }

  lemma TunnelScript(cfg: Config)
    ensures Step(cfg, Init(cfg, 0, 0), MainResume(Ok)) == Registered(cfg)
    ensures Step(cfg, NonceTaken(cfg), RxResume(true)) == UpAndReplying(cfg)
    ensures Step(cfg, UpAndReplying(cfg), TransportError) == Ended(cfg, CleanCancel, false)
  {
  }

  lemma CleanupScript(cfg: Config)
    ensures Step(cfg, Ended(cfg, CleanCancel, false), CleanResume) == Ended(cfg, CleanClose, true)
    ensures Step(cfg, Ended(cfg, CleanClose, true), CleanResume) == Ended(cfg, CleanDone, true)
    ensures Step(cfg, Ended(cfg, CleanDone, true), MainResume(Fail)) == Left(cfg)
    ensures Step(cfg, Left(cfg), MainResume(Ok)) == Over(cfg)
  {
    hide Step, Ended, Left, Over;
    CleanupSteps(cfg);
    ReturnSteps(cfg);
  }

  lemma CleanupSteps(cfg: Config)
    ensures Step(cfg, Ended(cfg, CleanCancel, false), CleanResume) == Ended(cfg, CleanClose, true)
    ensures Step(cfg, Ended(cfg, CleanClose, true), CleanResume) == Ended(cfg, CleanDone, true)
  {
    hide UpAndReplying;
  }

  lemma ReturnSteps(cfg: Config)
    ensures Step(cfg, Ended(cfg, CleanDone, true), MainResume(Fail)) == Left(cfg)
    ensures Step(cfg, Left(cfg), MainResume(Ok)) == Over(cfg)
  {
  }

  lemma NonceInTime(policy: Policy, cfg: Config)
    requires GoodConfig(cfg) && !cfg.lastAttempt
    ensures SysReached(policy, With(cfg, NonceTaken(cfg), Running, 1, [], false, false))
  {
    hide SysReached, Step;
    Begins(policy, cfg);
    TunnelScript(cfg);
    NonceArrives(cfg);
    TunnelOnward(policy, cfg, Init(cfg, 0, 0), MainResume(Ok), Registered(cfg), Running, 1, [], false, false);
    TunnelOnward(policy, cfg, Registered(cfg), Data(NONCE, false), NonceTaken(cfg), Running, 1, [], false, false);
  }

  lemma TunnelOver(cfg: Config)
    requires GoodConfig(cfg) && !cfg.lastAttempt
    ensures SysReached(Dispatcher, With(cfg, Over(cfg), Running, 1, [Success], true, true))
  {
    hide SysReached, Step;
    NonceInTime(Dispatcher, cfg);
    TunnelScript(cfg);
    CleanupScript(cfg);
    TunnelOnward(Dispatcher, cfg, NonceTaken(cfg), RxResume(true), UpAndReplying(cfg), Running, 1, [], false, false);
    TunnelOnward(Dispatcher, cfg, UpAndReplying(cfg), TransportError, Ended(cfg, CleanCancel, false), Running, 1,
                 [Success], false, false);
    TunnelOnward(Dispatcher, cfg, Ended(cfg, CleanCancel, false), CleanResume, Ended(cfg, CleanClose, true), Running, 1,
                 [Success], true, false);
    TunnelOnward(Dispatcher, cfg, Ended(cfg, CleanClose, true), CleanResume, Ended(cfg, CleanDone, true), Running, 1,
                 [Success], true, true);
    TunnelOnward(Dispatcher, cfg, Ended(cfg, CleanDone, true), MainResume(Fail), Left(cfg), Running, 1,
                 [Success], true, true);
    TunnelOnward(Dispatcher, cfg, Left(cfg), MainResume(Ok), Over(cfg), Running, 1, [Success], true, true);
  }

  /** The dispatcher goes on to a second attempt after it has told the client of success,
      with the client's write side already closed. */
  lemma DispatcherRetriesAfterSuccess(cfg: Config)
    requires GoodConfig(cfg) && !cfg.lastAttempt
    ensures exists y :: SysReached(Dispatcher, y) && y.ctl.pc == Head && y.ctl.k == 2 &&
                        y.client.replies == [Success] && y.client.writerClosed
  {
    hide SysReached, Step;
    TunnelOver(cfg);
    var y := With(cfg, Over(cfg), Head, 2, [Success], true, true);
    SysOnward(Dispatcher, With(cfg, Over(cfg), Running, 1, [Success], true, true), RunReturns, y);
    assert y.ctl.pc == Head;
  }

  // The worker: the tunnel fails while its key is being derived, and replies afterwards.

  function FailedEarly(cfg: Config, pc: MainPc, o: Option<Outcome>): State {
    var s := NonceTaken(cfg);
    s.(life := s.life.(terminated := true, reason := StreamError, cleanups := 1, idleArmed := false, hs := HsRejected,
                       cleanPc := CleanDone),
       main := s.main.(pc := pc, outcome := o))
  }

  function RepliedLate(cfg: Config): State {
    var s := FailedEarly(cfg, Tunnel.Returned, Some(Outcome(false, StreamError, 0, false)));
    s.(rx := s.rx.(handshakeDone := true, successSent := true, pc := RxReply))
  }

  lemma EarlyScript(cfg: Config)
    requires !cfg.lastAttempt
    ensures Step(cfg, NonceTaken(cfg), TransportError) == FailedEarly(cfg, Connecting, None)
    ensures Step(cfg, FailedEarly(cfg, Connecting, None), MainResume(Fail)) == FailedEarly(cfg, AwaitingCleanup, None)
  {
  }

  lemma LateScript(cfg: Config)
    ensures var o := Some(Outcome(false, StreamError, 0, false));
            && Step(cfg, FailedEarly(cfg, AwaitingCleanup, None), MainResume(Ok)) ==
               FailedEarly(cfg, Tunnel.Returned, o)
            && Step(cfg, FailedEarly(cfg, Tunnel.Returned, o), RxResume(true)) == RepliedLate(cfg)
  {
  }

  lemma FailedInTime(cfg: Config)
    requires GoodConfig(cfg) && !cfg.lastAttempt
    ensures var s := FailedEarly(cfg, Tunnel.Returned, Some(Outcome(false, StreamError, 0, false)));
            SysReached(Worker, With(cfg, s, Running, 1, [], false, false))
  {
    hide SysReached, Step;
    NonceInTime(Worker, cfg);
    EarlyScript(cfg);
    LateScript(cfg);
    TunnelOnward(Worker, cfg, NonceTaken(cfg), TransportError, FailedEarly(cfg, Connecting, None), Running, 1,
                 [], false, false);
    TunnelOnward(Worker, cfg, FailedEarly(cfg, Connecting, None), MainResume(Fail),
                 FailedEarly(cfg, AwaitingCleanup, None), Running, 1, [], false, false);
    TunnelOnward(Worker, cfg, FailedEarly(cfg, AwaitingCleanup, None), MainResume(Ok),
                 FailedEarly(cfg, Tunnel.Returned, Some(Outcome(false, StreamError, 0, false))),
                 Running, 1, [], false, false);
  }

  /** The gap in the worker's guard is real: it is about to start a second attempt, and the
      first one has just replied success. */
  lemma WorkerRetriesAfterSuccess(cfg: Config)
    requires GoodConfig(cfg) && !cfg.lastAttempt
    ensures exists y :: SysReached(Worker, y) && y.ctl.pc == Head && y.ctl.k == 2 && y.client.replies == [Success]
  {
    hide SysReached, Step;
    var s := FailedEarly(cfg, Tunnel.Returned, Some(Outcome(false, StreamError, 0, false)));
    FailedInTime(cfg);
    SysOnward(Worker, With(cfg, s, Running, 1, [], false, false), RunReturns, With(cfg, s, Head, 2, [], false, false));
    LateScript(cfg);
    TunnelOnward(Worker, cfg, s, RxResume(true), RepliedLate(cfg), Head, 2, [], false, false);
    assert With(cfg, RepliedLate(cfg), Head, 2, [Success], false, false).ctl.pc == Head;
  }
}
