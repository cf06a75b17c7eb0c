/** What the client of a retry loop can rely on. */
module RetryResults {
  import opened Tunnel
  import opened TunnelInv
  import opened Retry
  import opened RetryProof

  ghost predicate SysLegal(policy: Policy, y: Sys, es: seq<SysEvent>)
    decreases |es|
  {
    es == [] || (SysEnabled(y, es[0]) && SysLegal(policy, SysStep(policy, y, es[0]), es[1..]))
  }

  ghost function SysRun(policy: Policy, y: Sys, es: seq<SysEvent>): Sys
    requires SysLegal(policy, y, es)
    decreases |es|
  {
    if es == [] then y else SysRun(policy, SysStep(policy, y, es[0]), es[1..])
  }

  lemma {:induction false} SysRunKeeps(policy: Policy, y: Sys, es: seq<SysEvent>)
    requires SysInv(y) && SysLegal(policy, y, es)
    ensures SysInv(SysRun(policy, y, es))
    decreases |es|
  {
    hide SysInv, SysStep, SysEnabled;
    if es != [] {
      SysKeeps(policy, y, es[0]);
      SysRunKeeps(policy, SysStep(policy, y, es[0]), es[1..]);
    }
  }

  lemma StartInv()
    ensures SysInv(START)
  {
  }

  /** All from one attempt. */
  predicate SameAttempt(ds: seq<Delivery>) {
    forall i, j :: 0 <= i < |ds| && 0 <= j < |ds| ==> ds[i].attempt == ds[j].attempt
  }

  /** Whatever the interleaving of the attempts: the client gets at most one reply; if it
      gets payload, that reply is success; all payload is one attempt's, a prefix of what
      that attempt decrypted; and all bytes read from the client went to one attempt. */
  lemma OneAttemptServes(policy: Policy, es: seq<SysEvent>)
    requires SysLegal(policy, START, es)
    ensures var y := SysRun(policy, START, es);
            && |y.client.replies| <= 1
            && SameAttempt(y.client.inbox)
            && (y.client.inbox != [] ==>
                  && y.client.replies == [Success]
                  && y.client.inbox[0].attempt < |y.attempts|
                  && Joined(y.client.inbox) <= y.attempts[y.client.inbox[0].attempt].s.log.written)
            && SameAttempt(y.client.taken)
            && (y.client.taken != [] ==>
                  && y.client.taken[0].attempt < |y.attempts|
                  && Joined(y.client.taken) == y.attempts[y.client.taken[0].attempt].s.main.u.clientRead)
  {
    hide SysStep, AttemptsOk, SysLegal, SysRun;
    StartInv();
    SysRunKeeps(policy, START, es);
  }

  /** Nothing the client has seen is undone, and a closed writer takes nothing more. */
  predicate Later(c: Client, d: Client) {
    && c.replies <= d.replies && c.inbox <= d.inbox && c.taken <= d.taken
    && (c.writerClosed ==> d.writerClosed && d.inbox == c.inbox)
  }

  lemma EffectsAreLater(y: Sys, i: nat, s: State, r: State)
    ensures Later(y.client, Effects(y, i, s, r).client)
  {
  }

  lemma StepTakesNothingBack(policy: Policy, y: Sys, e: SysEvent)
    requires SysEnabled(y, e)
    ensures Later(y.client, SysStep(policy, y, e).client)
  {
    hide Step, Enabled, Contract, Init, Effects;
    match e
    case InTunnel(i, ev) =>
      EffectsAreLater(y, i, y.attempts[i].s, Step(y.attempts[i].cfg, y.attempts[i].s, ev));
    case _ =>
  }

  /** Replies, payload and client bytes are never taken back. */
  lemma {:induction false} NothingTakenBack(policy: Policy, y: Sys, es: seq<SysEvent>)
    requires SysInv(y) && SysLegal(policy, y, es)
    ensures Later(y.client, SysRun(policy, y, es).client)
    decreases |es|
  {
    hide SysInv, SysEnabled, SysStep;
    if es != [] {
      SysKeeps(policy, y, es[0]);
      StepTakesNothingBack(policy, y, es[0]);
      NothingTakenBack(policy, SysStep(policy, y, es[0]), es[1..]);
    }
  }

  /** After a reply of failure nothing reaches the client any more. */
  lemma FailureIsLast(policy: Policy, es: seq<SysEvent>, more: seq<SysEvent>)
    requires SysLegal(policy, START, es) && SysLegal(policy, SysRun(policy, START, es), more)
    requires SysRun(policy, START, es).client.replies == [Failure]
    ensures var z := SysRun(policy, SysRun(policy, START, es), more);
            z.client.inbox == [] && z.client.replies == [Failure]
  {
    hide SysStep, SysEnabled, AttemptsOk, TakenOk, SysLegal, SysRun;
    StartInv();
    SysRunKeeps(policy, START, es);
    SysRunKeeps(policy, SysRun(policy, START, es), more);
    NothingTakenBack(policy, SysRun(policy, START, es), more);
    OnlyReply(SysRun(policy, START, es).client.replies, SysRun(policy, SysRun(policy, START, es), more).client.replies);
  }

  lemma OnlyReply(before: seq<Reply>, after: seq<Reply>)
    requires before == [Failure] && before <= after && |after| <= 1
    ensures after == [Failure]
  {
  }

  /** An attempt that comes after one that was up is futile: the client's write side was
      closed when that one returned, so nothing the later one decrypts reaches the client. */
  lemma LaterIsFutile(policy: Policy, es: seq<SysEvent>, i: nat, more: seq<SysEvent>)
    requires SysLegal(policy, START, es) && SysLegal(policy, SysRun(policy, START, es), more)
    requires var y := SysRun(policy, START, es);
             i < |y.attempts| && Up(y.attempts[i]) && (i < |y.attempts| - 1 || y.ctl.pc == Head)
    ensures var y := SysRun(policy, START, es);
            SysRun(policy, y, more).client.inbox == y.client.inbox
  {
    hide SysStep, SysEnabled, InboxOk, TakenOk, RepliesOk, SysLegal, SysRun;
    StartInv();
    SysRunKeeps(policy, START, es);
    var y := SysRun(policy, START, es);
    assert AttemptOk(y, i, y.attempts[i]);
    NothingTakenBack(policy, y, more);
  }

  // Retrying after the client was told success.

  /** The tunnel replied success after it had been terminated: its key derivation outlived it. */
  predicate Late(a: Attempt) {
    a.s.rx.successSent && !Up(a)
  }

  /** The worker goes on to another attempt after a success reply only for such a tunnel. */
  ghost predicate WorkerOk(y: Sys) {
    y.ctl.pc == Head && y.ctl.replied ==> exists i :: 0 <= i < |y.attempts| && Late(y.attempts[i])
  }

  lemma LateStays(y: Sys, i: nat, b: Attempt)
    requires SysInv(y) && y.ctl.pc == Head && i < |y.attempts| && Advances(y.attempts[i], b)
    ensures Late(y.attempts[i]) ==> Late(b)
    ensures b.s.rx.successSent && !y.attempts[i].s.rx.successSent ==> Late(b)
    ensures b.s.life.failureSent ==> y.attempts[i].s.life.failureSent
  {
    hide Inv, GoodConfig, InboxOk, TakenOk, RepliesOk;
    assert AttemptOk(y, i, y.attempts[i]);
  }

  lemma WorkerTunnel(y: Sys, i: nat, b: Attempt)
    requires SysInv(y) && WorkerOk(y) && i < |y.attempts| && Advances(y.attempts[i], b)
    ensures WorkerOk(Next(y, i, b))
  {
    hide Inv, GoodConfig, InboxOk, TakenOk, AttemptsOk, Dependable, Effects, Advances, SysInv, Late;
    var z := Next(y, i, b);
    NextAttempts(y, i, b);
    EffectsShape(y, i, b);
    if z.ctl.pc == Head && z.ctl.replied {
      LateStays(y, i, b);
      if y.ctl.replied {
        var j :| 0 <= j < |y.attempts| && Late(y.attempts[j]);
        assert Late(z.attempts[j]);
      } else {
        NotRepliedYet(y, i);
        assert Late(z.attempts[i]);
      }
    }
  }

  lemma NotRepliedYet(y: Sys, i: nat)
    requires SysInv(y) && i < |y.attempts| && !y.ctl.replied
    ensures !y.attempts[i].s.rx.successSent && !y.attempts[i].s.life.failureSent
  {
    hide Inv, GoodConfig, InboxOk, TakenOk, RepliesOk, Dependable;
    assert AttemptOk(y, i, y.attempts[i]);
  }

  lemma {:induction false} WorkerRetriesUnreplied(y: Sys, es: seq<SysEvent>)
    requires SysInv(y) && WorkerOk(y) && SysLegal(Worker, y, es)
    ensures WorkerOk(SysRun(Worker, y, es))
    decreases |es|
  {
    hide SysInv, Effects, Step, Enabled, Contract, Late;
    if es != [] {
      SysKeeps(Worker, y, es[0]);
      WorkerStep(y, es[0]);
      WorkerRetriesUnreplied(SysStep(Worker, y, es[0]), es[1..]);
    }
  }

  lemma WorkerStep(y: Sys, e: SysEvent)
    requires SysInv(y) && WorkerOk(y) && SysEnabled(y, e)
    ensures WorkerOk(SysStep(Worker, y, e))
  {
    hide SysInv, Effects, Step, Enabled, Contract, Late, Dependable;
    match e
    case InTunnel(i, ev) =>
      AttemptDependable(y, i);
      StepAdvances(y.attempts[i], ev);
      WorkerTunnel(y, i, y.attempts[i].(s := Step(y.attempts[i].cfg, y.attempts[i].s, ev)));
    case _ =>
  }

  lemma AttemptDependable(y: Sys, i: nat)
    requires SysInv(y) && i < |y.attempts|
    ensures Dependable(y.attempts[i])
  {
    hide Dependable, InboxOk, TakenOk, RepliesOk;
    assert AttemptOk(y, i, y.attempts[i]);
  }

  lemma LateMeansReplied(y: Sys)
    requires SysInv(y)
    ensures (exists i :: 0 <= i < |y.attempts| && y.attempts[i].s.rx.successSent) ==> y.ctl.replied
  {
    hide Dependable, InboxOk, TakenOk, CountOk;
    forall i | 0 <= i < |y.attempts| && y.attempts[i].s.rx.successSent
      ensures y.ctl.replied
    {
      assert AttemptOk(y, i, y.attempts[i]);
    }
  }

  /** When the worker is about to start another attempt, success has been replied exactly if
      some earlier tunnel replied after its own end. */
  lemma WorkerIsStrict(es: seq<SysEvent>)
    requires SysLegal(Worker, START, es)
    ensures var y := SysRun(Worker, START, es);
            y.ctl.pc == Head ==> (y.ctl.replied <==> exists i :: 0 <= i < |y.attempts| && Late(y.attempts[i]))
  {
    hide SysRun, SysLegal, SysInv;
    StartInv();
    SysRunKeeps(Worker, START, es);
    WorkerRetriesUnreplied(START, es);
    LateMeansReplied(SysRun(Worker, START, es));
  }

  // What follows a turn of the loop.

  /** Nothing was read from the client, and for the worker nothing was replied either. */
  predicate Untouched(policy: Policy, c: Client) {
    c.taken == [] && (policy == Worker ==> c.replies == [])
  }

  /** Over every interleaving: when the outcome of an attempt is examined, the loop is left for
      good after a success; another attempt follows exactly if this one failed without
      payload, for a reason other than an abort of the client or an overflow, the client is
      untouched, and an attempt is left; else failure is reported. The dispatcher does not
      care whether it has replied success already. */
  lemma RetryExact(policy: Policy, es: seq<SysEvent>)
    requires SysLegal(policy, START, es) && SysEnabled(SysRun(policy, START, es), RunReturns)
    ensures var y := SysRun(policy, START, es);
            var o := Last(y).s.main.outcome.value;
            var c := SysStep(policy, y, RunReturns).ctl;
            var again := !o.success && o.bytesReceived == 0 && o.kind != ClientAbort && o.kind != RxOverflow &&
                         Untouched(policy, y.client) && y.ctl.k < 3;
            && (c.pc == Closing <==> o.success)
            && (c.pc == Head <==> again) && (again ==> c.k == y.ctl.k + 1)
            && (c.pc == Failing <==> !o.success && !again)
  {
    hide SysRun, SysLegal, AttemptsOk, InboxOk;
    StartInv();
    SysRunKeeps(policy, START, es);
  }

  /** A session that could not be had costs one attempt. A run that threw before it began is
      the end for the dispatcher; the worker goes on if the client is untouched. A stop ends
      the dispatcher's loop without a word, and the worker's with a failure reply. */
  lemma TurnExact(policy: Policy, es: seq<SysEvent>, e: SysEvent)
    requires SysLegal(policy, START, es) && SysEnabled(SysRun(policy, START, es), e)
    requires e == SessionFails || e == RunThrows || e == Stop
    ensures var y := SysRun(policy, START, es);
            var c := SysStep(policy, y, e).ctl;
            var again := y.ctl.k < 3 &&
              (e == SessionFails || (e == RunThrows && policy == Worker && Untouched(policy, y.client)));
            && SysStep(policy, y, e).client == y.client && SysStep(policy, y, e).attempts == y.attempts
            && (c.pc == Head <==> again) && (again ==> c.k == y.ctl.k + 1)
            && (c.pc == Closing <==> e == Stop && policy == Dispatcher)
            && (c.pc == Failing <==> !again && !(e == Stop && policy == Dispatcher))
  {
    hide SysRun, SysLegal, AttemptsOk, InboxOk;
    StartInv();
    SysRunKeeps(policy, START, es);
  }

  // Nobody is left without an answer.

  ghost predicate Answered(y: Sys) {
    && (y.ctl.pc == Closing || y.ctl.pc == Finished ==> y.ctl.replied)
    && (y.ctl.pc == Finished ==> y.client.writerClosed && y.client.readerCancelled)
  }

  lemma SuccessWasReplied(y: Sys)
    requires SysInv(y) && SysEnabled(y, RunReturns) && Last(y).s.main.outcome.value.success
    ensures y.ctl.replied
  {
    hide InboxOk, TakenOk, RepliesOk;
    assert AttemptOk(y, |y.attempts| - 1, Last(y));
  }

  lemma StepAnswers(policy: Policy, y: Sys, e: SysEvent)
    requires SysInv(y) && SysEnabled(y, e) && Answered(y) && (e == Stop ==> policy == Worker)
    ensures Answered(SysStep(policy, y, e))
  {
    hide SysInv, Step, Enabled, Contract;
    if e == RunReturns && Last(y).s.main.outcome.value.success {
      SuccessWasReplied(y);
    }
  }

  predicate NoStop(es: seq<SysEvent>) {
    forall i :: 0 <= i < |es| ==> es[i] != Stop
  }

  lemma {:induction false} RunAnswers(policy: Policy, y: Sys, es: seq<SysEvent>)
    requires SysInv(y) && SysLegal(policy, y, es) && Answered(y) && (NoStop(es) || policy == Worker)
    ensures Answered(SysRun(policy, y, es))
    decreases |es|
  {
    hide SysInv, SysStep, SysEnabled, Answered;
    if es != [] {
      SysKeeps(policy, y, es[0]);
      StepAnswers(policy, y, es[0]);
      RunAnswers(policy, SysStep(policy, y, es[0]), es[1..]);
    }
  }

  /** Over every interleaving: when the loop is over, the client has had exactly one reply,
      unless the dispatcher was stopped between attempts; and at the very end both of its
      streams are closed. */
  lemma ClientIsAnswered(policy: Policy, es: seq<SysEvent>)
    requires SysLegal(policy, START, es) && (NoStop(es) || policy == Worker)
    ensures var y := SysRun(policy, START, es);
            && (y.ctl.pc == Closing || y.ctl.pc == Finished ==> |y.client.replies| == 1)
            && (y.ctl.pc == Finished ==> y.client.writerClosed && y.client.readerCancelled)
  {
    hide SysRun, SysLegal, AttemptsOk, InboxOk, TakenOk;
    StartInv();
    SysRunKeeps(policy, START, es);
    RunAnswers(policy, START, es);
  }

  // Who closes the client's streams.

  ghost predicate ClosedWhy(y: Sys, dropped: bool) {
    && (y.client.writerClosed <==>
          dropped || y.ctl.pc == Finished ||
          exists i :: 0 <= i < |y.attempts| && y.attempts[i].s.life.writeClosed)
    && (y.client.readerCancelled <==>
          dropped || y.ctl.pc == Finished ||
          exists i :: 0 <= i < |y.attempts| && y.attempts[i].s.life.cancelled)
  }

  lemma TunnelClosedWhy(policy: Policy, y: Sys, i: nat, e: Event, dropped: bool)
    requires SysInv(y) && SysEnabled(y, InTunnel(i, e)) && ClosedWhy(y, dropped)
    ensures ClosedWhy(SysStep(policy, y, InTunnel(i, e)), dropped)
  {
    hide SysInv, Step, Enabled, Contract;
    var a := y.attempts[i];
    var b := a.(s := Step(a.cfg, a.s, e));
    LifeOnlyGrows(y, i, e);
    var z := SysStep(policy, y, InTunnel(i, e));
    assert z.attempts == y.attempts[i := b] && z.ctl.pc == y.ctl.pc;
    assert z.attempts[i] == b;
    forall j | 0 <= j < |y.attempts|
      ensures y.attempts[j].s.life.writeClosed ==> z.attempts[j].s.life.writeClosed
      ensures y.attempts[j].s.life.cancelled ==> z.attempts[j].s.life.cancelled
    {
    }
    forall j | 0 <= j < |z.attempts| && j != i
      ensures z.attempts[j] == y.attempts[j]
    {
    }
  }

  lemma LifeOnlyGrows(y: Sys, i: nat, e: Event)
    requires SysInv(y) && SysEnabled(y, InTunnel(i, e))
    ensures var a := y.attempts[i];
            var r := Step(a.cfg, a.s, e);
            && (a.s.life.writeClosed ==> r.life.writeClosed) && (a.s.life.cancelled ==> r.life.cancelled)
  {
    hide Step, Enabled, Contract, Dependable, Inv;
    var a := y.attempts[i];
    AttemptDependable(y, i);
    StepAdvances(a, e);
  }

  lemma StepClosedWhy(policy: Policy, y: Sys, e: SysEvent, dropped: bool)
    requires SysInv(y) && SysEnabled(y, e) && ClosedWhy(y, dropped)
    ensures ClosedWhy(SysStep(policy, y, e), dropped || e == Drop)
  {
    hide SysInv, Step, Enabled, Contract;
    match e
    case InTunnel(i, ev) => TunnelClosedWhy(policy, y, i, ev, dropped);
    case Begin(cfg) =>
      var z := SysStep(policy, y, e);
      assert forall j :: 0 <= j < |y.attempts| ==> z.attempts[j] == y.attempts[j];
    case _ =>
  }

  lemma {:induction false} RunClosedWhy(policy: Policy, y: Sys, es: seq<SysEvent>, dropped: bool)
    requires SysInv(y) && SysLegal(policy, y, es) && ClosedWhy(y, dropped)
    ensures ClosedWhy(SysRun(policy, y, es), dropped || Drop in es)
    decreases |es|
  {
    hide SysInv, SysStep, SysEnabled, ClosedWhy;
    if es != [] {
      SysKeeps(policy, y, es[0]);
      StepClosedWhy(policy, y, es[0], dropped);
      RunClosedWhy(policy, SysStep(policy, y, es[0]), es[1..], dropped || es[0] == Drop);
      assert es == [es[0]] + es[1..];
    }
  }

  /** Over every interleaving: the client's writer is closed, and its reader cancelled, exactly
      if some attempt did so, the loop is finished, or the dispatcher dropped the client. */
  lemma StreamsClosedExactly(policy: Policy, es: seq<SysEvent>)
    requires SysLegal(policy, START, es)
    ensures var y := SysRun(policy, START, es);
            var over := Drop in es || y.ctl.pc == Finished;
            && (y.client.writerClosed <==>
                  over || exists i :: 0 <= i < |y.attempts| && y.attempts[i].s.life.writeClosed)
            && (y.client.readerCancelled <==>
                  over || exists i :: 0 <= i < |y.attempts| && y.attempts[i].s.life.cancelled)
  {
    hide SysRun, SysLegal, SysInv;
    StartInv();
    RunClosedWhy(policy, START, es, false);
  }
}
