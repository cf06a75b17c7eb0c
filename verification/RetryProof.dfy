/** What the retry loops keep over every interleaving of their attempts. */
module RetryProof {
  import opened Bytes
  import opened Tunnel
  import opened TunnelInv
  import opened TunnelRuns
  import opened Retry

  lemma JoinedSnoc(ds: seq<Delivery>, d: Delivery)
    ensures Joined(ds + [d]) == Joined(ds) + d.data
  {
    assert (ds + [d])[..|ds|] == ds;
  }

  // What one tunnel promises the loop.

  /** An attempt that came up in time, and whose receive side may therefore reach the client. */
  predicate Up(a: Attempt) {
    a.s.log.hsLive
  }

  predicate Returned(a: Attempt) {
    a.s.main.outcome.Some?
  }

  ghost predicate Dependable(a: Attempt) {
    var s := a.s;
    && GoodConfig(a.cfg)
    && Inv(a.cfg, s, 0)
    && (Up(a) ==> s.rx.successSent)
    && (s.life.failureSent ==> s.life.terminated && !Up(a) && a.cfg.lastAttempt)
    && (Returned(a) ==> s.life.terminated)
    && (Returned(a) && Up(a) ==> s.life.writeClosed && s.life.cancelled)
    && (s.log.written != [] ==> Up(a))
    && (s.main.u.clientRead != [] ==> Up(a))
  }

  lemma InvDependable(a: Attempt)
    requires GoodConfig(a.cfg) && Inv(a.cfg, a.s, 0)
    ensures Dependable(a)
  {
    if a.s.rx.d.frames == [] {
      assert a.s.log.written == [];
    }
  }

  /** How one step changes an attempt. */
  ghost predicate Advances(a: Attempt, b: Attempt) {
    && b.cfg == a.cfg
    && Dependable(a) && Dependable(b)
    && Grows(a.s, b.s)
    && Licensed(a.s, b.s)
    && (a.s.rx.successSent ==> b.s.rx.successSent)
    && (b.s.rx.successSent && !a.s.rx.successSent ==> !b.s.life.failureSent || a.s.life.failureSent)
  }

  lemma StepAdvances(a: Attempt, e: Event)
    requires Dependable(a) && Enabled(a.s, e) && Contract(a.s, e)
    ensures Advances(a, a.(s := Step(a.cfg, a.s, e)))
  {
    var b := a.(s := Step(a.cfg, a.s, e));
    assert Dependable(b) by {
      hide Step, Enabled, Contract, Inv;
      StepKeeps(a.cfg, a.s, e, 0);
      InvDependable(b);
    }
    assert Grows(a.s, b.s) && Licensed(a.s, b.s) by {
      hide Step, Enabled, Contract, Inv, Grows, Licensed;
      StepGrows(a.cfg, a.s, e, 0);
    }
    assert a.s.rx.successSent ==> b.s.rx.successSent by {
      hide Step, Enabled, Contract, Licensed;
    }
    OneReplyAStep(a, b, e);
  }

  /** No step of a tunnel sends both replies. */
  lemma OneReplyAStep(a: Attempt, b: Attempt, e: Event)
    requires Dependable(a) && b == a.(s := Step(a.cfg, a.s, e)) && Dependable(b)
    ensures b.s.rx.successSent && !a.s.rx.successSent ==> b.s.life.failureSent == a.s.life.failureSent
  {
  }

  // The invariant of the loop.

  /** Every attempt keeps its promises; all but a running one have returned; and a client
      stream that any of them closed is closed. */
  ghost predicate AttemptsOk(y: Sys) {
    && (y.ctl.pc == Running ==> y.attempts != [])
    && forall i :: 0 <= i < |y.attempts| ==> AttemptOk(y, i, y.attempts[i])
  }

  ghost predicate AttemptOk(y: Sys, i: nat, a: Attempt) {
    && Dependable(a)
    && (i < |y.attempts| - 1 || y.ctl.pc != Running ==> Returned(a))
    && (a.s.life.writeClosed ==> y.client.writerClosed)
    && (a.cfg.lastAttempt ==> y.ctl.k == MAX_ATTEMPTS && i == |y.attempts| - 1 && y.ctl.pc != Head)
    && (a.s.rx.successSent || a.s.life.failureSent ==> y.ctl.replied)
  }

  ghost predicate RepliesOk(y: Sys) {
    && |y.client.replies| <= 1
    && (y.ctl.replied <==> y.client.replies != [])
    && (y.client.replies == [Failure] ==> Barred(y))
  }

  /** No attempt can reach the client any more. */
  ghost predicate Barred(y: Sys) {
    && y.ctl.pc != Head
    && (y.ctl.pc == Running ==>
          y.ctl.k == MAX_ATTEMPTS && y.attempts != [] && Last(y).s.life.terminated && !Up(Last(y)))
  }

  /** All payload bytes come from one attempt, in order; while the client's write side is
      open they are exactly what that attempt has decrypted, and the others have none. */
  ghost predicate InboxOk(y: Sys) {
    && (y.client.inbox != [] ==>
          var a := y.client.inbox[0].attempt;
          && a < |y.attempts| && Up(y.attempts[a])
          && (forall j :: 0 <= j < |y.client.inbox| ==> y.client.inbox[j].attempt == a)
          && Joined(y.client.inbox) <= y.attempts[a].s.log.written
          && y.client.replies == [Success])
    && (!y.client.writerClosed ==>
          forall i :: 0 <= i < |y.attempts| ==> y.attempts[i].s.log.written == From(y.client.inbox, i))
  }

  function From(inbox: seq<Delivery>, i: nat): bytes {
    if inbox != [] && inbox[0].attempt == i then Joined(inbox) else []
  }

  /** All bytes read from the client went to the latest attempt. */
  ghost predicate TakenOk(y: Sys) {
    && (y.ctl.consumed <==> y.client.taken != [])
    && (y.ctl.consumed ==> y.ctl.pc != Head)
    && (forall j :: 0 <= j < |y.client.taken| ==> y.client.taken[j].attempt == |y.attempts| - 1)
    && (forall i :: 0 <= i < |y.attempts| - 1 ==> y.attempts[i].s.main.u.clientRead == [])
    && (y.attempts != [] ==> Joined(y.client.taken) == Last(y).s.main.u.clientRead)
    && (y.attempts == [] ==> y.client.taken == [])
  }

  predicate CountOk(y: Sys) {
    1 <= y.ctl.k <= MAX_ATTEMPTS && |y.attempts| <= (if y.ctl.pc == Head then y.ctl.k - 1 else y.ctl.k)
  }

  ghost predicate SysInv(y: Sys) {
    CountOk(y) && AttemptsOk(y) && RepliesOk(y) && InboxOk(y) && TakenOk(y)
  }

  // A step of one tunnel keeps it.

  ghost predicate Moved(y: Sys, i: nat, b: Attempt) {
    SysInv(y) && i < |y.attempts| && Advances(y.attempts[i], b)
  }

  function Next(y: Sys, i: nat, b: Attempt): Sys
    requires i < |y.attempts|
  {
    Effects(y, i, y.attempts[i].s, b.s).(attempts := y.attempts[i := b])
  }

  /** The bytes an attempt adds to the two streams. */
  function NewWritten(a: Attempt, b: Attempt): bytes {
    b.s.log.written[Min(|a.s.log.written|, |b.s.log.written|)..]
  }

  function NewRead(a: Attempt, b: Attempt): bytes {
    b.s.main.u.clientRead[Min(|a.s.main.u.clientRead|, |b.s.main.u.clientRead|)..]
  }

  lemma EffectsShape(y: Sys, i: nat, b: Attempt)
    requires Moved(y, i, b)
    ensures var a, z := y.attempts[i], Next(y, i, b);
            && |z.attempts| == |y.attempts|
            && z.ctl.pc == y.ctl.pc && z.ctl.k == y.ctl.k
            && z.ctl.consumed == (y.ctl.consumed || NewRead(a, b) != [])
            && z.client.taken ==
               (if NewRead(a, b) != [] then y.client.taken + [Delivery(i, NewRead(a, b))] else y.client.taken)
            && z.client.inbox == (if NewWritten(a, b) != [] && !y.client.writerClosed
                                  then y.client.inbox + [Delivery(i, NewWritten(a, b))] else y.client.inbox)
            && z.client.writerClosed == (y.client.writerClosed || b.s.life.writeClosed)
    ensures var z := Next(y, i, b);
            || (z.ctl.replied == y.ctl.replied && z.client.replies == y.client.replies)
            || (!y.ctl.replied && z.ctl.replied && z.client.replies == [Success] && b.s.rx.successSent)
            || (!y.ctl.replied && z.ctl.replied && z.client.replies == [Failure] && b.s.life.failureSent)
    ensures b.s.rx.successSent || b.s.life.failureSent ==> Next(y, i, b).ctl.replied
    ensures b.s.log.written == y.attempts[i].s.log.written + NewWritten(y.attempts[i], b)
    ensures b.s.main.u.clientRead == y.attempts[i].s.main.u.clientRead + NewRead(y.attempts[i], b)
  {
    hide Inv, GoodConfig, InboxOk, TakenOk, AttemptsOk, RepliesOk, CountOk, Licensed, LifeGrows;
    AppendsShape(y.attempts[i], b);
    assert y.attempts[i].s.rx.successSent ==> b.s.rx.successSent;
    RepliedBefore(y, i);
  }

  lemma AppendsShape(a: Attempt, b: Attempt)
    requires a.s.log.written <= b.s.log.written && a.s.main.u.clientRead <= b.s.main.u.clientRead
    ensures b.s.log.written == a.s.log.written + NewWritten(a, b)
    ensures b.s.main.u.clientRead == a.s.main.u.clientRead + NewRead(a, b)
  {
  }

  lemma RepliedBefore(y: Sys, i: nat)
    requires SysInv(y) && i < |y.attempts|
    ensures y.attempts[i].s.rx.successSent || y.attempts[i].s.life.failureSent ==> y.ctl.replied
    ensures y.ctl.replied <==> y.client.replies != []
  {
    hide Dependable, InboxOk, TakenOk, CountOk;
    assert AttemptOk(y, i, y.attempts[i]);
  }

  lemma AttemptsKept(y: Sys, i: nat, b: Attempt)
    requires Moved(y, i, b)
    ensures AttemptsOk(Next(y, i, b)) && CountOk(Next(y, i, b))
  {
    hide Inv, GoodConfig, InboxOk, TakenOk, RepliesOk, Effects, Next;
    EffectsShape(y, i, b);
    var z := Next(y, i, b);
    NextAttempts(y, i, b);
    forall j | 0 <= j < |z.attempts|
      ensures AttemptOk(z, j, z.attempts[j])
    {
      assert AttemptOk(y, j, y.attempts[j]);
    }
  }

  lemma NextAttempts(y: Sys, i: nat, b: Attempt)
    requires i < |y.attempts|
    ensures Next(y, i, b).attempts == y.attempts[i := b]
  {
  }

  lemma RepliesKept(y: Sys, i: nat, b: Attempt)
    requires Moved(y, i, b)
    ensures RepliesOk(Next(y, i, b))
  {
    hide Inv, GoodConfig, InboxOk, TakenOk, Effects, Next;
    EffectsShape(y, i, b);
    NextAttempts(y, i, b);
    assert AttemptOk(y, i, y.attempts[i]);
  }

  /** A delivery comes from an attempt that is up while the client is still open, and there
      is only one such attempt. */
  lemma OnlyOneUp(y: Sys, i: nat, j: nat)
    requires SysInv(y) && i < |y.attempts| && j < |y.attempts|
    requires Up(y.attempts[i]) && Up(y.attempts[j]) && !y.client.writerClosed
    ensures i == j
  {
    hide Inv, GoodConfig, InboxOk, TakenOk;
    assert AttemptOk(y, i, y.attempts[i]) && AttemptOk(y, j, y.attempts[j]);
  }

  lemma DeliveryExtends(y: Sys, i: nat, b: Attempt)
    requires Moved(y, i, b) && !y.client.writerClosed && NewWritten(y.attempts[i], b) != []
    ensures y.client.inbox != [] ==> y.client.inbox[0].attempt == i
    ensures Joined(Next(y, i, b).client.inbox) == b.s.log.written
    ensures Up(b) && Next(y, i, b).client.replies == [Success]
  {
    hide Inv, GoodConfig, TakenOk, Effects, Next;
    EffectsShape(y, i, b);
    var a := y.attempts[i];
    assert AttemptOk(y, i, a);
    assert Up(a) by {
      assert b.s.log.written != a.s.log.written;
    }
    if y.client.inbox != [] {
      OnlyOneUp(y, i, y.client.inbox[0].attempt);
    }
    JoinedSnoc(y.client.inbox, Delivery(i, NewWritten(a, b)));
    assert a.s.log.written == From(y.client.inbox, i);
    OpenIsSuccess(y, i);
  }

  /** An attempt that can still reach the client rules out a failure reply. */
  lemma OpenIsSuccess(y: Sys, i: nat)
    requires SysInv(y) && i < |y.attempts| && Up(y.attempts[i]) && !y.client.writerClosed
    ensures y.ctl.replied && y.client.replies == [Success]
  {
    hide Inv, GoodConfig, TakenOk, InboxOk;
    assert AttemptOk(y, i, y.attempts[i]);
    assert !Returned(y.attempts[i]) && y.attempts[i] == Last(y) && y.ctl.pc == Running;
    assert !Barred(y);
    var first := y.client.replies[0];
    assert first == Success || first == Failure;
    assert y.client.replies == [first];
  }

  lemma InboxKept(y: Sys, i: nat, b: Attempt)
    requires Moved(y, i, b)
    ensures InboxOk(Next(y, i, b))
  {
    hide Inv, GoodConfig, TakenOk, Effects, Next, InboxOk, SysInv, Advances;
    if !y.client.writerClosed && NewWritten(y.attempts[i], b) != [] {
      SomeDelivered(y, i, b);
    } else {
      NothingDelivered(y, i, b);
    }
  }

  lemma SomeDelivered(y: Sys, i: nat, b: Attempt)
    requires Moved(y, i, b) && !y.client.writerClosed && NewWritten(y.attempts[i], b) != []
    ensures InboxOk(Next(y, i, b))
  {
    hide Inv, GoodConfig, TakenOk, Effects, Next, Advances, Joined, NewRead, NewWritten, AttemptsOk, RepliesOk,
         CountOk, Up;
    EffectsShape(y, i, b);
    NextAttempts(y, i, b);
    DeliveryExtends(y, i, b);
  }

  /** The inbox is as it was, and so is the rest that it depends on. */
  lemma NothingDelivered(y: Sys, i: nat, b: Attempt)
    requires Moved(y, i, b) && (y.client.writerClosed || NewWritten(y.attempts[i], b) == [])
    ensures InboxOk(Next(y, i, b))
  {
    hide Inv, GoodConfig, TakenOk, Effects, Next, Joined, NewRead, NewWritten, AttemptsOk, CountOk, Dependable,
         Licensed;
    var z := Next(y, i, b);
    EffectsShape(y, i, b);
    NextAttempts(y, i, b);
    assert z.client.inbox == y.client.inbox;
    assert y.attempts[i].s.log.written <= b.s.log.written;
    if y.client.inbox != [] {
      SuccessStays(y, i, b);
      var a := y.client.inbox[0].attempt;
      assert z.attempts[a].s.log.written == (if a == i then b else y.attempts[a]).s.log.written;
    }
    if !z.client.writerClosed {
      assert b.s.log.written == y.attempts[i].s.log.written + [];
    }
  }

  lemma SuccessStays(y: Sys, i: nat, b: Attempt)
    requires Moved(y, i, b) && y.client.replies == [Success]
    ensures Next(y, i, b).client.replies == [Success]
  {
    hide Inv, GoodConfig, TakenOk, InboxOk, AttemptsOk, CountOk, Advances;
  }

  lemma TakenKept(y: Sys, i: nat, b: Attempt)
    requires Moved(y, i, b)
    ensures TakenOk(Next(y, i, b))
  {
    hide Inv, GoodConfig, InboxOk, RepliesOk, CountOk, Effects, Next, NewRead, NewWritten, Joined, LifeGrows, Licensed;
    EffectsShape(y, i, b);
    NextAttempts(y, i, b);
    var a, z := y.attempts[i], Next(y, i, b);
    assert AttemptOk(y, i, a);
    if NewRead(a, b) == [] {
      assert b.s.main.u.clientRead == a.s.main.u.clientRead;
    } else {
      ReadIsLast(y, i, b);
      JoinedSnoc(y.client.taken, Delivery(i, NewRead(a, b)));
    }
  }

  lemma ReadIsLast(y: Sys, i: nat, b: Attempt)
    requires Moved(y, i, b) && NewRead(y.attempts[i], b) != []
    ensures i == |y.attempts| - 1 && y.ctl.pc == Running
  {
    hide Inv, GoodConfig, InboxOk, RepliesOk, CountOk, TakenOk, Joined;
    assert AttemptOk(y, i, y.attempts[i]);
  }

  lemma TunnelKeeps(y: Sys, i: nat, b: Attempt)
    requires Moved(y, i, b)
    ensures SysInv(Next(y, i, b))
  {
    hide SysInv, AttemptsOk, RepliesOk, InboxOk, TakenOk, CountOk, Effects, Advances;
    AttemptsKept(y, i, b);
    RepliesKept(y, i, b);
    InboxKept(y, i, b);
    TakenKept(y, i, b);
    Together(Next(y, i, b));
  }

  lemma Together(y: Sys)
    requires CountOk(y) && AttemptsOk(y) && RepliesOk(y) && InboxOk(y) && TakenOk(y)
    ensures SysInv(y)
  {
  }

  // The steps of the loop keep it.

  lemma BeginKeeps(policy: Policy, y: Sys, cfg: Config)
    requires SysInv(y) && SysEnabled(y, Begin(cfg))
    ensures SysInv(SysStep(policy, y, Begin(cfg)))
  {
    hide Inv, GoodConfig, Init, Dependable;
    var z := SysStep(policy, y, Begin(cfg));
    var a := Attempt(cfg, Init(cfg, 0, 0));
    NewAttempt(cfg);
    forall i | 0 <= i < |z.attempts|
      ensures AttemptOk(z, i, z.attempts[i])
    {
      assert i < |y.attempts| ==> AttemptOk(y, i, y.attempts[i]);
    }
  }

  lemma NewAttempt(cfg: Config)
    requires GoodConfig(cfg)
    ensures var a := Attempt(cfg, Init(cfg, 0, 0));
            && Dependable(a) && !Returned(a) && !a.s.life.writeClosed && !a.s.rx.successSent && !a.s.life.failureSent
            && a.s.log.written == [] && a.s.main.u.clientRead == [] && !Up(a)
  {
    hide Inv;
    InitInv(cfg, 0, 0);
    InvDependable(Attempt(cfg, Init(cfg, 0, 0)));
  }

  lemma ControlAttempts(policy: Policy, y: Sys, e: SysEvent)
    requires SysInv(y) && SysEnabled(y, e) && !e.InTunnel? && !e.Begin?
    ensures AttemptsOk(SysStep(policy, y, e)) && CountOk(SysStep(policy, y, e))
  {
    hide Inv, GoodConfig, Dependable, Joined, InboxOk, RepliesOk, AttemptOk, TakenOk;
    var z := SysStep(policy, y, e);
    forall i | 0 <= i < |z.attempts|
      ensures AttemptOk(z, i, z.attempts[i])
    {
      assert AttemptOk(y, i, y.attempts[i]);
      ControlAttempt(policy, y, e, i);
    }
  }

  lemma ControlAttempt(policy: Policy, y: Sys, e: SysEvent, i: nat)
    requires SysEnabled(y, e) && !e.InTunnel? && !e.Begin? && CountOk(y)
    requires i < |y.attempts| && AttemptOk(y, i, y.attempts[i])
    ensures SysStep(policy, y, e).attempts == y.attempts
    ensures AttemptOk(SysStep(policy, y, e), i, y.attempts[i])
  {
    hide Inv, GoodConfig, Dependable, GivesUp;
  }

  lemma ControlRest(policy: Policy, y: Sys, e: SysEvent)
    requires SysInv(y) && SysEnabled(y, e) && !e.InTunnel? && !e.Begin?
    ensures RepliesOk(SysStep(policy, y, e)) && InboxOk(SysStep(policy, y, e)) && TakenOk(SysStep(policy, y, e))
  {
    hide RepliesOk, InboxOk, TakenOk, AttemptsOk, CountOk, SysStep, SysEnabled;
    ControlReplies(policy, y, e);
    ControlInbox(policy, y, e);
    ControlTaken(policy, y, e);
  }

  lemma ControlReplies(policy: Policy, y: Sys, e: SysEvent)
    requires RepliesOk(y) && SysEnabled(y, e) && !e.InTunnel? && !e.Begin? && CountOk(y)
    ensures RepliesOk(SysStep(policy, y, e))
  {
  }

  lemma ControlInbox(policy: Policy, y: Sys, e: SysEvent)
    requires RepliesOk(y) && InboxOk(y) && SysEnabled(y, e) && !e.InTunnel? && !e.Begin?
    ensures InboxOk(SysStep(policy, y, e))
  {
    hide From, Joined;
  }

  lemma ControlTaken(policy: Policy, y: Sys, e: SysEvent)
    requires TakenOk(y) && SysEnabled(y, e) && !e.InTunnel? && !e.Begin?
    ensures TakenOk(SysStep(policy, y, e))
  {
    hide Joined;
  }

  lemma ControlKeeps(policy: Policy, y: Sys, e: SysEvent)
    requires SysInv(y) && SysEnabled(y, e) && !e.InTunnel? && !e.Begin?
    ensures SysInv(SysStep(policy, y, e))
  {
    hide Inv, GoodConfig, Dependable, Joined, SysStep, SysInv;
    ControlAttempts(policy, y, e);
    ControlRest(policy, y, e);
    Together(SysStep(policy, y, e));
  }

  /** Every step of the loop and of every attempt keeps the invariant. */
  lemma SysKeeps(policy: Policy, y: Sys, e: SysEvent)
    requires SysInv(y) && SysEnabled(y, e)
    ensures SysInv(SysStep(policy, y, e))
  {
    match e
    case Begin(cfg) => BeginKeeps(policy, y, cfg);
    case InTunnel(i, ev) =>
      hide Inv, GoodConfig, InboxOk, TakenOk, RepliesOk, Dependable, Advances, Enabled, Contract, Step;
      var a := y.attempts[i];
      var b := a.(s := Step(a.cfg, a.s, ev));
      assert AttemptOk(y, i, a);
      StepAdvances(a, ev);
      TunnelKeeps(y, i, b);
      assert SysStep(policy, y, e) == StepTunnel(y, i, ev) == Next(y, i, b);
    case _ => ControlKeeps(policy, y, e);
  }
}
