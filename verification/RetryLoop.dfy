/** The retry loop in its own form: flags updated by callbacks, and a loop over attempts. */
module RetryLoop {
  import opened Tunnel
  import opened Retry

  /** What the world answers to one turn of the loop. While a tunnel runs, its callbacks may
      have set the two flags. */
  datatype Turn =
    | Stopped
    | NoSession
    | Threw(replied: bool, consumed: bool)
    | Ran(outcome: Outcome, replied: bool, consumed: bool)

  /** The same turn as steps of the loop's state. */
  function TakeTurn(policy: Policy, c: Control, t: Turn): Control {
    match t
    case Stopped => AfterStop(policy, c)
    case NoSession => NextAttempt(c)
    case Threw(replied, consumed) => AfterThrow(policy, Flagged(c, replied, consumed))
    case Ran(o, replied, consumed) => AfterRun(policy, Flagged(c, replied, consumed), o)
  }

  function Flagged(c: Control, replied: bool, consumed: bool): Control {
    c.(replied := c.replied || replied, consumed := c.consumed || consumed)
  }

  /** Turn after turn until the loop is left. */
  function Turns(policy: Policy, c: Control, ts: seq<Turn>): Control
    decreases |ts|
  {
    if c.pc != Head || ts == [] then c else Turns(policy, TakeTurn(policy, c, ts[0]), ts[1..])
  }

  lemma {:induction false} LoopEnds(policy: Policy, c: Control, ts: seq<Turn>)
    requires c.pc == Head && 1 <= c.k <= MAX_ATTEMPTS && |ts| == MAX_ATTEMPTS - c.k + 1
    ensures var d := Turns(policy, c, ts);
            && (d.pc == Failing || d.pc == Closing)
            && c.k <= d.k <= MAX_ATTEMPTS
            && (c.replied ==> d.replied) && (c.consumed ==> d.consumed)
    decreases |ts|
  {
    var d := TakeTurn(policy, c, ts[0]);
    if d.pc == Head {
      LoopEnds(policy, d, ts[1..]);
    } else {
      assert Turns(policy, d, ts[1..]) == d;
    }
  }

  /** One client's connection: the flags the callbacks close over, and what it was replied. */
  class ProxyLoop {
    const policy: Policy
    var proxyReplied: bool
    var clientDataConsumed: bool
    var replies: seq<Reply>

    constructor (policy: Policy)
      ensures this.policy == policy && !proxyReplied && !clientDataConsumed && replies == []
    {
      this.policy := policy;
      proxyReplied, clientDataConsumed, replies := false, false, [];
    }

    /** A reply is on record exactly when the flag is set, and there is never a second one. */
    predicate Valid()
      reads this
    {
      |replies| == if proxyReplied then 1 else 0
    }

    method SendSuccessOnce()
      requires Valid()
      modifies this`proxyReplied, this`replies
      ensures Valid() && proxyReplied
      ensures replies == if old(proxyReplied) then old(replies) else [Success]
    {
      if proxyReplied {
        return;
      }
      proxyReplied := true;
      replies := replies + [Success];
    }

    method SendFailureOnce()
      requires Valid()
      modifies this`proxyReplied, this`replies
      ensures Valid() && proxyReplied
      ensures replies == if old(proxyReplied) then old(replies) else [Failure]
    {
      if proxyReplied {
        return;
      }
      proxyReplied := true;
      replies := replies + [Failure];
    }

    /** What the callbacks did during one run. */
    method Callbacks(replied: bool, consumed: bool)
      requires Valid()
      modifies this
      ensures Valid() && proxyReplied == (old(proxyReplied) || replied)
      ensures clientDataConsumed == (old(clientDataConsumed) || consumed)
      ensures replies == if replied && !old(proxyReplied) then [Success] else old(replies)
    {
      if replied {
        SendSuccessOnce();
      }
      if consumed {
        clientDataConsumed := true;
      }
    }

    ghost function Ctl(pc: LoopPc, k: nat): Control
      reads this
    {
      Control(pc, k, proxyReplied, clientDataConsumed)
    }

    /** One turn of the loop: what it leaves, and the number of the next attempt. */
    method OneAttempt(attempt: nat, turn: Turn) returns (left: LoopPc, next: nat)
      requires Valid() && 1 <= attempt <= MAX_ATTEMPTS
      requires replies == if proxyReplied then [Success] else []
      modifies this
      ensures Valid() && Ctl(left, next) == TakeTurn(policy, old(Ctl(Head, attempt)), turn)
      ensures replies == if proxyReplied then [Success] else []
    {
      left, next := Failing, attempt;
      match turn {
      case Stopped =>
        if policy == Dispatcher {
          left := Closing;
        }
        return;
      case NoSession =>
      case Threw(replied, consumed) =>
        Callbacks(replied, consumed);
        if policy == Dispatcher || clientDataConsumed || proxyReplied {
          return;
        }
      case Ran(outcome, replied, consumed) =>
        Callbacks(replied, consumed);
        if outcome.success {
          left := Closing;
          return;
        }
        if clientDataConsumed || (policy == Worker && proxyReplied) || outcome.bytesReceived > 0 ||
           outcome.kind == ClientAbort || outcome.kind == RxOverflow {
          return;
        }
      }
      if attempt < MAX_ATTEMPTS {
        left, next := Head, attempt + 1;
      }
    }

    /** The loop over the attempts and what follows it. In the end the client has a reply,
        unless the dispatcher was stopped between attempts or the last tunnel ended well
        without having sent one. */
    method ProcessClient(turns: seq<Turn>) returns (attempt: nat, left: LoopPc)
      requires Valid() && !proxyReplied && !clientDataConsumed && |turns| == MAX_ATTEMPTS
      modifies this
      ensures Valid()
      ensures var d := Turns(policy, START.ctl, turns);
              && left == d.pc && attempt == d.k
              && clientDataConsumed == d.consumed
              && proxyReplied == (d.replied || d.pc == Failing)
              && replies == if d.replied then [Success] else if d.pc == Failing then [Failure] else []
    {
      hide TakeTurn;
      attempt, left := 1, Head;
      ghost var goal, k := Turns(policy, START.ctl, turns), 0;
      LoopEnds(policy, START.ctl, turns);
      while left == Head
        invariant Valid() && k <= |turns|
        invariant left == Head ==> attempt == k + 1 <= MAX_ATTEMPTS
        invariant goal == Turns(policy, Ctl(left, attempt), turns[k..])
        invariant replies == if proxyReplied then [Success] else []
        decreases |turns| - k
      {
        LoopEnds(policy, Ctl(left, attempt), turns[k..]);
        AttemptNumber(policy, Ctl(left, attempt), turns[k]);
        assert turns[k..][0] == turns[k] && turns[k..][1..] == turns[k + 1..];
        left, attempt := OneAttempt(attempt, turns[attempt - 1]);
        k := k + 1;
      }
      assert goal == Ctl(left, attempt);
      if left == Failing {
        SendFailureOnce();
      }
    }
  }

  lemma AttemptNumber(policy: Policy, c: Control, t: Turn)
    requires c.pc == Head && c.k <= MAX_ATTEMPTS
    ensures TakeTurn(policy, c, t).pc == Head ==> TakeTurn(policy, c, t).k == c.k + 1 <= MAX_ATTEMPTS
  {
  }
}
