/** Up to three tunnels against one client socket: the retry loop and the one-shot reply of
    the dispatcher and of the session worker. A tunnel whose run has returned can still have
    a receive task waiting, so earlier attempts go on taking steps. */
module Retry {
  import opened Bytes
  import opened Tunnel

  const MAX_ATTEMPTS: nat := 3

  /** The two loops differ in when they give up. */
  datatype Policy = Dispatcher | Worker

  datatype Reply = Success | Failure

  /** Bytes handed to, or taken from, the client socket by one attempt. */
  datatype Delivery = Delivery(attempt: nat, data: bytes)

  /** Where the loop is: about to make a session, waiting for a tunnel, about to report
      failure, about to close the client, done. */
  datatype LoopPc = Head | Running | Failing | Closing | Finished

  datatype Control = Control(pc: LoopPc, k: nat, replied: bool, consumed: bool)

  /** The client socket as the attempts see it. */
  datatype Client = Client(
    replies: seq<Reply>, inbox: seq<Delivery>, taken: seq<Delivery>, writerClosed: bool, readerCancelled: bool)

  datatype Attempt = Attempt(cfg: Config, s: State)

  datatype Sys = Sys(ctl: Control, client: Client, attempts: seq<Attempt>)

  datatype SysEvent =
    | SessionFails | RunThrows | Stop
    | Begin(cfg: Config)
    | InTunnel(i: nat, e: Event)
    | RunReturns
    | Report | CloseClient
    | Drop

  const START: Sys := Sys(Control(Head, 1, false, false), Client([], [], [], false, false), [])

  function Joined(ds: seq<Delivery>): bytes {
    if ds == [] then [] else Joined(ds[..|ds| - 1]) + ds[|ds| - 1].data
  }

  // The loop.

  /** One more attempt if one is left. */
  function NextAttempt(c: Control): Control {
    if c.k < MAX_ATTEMPTS then c.(pc := Head, k := c.k + 1) else c.(pc := Failing)
  }

  function GivesUp(policy: Policy, c: Control, o: Outcome): bool {
    c.consumed || o.bytesReceived > 0 || o.kind == ClientAbort || o.kind == RxOverflow ||
    (policy == Worker && c.replied)
  }

  function AfterRun(policy: Policy, c: Control, o: Outcome): Control {
    if o.success then c.(pc := Closing)
    else if GivesUp(policy, c, o) then c.(pc := Failing)
    else NextAttempt(c)
  }

  function AfterThrow(policy: Policy, c: Control): Control {
    if policy == Dispatcher || c.consumed || c.replied then c.(pc := Failing) else NextAttempt(c)
  }

  /** The dispatcher leaves by an exception, without a reply; the worker reports failure. */
  function AfterStop(policy: Policy, c: Control): Control {
    c.(pc := if policy == Dispatcher then Closing else Failing)
  }

  // The one-shot reply.

  function SendOnce(y: Sys, reply: Reply): Sys {
    if y.ctl.replied then y
    else y.(ctl := y.ctl.(replied := true), client := y.client.(replies := y.client.replies + [reply]))
  }

  /** What one step of attempt i does to the client and to the flags of the loop. */
  function Effects(y: Sys, i: nat, s: State, r: State): Sys {
    var p := r.log.written[Min(|s.log.written|, |r.log.written|)..];
    var v := r.main.u.clientRead[Min(|s.main.u.clientRead|, |r.main.u.clientRead|)..];
    var c := y.client;
    var y1 := y.(
      ctl := y.ctl.(consumed := y.ctl.consumed || v != []),
      client := c.(
        inbox := if p != [] && !c.writerClosed then c.inbox + [Delivery(i, p)] else c.inbox,
        taken := if v != [] then c.taken + [Delivery(i, v)] else c.taken,
        writerClosed := c.writerClosed || r.life.writeClosed,
        readerCancelled := c.readerCancelled || r.life.cancelled));
    if r.rx.successSent && !s.rx.successSent then SendOnce(y1, Success)
    else if r.life.failureSent && !s.life.failureSent then SendOnce(y1, Failure)
    else y1
  }

  function StepTunnel(y: Sys, i: nat, e: Event): Sys
    requires i < |y.attempts|
  {
    var a := y.attempts[i];
    var r := Step(a.cfg, a.s, e);
    Effects(y, i, a.s, r).(attempts := y.attempts[i := a.(s := r)])
  }

  function CloseBoth(c: Client): Client {
    c.(writerClosed := true, readerCancelled := true)
  }

  function Last(y: Sys): Attempt
    requires y.attempts != []
  {
    y.attempts[|y.attempts| - 1]
  }

  ghost predicate SysEnabled(y: Sys, e: SysEvent) {
    match e
    case SessionFails => y.ctl.pc == Head
    case RunThrows => y.ctl.pc == Head
    case Stop => y.ctl.pc == Head
    case Begin(cfg) => y.ctl.pc == Head && GoodConfig(cfg) && cfg.lastAttempt == (y.ctl.k == MAX_ATTEMPTS)
    case InTunnel(i, e) =>
      i < |y.attempts| && Enabled(y.attempts[i].s, e) && Contract(y.attempts[i].s, e)
    case RunReturns => y.ctl.pc == Running && y.attempts != [] && Last(y).s.main.outcome.Some?
    case Report => y.ctl.pc == Failing
    case CloseClient => y.ctl.pc == Closing
    case Drop => true
  }

  /** `Drop` is the dispatcher's cancellation of one client, which may come at any time. */
  ghost function SysStep(policy: Policy, y: Sys, e: SysEvent): Sys
    requires SysEnabled(y, e)
  {
    match e
    case SessionFails => y.(ctl := NextAttempt(y.ctl))
    case RunThrows => y.(ctl := AfterThrow(policy, y.ctl))
    case Stop => y.(ctl := AfterStop(policy, y.ctl))
    case Begin(cfg) => y.(ctl := y.ctl.(pc := Running), attempts := y.attempts + [Attempt(cfg, Init(cfg, 0, 0))])
    case InTunnel(i, e) => StepTunnel(y, i, e)
    case RunReturns => y.(ctl := AfterRun(policy, y.ctl, Last(y).s.main.outcome.value))
    case Report => SendOnce(y, Failure).(ctl := SendOnce(y, Failure).ctl.(pc := Closing))
    case CloseClient => y.(ctl := y.ctl.(pc := Finished), client := CloseBoth(y.client))
    case Drop => y.(client := CloseBoth(y.client))
  }
}
