/** Many tunnels that share the two global gauges. */
module Gauges {
  import opened Decoder
  import opened Tunnel
  import opened TunnelInv
  import opened TunnelMain
  import opened TunnelRuns

  datatype One = One(cfg: Config, s: State)

  /** All tunnels ever started, and the gauges they share. The copies of the gauges inside
      the single states are brought up to date before each step. */
  datatype World = World(rxGauge: int, upGauge: int, ones: seq<One>)

  const EMPTY_WORLD: World := World(0, 0, [])

  datatype WorldEvent = Start(cfg: Config) | In(i: nat, e: Event)

  function Synced(s: State, rxGauge: int, upGauge: int): State {
    s.(acct := s.acct.(gauge := rxGauge), main := s.main.(upGauge := upGauge))
  }

  predicate WorldEnabled(w: World, e: WorldEvent) {
    match e
    case Start(cfg) => true
    case In(i, ev) => i < |w.ones| && Enabled(w.ones[i].s, ev) && Contract(w.ones[i].s, ev)
  }

  function WorldStep(w: World, e: WorldEvent): World
    requires WorldEnabled(w, e)
  {
    match e
    case Start(cfg) => w.(ones := w.ones + [One(cfg, Init(cfg, w.rxGauge, w.upGauge))])
    case In(i, ev) =>
      var one := w.ones[i];
      var r := Step(one.cfg, Synced(one.s, w.rxGauge, w.upGauge), ev);
      World(r.acct.gauge, r.main.upGauge, w.ones[i := one.(s := r)])
  }

  /** What one tunnel has queued, and what it holds of the upload gauge. */
  function Queued(one: One): int {
    one.s.acct.queuedBytes
  }

  function Uploading(one: One): int {
    PendingUp(one.s.main.pc) + one.s.main.upLeak
  }

  function Sum(ones: seq<One>, f: One -> int): int {
    if ones == [] then 0 else f(ones[0]) + Sum(ones[1..], f)
  }

  lemma {:induction false} SumSnoc(ones: seq<One>, one: One, f: One -> int)
    ensures Sum(ones + [one], f) == Sum(ones, f) + f(one)
  {
    if ones == [] {
      assert [] + [one] == [one];
    } else {
      assert (ones + [one])[1..] == ones[1..] + [one];
      SumSnoc(ones[1..], one, f);
    }
  }

  lemma {:induction false} SumUpdate(ones: seq<One>, i: nat, one: One, f: One -> int)
    requires i < |ones|
    ensures Sum(ones[i := one], f) == Sum(ones, f) - f(ones[i]) + f(one)
  {
    if i == 0 {
      assert ones[0 := one][1..] == ones[1..];
    } else {
      assert ones[i := one][1..] == ones[1..][i - 1 := one];
      SumUpdate(ones[1..], i - 1, one, f);
    }
  }

  /** One summand is at most the sum when none is negative. */
  lemma {:induction false} SumAtLeast(ones: seq<One>, i: nat, f: One -> int)
    requires i < |ones| && forall j :: 0 <= j < |ones| ==> f(ones[j]) >= 0
    ensures 0 <= f(ones[i]) <= Sum(ones, f)
  {
    if i > 0 {
      SumAtLeast(ones[1..], i - 1, f);
    } else {
      SumNonNegative(ones[1..], f);
    }
  }

  lemma {:induction false} SumNonNegative(ones: seq<One>, f: One -> int)
    requires forall j :: 0 <= j < |ones| ==> f(ones[j]) >= 0
    ensures Sum(ones, f) >= 0
  {
    if ones != [] {
      SumNonNegative(ones[1..], f);
    }
  }

  ghost predicate OneOk(one: One) {
    && GoodConfig(one.cfg)
    && Queued(one) >= 0 && Uploading(one) >= 0
    && Inv(one.cfg, Synced(one.s, Queued(one), Uploading(one)), 0)
    && UpOk(one.cfg, Synced(one.s, Queued(one), Uploading(one)).main, 0)
  }

  ghost predicate WorldInv(w: World) {
    && (forall i :: 0 <= i < |w.ones| ==> OneOk(w.ones[i]))
    && w.rxGauge == Sum(w.ones, Queued)
    && w.upGauge == Sum(w.ones, Uploading)
  }

  /** The invariant of one tunnel does not care who else is in the gauges. */
  lemma Rebase(cfg: Config, s: State, others: nat, ups: nat, more: nat, moreUps: nat)
    requires Inv(cfg, s, others) && UpOk(cfg, s.main, ups)
    ensures var t := Synced(s, more + s.acct.queuedBytes, moreUps + PendingUp(s.main.pc) + s.main.upLeak);
            Inv(cfg, t, more) && UpOk(cfg, t.main, moreUps)
  {
    hide Rep, WireOk, Progress;
  }

  lemma PendingUpNonNegative(cfg: Config, m: Main, ups: nat)
    requires UpOk(cfg, m, ups)
    ensures PendingUp(m.pc) >= 0
  {
  }

  /** A step of one tunnel moves the gauges by exactly what that tunnel's share moves. */
  lemma StepMoves(one: One, e: Event, others: nat, ups: nat)
    requires OneOk(one) && Enabled(one.s, e) && Contract(one.s, e)
    ensures var s := Synced(one.s, others + Queued(one), ups + Uploading(one));
            var b := one.(s := Step(one.cfg, s, e));
            && OneOk(b)
            && b.s.acct.gauge == others + Queued(b)
            && b.s.main.upGauge == ups + Uploading(b)
  {
    hide Step, Rep, WireOk, Progress, Core, Waits;
    var s0 := Synced(one.s, Queued(one), Uploading(one));
    Rebase(one.cfg, s0, 0, 0, others, ups);
    var s := Synced(one.s, others + Queued(one), ups + Uploading(one));
    assert s == Synced(s0, others + s0.acct.queuedBytes, ups + PendingUp(s0.main.pc) + s0.main.upLeak);
    SameEnabled(one.s, s, e);
    StepKeeps(one.cfg, s, e, others);
    StepUpKeeps(one.cfg, s, e, others, ups);
    var r := Step(one.cfg, s, e);
    PendingUpNonNegative(one.cfg, r.main, ups);
    GaugeIs(one.cfg, r, others);
    Rebase(one.cfg, r, others, ups, 0, 0);
  }

  lemma GaugeIs(cfg: Config, s: State, others: nat)
    requires Inv(cfg, s, others)
    ensures s.acct.gauge == others + s.acct.queuedBytes && s.acct.queuedBytes >= 0
  {
  }

  lemma SameEnabled(s: State, t: State, e: Event)
    requires t == Synced(s, t.acct.gauge, t.main.upGauge) && Enabled(s, e) && Contract(s, e)
    ensures Enabled(t, e) && Contract(t, e)
  {
  }

  lemma NewOne(cfg: Config, rxGauge: int, upGauge: int)
    requires GoodConfig(cfg)
    ensures var one := One(cfg, Init(cfg, rxGauge, upGauge));
            OneOk(one) && Queued(one) == 0 && Uploading(one) == 0
  {
    hide Inv;
    InitInv(cfg, 0, 0);
    assert Synced(Init(cfg, rxGauge, upGauge), 0, 0) == Init(cfg, 0, 0);
  }

  lemma WorldKeeps(w: World, e: WorldEvent)
    requires WorldInv(w) && WorldEnabled(w, e) && (e.Start? ==> GoodConfig(e.cfg))
    ensures WorldInv(WorldStep(w, e))
  {
    hide OneOk, Step, Enabled, Contract, Queued, Uploading;
    match e
    case Start(cfg) =>
      NewOne(cfg, w.rxGauge, w.upGauge);
      SumSnoc(w.ones, One(cfg, Init(cfg, w.rxGauge, w.upGauge)), Queued);
      SumSnoc(w.ones, One(cfg, Init(cfg, w.rxGauge, w.upGauge)), Uploading);
    case In(i, ev) =>
      var one := w.ones[i];
      Shares(w, i);
      StepMoves(one, ev, w.rxGauge - Queued(one), w.upGauge - Uploading(one));
      var b := one.(s := Step(one.cfg, Synced(one.s, w.rxGauge, w.upGauge), ev));
      SumUpdate(w.ones, i, b, Queued);
      SumUpdate(w.ones, i, b, Uploading);
  }

  lemma Shares(w: World, i: nat)
    requires WorldInv(w) && i < |w.ones|
    ensures 0 <= Queued(w.ones[i]) <= w.rxGauge && 0 <= Uploading(w.ones[i]) <= w.upGauge
  {
    hide Inv, UpOk, GoodConfig, Queued, Uploading;
    assert forall j :: 0 <= j < |w.ones| ==> OneOk(w.ones[j]);
    SumAtLeast(w.ones, i, Queued);
    SumAtLeast(w.ones, i, Uploading);
  }

  // Runs.

  ghost predicate WorldLegal(w: World, es: seq<WorldEvent>)
    decreases |es|
  {
    es == [] ||
    (WorldEnabled(w, es[0]) && (es[0].Start? ==> GoodConfig(es[0].cfg)) && WorldLegal(WorldStep(w, es[0]), es[1..]))
  }

  ghost function WorldRun(w: World, es: seq<WorldEvent>): World
    requires WorldLegal(w, es)
    decreases |es|
  {
    if es == [] then w else WorldRun(WorldStep(w, es[0]), es[1..])
  }

  lemma {:induction false} WorldRunKeeps(w: World, es: seq<WorldEvent>)
    requires WorldInv(w) && WorldLegal(w, es)
    ensures WorldInv(WorldRun(w, es))
    decreases |es|
  {
    hide OneOk, WorldStep, WorldEnabled;
    if es != [] {
      WorldKeeps(w, es[0]);
      WorldRunKeeps(WorldStep(w, es[0]), es[1..]);
    }
  }

  lemma StartOfWorld()
    ensures WorldInv(EMPTY_WORLD)
  {
  }

  /** However many tunnels run and however they interleave, the receive gauge is the sum of
      what the live ones have queued, 16 MiB each at most, and the upload gauge the sum of
      what the client chunks in progress still hold and of what failed seals have left in it.
      So the clamp of the gauges to zero never has an effect: what a tunnel can subtract is
      still in the gauge. */
  lemma GaugesAreSums(es: seq<WorldEvent>, i: nat)
    requires WorldLegal(EMPTY_WORLD, es)
    ensures var z := WorldRun(EMPTY_WORLD, es);
            && z.rxGauge == Sum(z.ones, Queued) && z.upGauge == Sum(z.ones, Uploading)
            && (i < |z.ones| ==>
                  var one := z.ones[i];
                  && Queued(one) == (if one.s.life.terminated then 0 else |Cat(one.s.rx.queue)|) <= z.rxGauge
                  && Queued(one) <= 16 * 1024 * 1024
                  && 0 <= PendingUp(one.s.main.pc) <= Uploading(one) <= z.upGauge)
  {
    hide WorldLegal, WorldRun, OneOk, Queued, Uploading, PendingUp;
    StartOfWorld();
    WorldRunKeeps(EMPTY_WORLD, es);
    var z := WorldRun(EMPTY_WORLD, es);
    if i < |z.ones| {
      Shares(z, i);
      assert OneOk(z.ones[i]);
      QueuedIsQueue(z.ones[i]);
    }
  }

  lemma QueuedIsQueue(one: One)
    requires OneOk(one)
    ensures Queued(one) == if one.s.life.terminated then 0 else |Cat(one.s.rx.queue)|
    ensures Queued(one) <= 16 * 1024 * 1024
    ensures 0 <= PendingUp(one.s.main.pc) <= Uploading(one)
  {
  }
}
