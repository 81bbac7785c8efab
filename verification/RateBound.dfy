/**
  The end-to-end delivery rate of one network: Global publishes that pass the shared bucket and
  Group or Region publishes that pass theirs, in any order, under an accepted configuration.
*/
module RateBound {
  import opened Buckets
  import Capacity
  import FanOut

  /** A publish with the recipients it is counted for. */
  datatype Event =
    | GlobalPublish(request: Request, counted: nat)
    | LocalPublish(local: LocalRequest)

  datatype Net = Net(global: Bucket, local: Local)

  function RatesOf(c: Capacity.Config): Rates {
    Rates(c.maxGlobalPublishesPerSecond,
          Capacity.SatSub(c.maxGlobalPublishesPerSecond, c.globalInteractiveReservedPerSecond),
          c.globalPublishBurst)
  }

  function LocalRate(c: Capacity.Config): nat { c.reservedNonGlobalDeliveriesPerSecond }

  function ReadAt(e: Event): real { if e.GlobalPublish? then e.request.read else e.local.read }

  function WriteAt(e: Event): real { if e.GlobalPublish? then e.request.write else e.local.write }

  function Next(c: Capacity.Config, n: Net, e: Event): Net {
    match e
    case GlobalPublish(q, _) => n.(global := Acquire(RatesOf(c), n.global, q))
    case LocalPublish(q) => n.(local := LocalAcquire(LocalRate(c), n.local, q))
  }

  /** Deliveries counted for an event: its recipients if it is admitted, else none. */
  function Delivered(c: Capacity.Config, n: Net, e: Event): nat {
    match e
    case GlobalPublish(q, counted) => if Granted(RatesOf(c), n.global, q) then counted else 0
    case LocalPublish(q) => if LocalGranted(LocalRate(c), n.local, q) then q.cost else 0
  }

  function Deliveries(c: Capacity.Config, n: Net, es: seq<Event>): nat
    decreases |es|
  {
    if es == [] then 0 else Delivered(c, n, es[0]) + Deliveries(c, Next(c, n, es[0]), es[1..])
  }

  /** All events read the clock between `from` and `to`, in this order, each before it writes. */
  predicate Within(from: real, es: seq<Event>, to: real)
    decreases |es|
  {
    if es == [] then from <= to
    else from <= ReadAt(es[0]) <= WriteAt(es[0]) && Within(ReadAt(es[0]), es[1..], to)
  }

  function GlobalTokens(c: Capacity.Config, n: Net, now: real): real {
    RefillTo(RatesOf(c), n.global, now).total
  }

  function LocalTokens(c: Capacity.Config, n: Net, now: real): real {
    LocalRefill(LocalRate(c), n.local, now).tokens
  }

  /** What the two buckets could still pay for at `now`, in deliveries. */
  function Potential(c: Capacity.Config, n: Net, now: real): real {
    c.maxActiveTenants as real * GlobalTokens(c, n, now) + LocalTokens(c, n, now)
  }

  function Required(c: Capacity.Config): real {
    (c.maxGlobalPublishesPerSecond * c.maxActiveTenants + c.reservedNonGlobalDeliveriesPerSecond) as real
  }

  lemma LevelGrowth(tokens: real, rate: real, cap: real, last: real, t1: real, t2: real)
    requires rate >= 0.0 && t1 <= t2
    ensures Level(tokens, rate, cap, Elapsed(last, t2))
            <= Level(tokens, rate, cap, Elapsed(last, t1)) + (t2 - t1) * rate
  {
    var d1, d2 := Elapsed(last, t1), Elapsed(last, t2);
    assert 0.0 <= d2 - d1 <= t2 - t1;
    Scale(d2 - d1, t2 - t1, rate);
    assert d2 * rate == d1 * rate + (d2 - d1) * rate;
    NotNegative(t2 - t1, rate);
  }

  lemma Scale(a: real, b: real, k: real)
    requires a <= b && k >= 0.0
    ensures a * k <= b * k
  {
    NotNegative(b - a, k);
    assert (b - a) * k == b * k - a * k;
  }

  lemma GlobalGrowth(c: Capacity.Config, n: Net, t1: real, t2: real)
    requires t1 <= t2
    ensures GlobalTokens(c, n, t2) <= GlobalTokens(c, n, t1) + (t2 - t1) * c.maxGlobalPublishesPerSecond as real
  {
    var r := RatesOf(c);
    LevelGrowth(n.global.total, r.total as real, r.burst as real, n.global.last, t1, t2);
  }

  lemma LocalGrowth(c: Capacity.Config, n: Net, t1: real, t2: real)
    requires t1 <= t2
    ensures LocalTokens(c, n, t2) <= LocalTokens(c, n, t1) + (t2 - t1) * LocalRate(c) as real
  {
    LevelGrowth(n.local.tokens, LocalRate(c) as real, LocalRate(c) as real, n.local.last, t1, t2);
  }

  lemma Combine(m: real, g1: real, g2: real, l1: real, l2: real, d: real, r: real, res: real)
    requires m >= 0.0 && g2 <= g1 + d * r && l2 <= l1 + d * res
    ensures m * g2 + l2 <= m * g1 + l1 + d * (r * m) + d * res
  {
    Scale(g2, g1 + d * r, m);
    Distribute(g1, d, r, m);
  }

  lemma Distribute(g: real, d: real, r: real, m: real)
    ensures (g + d * r) * m == m * g + d * (r * m)
  {
  }

  /** In `t2 - t1` seconds the potential grows by at most the required delivery rate. */
  lemma PotentialGrowth(c: Capacity.Config, n: Net, t1: real, t2: real)
    requires t1 <= t2
    ensures Potential(c, n, t2) <= Potential(c, n, t1) + (t2 - t1) * Required(c)
  {
    hide GlobalTokens, LocalTokens, Required;
    GlobalGrowth(c, n, t1, t2);
    LocalGrowth(c, n, t1, t2);
    RequiredSplit(c, t2 - t1);
    Combine(c.maxActiveTenants as real, GlobalTokens(c, n, t1), GlobalTokens(c, n, t2), LocalTokens(c, n, t1),
            LocalTokens(c, n, t2), t2 - t1, c.maxGlobalPublishesPerSecond as real, LocalRate(c) as real);
  }

  lemma RequiredSplit(c: Capacity.Config, d: real)
    ensures d * Required(c)
            == d * (c.maxGlobalPublishesPerSecond as real * c.maxActiveTenants as real) + d * LocalRate(c) as real
  {
    assert Required(c)
           == (c.maxGlobalPublishesPerSecond * c.maxActiveTenants) as real
              + c.reservedNonGlobalDeliveriesPerSecond as real;
    assert (c.maxGlobalPublishesPerSecond * c.maxActiveTenants) as real
           == c.maxGlobalPublishesPerSecond as real * c.maxActiveTenants as real;
  }

  /** An event pays for its deliveries out of the potential at its reading. */
  lemma EventIsPaid(c: Capacity.Config, n: Net, e: Event)
    requires ReadAt(e) <= WriteAt(e)
    requires e.GlobalPublish? ==> e.counted <= c.maxActiveTenants
    ensures Potential(c, Next(c, n, e), ReadAt(e)) + Delivered(c, n, e) as real <= Potential(c, n, ReadAt(e))
  {
    hide GlobalTokens, LocalTokens, Delivered;
    if e.GlobalPublish? {
      GlobalShareIsPaid(c, n, e);
    } else {
      LocalShareIsPaid(c, n, e);
    }
  }

  lemma GlobalShareIsPaid(c: Capacity.Config, n: Net, e: Event)
    requires e.GlobalPublish? && ReadAt(e) <= WriteAt(e) && e.counted <= c.maxActiveTenants
    ensures var m := c.maxActiveTenants as real;
            m * GlobalTokens(c, Next(c, n, e), ReadAt(e)) + Delivered(c, n, e) as real
            <= m * GlobalTokens(c, n, ReadAt(e))
    ensures LocalTokens(c, Next(c, n, e), ReadAt(e)) == LocalTokens(c, n, ReadAt(e))
  {
    GlobalEventIsPaid(RatesOf(c), n.global, e.request);
    hide RefillTo, Acquire, Granted;
    PayWhole(c.maxActiveTenants as real, GlobalTokens(c, n, ReadAt(e)), GlobalTokens(c, Next(c, n, e), ReadAt(e)),
             Granted(RatesOf(c), n.global, e.request));
  }

  lemma LocalShareIsPaid(c: Capacity.Config, n: Net, e: Event)
    requires e.LocalPublish? && ReadAt(e) <= WriteAt(e)
    ensures LocalTokens(c, Next(c, n, e), ReadAt(e)) + Delivered(c, n, e) as real <= LocalTokens(c, n, ReadAt(e))
    ensures GlobalTokens(c, Next(c, n, e), ReadAt(e)) == GlobalTokens(c, n, ReadAt(e))
  {
    LocalEventIsPaid(LocalRate(c), n.local, e.local);
  }

  lemma PayWhole(m: real, before: real, after: real, paid: bool)
    requires m >= 0.0 && after <= before - (if paid then 1.0 else 0.0)
    ensures m * after + (if paid then m else 0.0) <= m * before
  {
    var p := if paid then 1.0 else 0.0;
    Scale(after, before - p, m);
    assert (before - p) * m == before * m - p * m;
  }

  lemma GlobalEventIsPaid(r: Rates, b: Bucket, q: Request)
    requires q.read <= q.write
    ensures RefillTo(r, Acquire(r, b, q), q.read).total
            <= RefillTo(r, b, q.read).total - (if Granted(r, b, q) then 1.0 else 0.0)
  {
    assert 0.0 * r.total as real == 0.0;
  }

  lemma LocalEventIsPaid(rate: nat, b: Local, q: LocalRequest)
    requires q.read <= q.write
    ensures LocalRefill(rate, LocalAcquire(rate, b, q), q.read).tokens
            <= LocalRefill(rate, b, q.read).tokens - (if LocalGranted(rate, b, q) then q.cost as real else 0.0)
  {
    assert 0.0 * rate as real == 0.0;
  }

  /** No bucket is in debt. */
  predicate Solvent(n: Net) { n.global.total >= 0.0 && n.local.tokens >= 0.0 }

  lemma EventKeepsSolvent(c: Capacity.Config, n: Net, e: Event)
    requires Solvent(n)
    ensures Solvent(Next(c, n, e))
  {
    if e.GlobalPublish? {
      NotNegative(Elapsed(n.global.last, e.request.read), RatesOf(c).total as real);
    } else {
      NotNegative(Elapsed(n.local.last, e.local.read), LocalRate(c) as real);
    }
  }

  lemma PotentialNotNegative(c: Capacity.Config, n: Net, now: real)
    requires Solvent(n)
    ensures Potential(c, n, now) >= 0.0
  {
    NotNegative(Elapsed(n.global.last, now), RatesOf(c).total as real);
    NotNegative(Elapsed(n.local.last, now), LocalRate(c) as real);
    NotNegative(c.maxActiveTenants as real, GlobalTokens(c, n, now));
  }

  lemma {:induction false} DeliveriesArePaid(c: Capacity.Config, n: Net, from: real, es: seq<Event>, to: real)
    requires Solvent(n) && Within(from, es, to)
    requires forall e | e in es && e.GlobalPublish? :: e.counted <= c.maxActiveTenants
    ensures from <= to && Deliveries(c, n, es) as real <= Potential(c, n, from) + (to - from) * Required(c)
    decreases |es|
  {
    hide Potential, Delivered, Next, Required, Solvent;
    assert Required(c) >= 0.0 by { RequiredNotNegative(c); }
    if es == [] {
      assert Deliveries(c, n, es) == 0;
      PotentialNotNegative(c, n, from);
      NotNegative(to - from, Required(c));
      assert Potential(c, n, from) >= 0.0;
      assert (to - from) * Required(c) >= 0.0;
      assert Deliveries(c, n, es) as real == 0.0;
    } else {
      var e, now := es[0], ReadAt(es[0]);
      EventKeepsSolvent(c, n, e);
      DeliveriesArePaid(c, Next(c, n, e), now, es[1..], to);
      EventIsPaid(c, n, e);
      PotentialGrowth(c, n, from, now);
      assert (to - from) * Required(c) == (to - now) * Required(c) + (now - from) * Required(c);
    }
  }

  lemma RequiredNotNegative(c: Capacity.Config)
    ensures Required(c) >= 0.0
  {
  }

  /** Whatever happened before, at no time do the buckets hold more than their capacities. */
  lemma PotentialIsCapped(c: Capacity.Config, n: Net, now: real)
    ensures Potential(c, n, now)
            <= (c.globalPublishBurst * c.maxActiveTenants + c.reservedNonGlobalDeliveriesPerSecond) as real
  {
    var m, b := c.maxActiveTenants as real, c.globalPublishBurst as real;
    Scale(GlobalTokens(c, n, now), b, m);
    assert (c.globalPublishBurst * c.maxActiveTenants) as real == b * m;
  }

  /**
    In any window of length `to - from`, from any state of the buckets, the deliveries counted for
    admitted publishes stay within the burst plus the safe delivery rate of the configuration.
  */
  lemma WindowIsBounded(c: Capacity.Config, n: Net, from: real, es: seq<Event>, to: real)
    requires Capacity.Accepts(c) && Solvent(n) && Within(from, es, to)
    requires forall e | e in es && e.GlobalPublish? :: e.counted <= c.maxActiveTenants
    ensures from <= to
    ensures Deliveries(c, n, es) as real
            <= (c.globalPublishBurst * c.maxActiveTenants + c.reservedNonGlobalDeliveriesPerSecond) as real
               + (to - from) * (c.maxFanoutDeliveriesPerSecond * c.fanoutUtilizationPercent / 100) as real
  {
    hide Deliveries, Potential, Capacity.Accepts;
    DeliveriesArePaid(c, n, from, es, to);
    PotentialIsCapped(c, n, from);
    Capacity.AcceptedMeetsInequalities(c);
    var safe := (c.maxFanoutDeliveriesPerSecond * c.fanoutUtilizationPercent / 100) as real;
    Scale(Required(c), safe, to - from);
  }

  /**
    The recipients counted for a Global publish are members of some reachable state of the Global
    scope (without those whose grant expired), or the members of the mutation it carries.
  */
  ghost predicate CountedFrom(sc: FanOut.Scope, v: FanOut.Version, counted: nat) {
    exists acts, s ::
      && FanOut.Run(sc, FanOut.Seeded(sc, v), acts, s)
      && (counted <= |FanOut.Active(s.tables)| || (s.fence.Exclusive? && counted <= |s.fence.writer.desired|))
  }

  /** The bound over whole runs: the tenant limit that the membership mutations keep supplies the recipients. */
  lemma NetworkIsBounded(c: Capacity.Config, sc: FanOut.Scope, v: FanOut.Version, n: Net, from: real, es: seq<Event>,
      to: real)
    requires Capacity.Accepts(c) && Solvent(n) && Within(from, es, to)
    requires sc.global && 1 <= sc.maxTenants == c.maxActiveTenants
    requires forall e | e in es && e.GlobalPublish? :: CountedFrom(sc, v, e.counted)
    ensures from <= to
    ensures Deliveries(c, n, es) as real
            <= (c.globalPublishBurst * c.maxActiveTenants + c.reservedNonGlobalDeliveriesPerSecond) as real
               + (to - from) * (c.maxFanoutDeliveriesPerSecond * c.fanoutUtilizationPercent / 100) as real
  {
    hide Deliveries, Capacity.Accepts, FanOut.Run;
    forall e | e in es && e.GlobalPublish?
      ensures e.counted <= c.maxActiveTenants
    {
      var acts, s :| FanOut.Run(sc, FanOut.Seeded(sc, v), acts, s)
        && (e.counted <= |FanOut.Active(s.tables)| || (s.fence.Exclusive? && e.counted <= |s.fence.writer.desired|));
      FanOut.TenantLimitHolds(sc, v, acts, s);
    }
    WindowIsBounded(c, n, from, es, to);
  }
}
