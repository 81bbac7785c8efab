/**
  The token buckets of the message gateway.  Tokens and times are reals; a request reads the
  clock, decides, and writes the row back with a second, possibly later, clock reading.  The time
  between the two readings is never credited.
*/
module Buckets {
  import opened Basics

  datatype Rates = Rates(total: nat, bulk: nat, burst: nat)

  datatype Bucket = Bucket(total: real, bulk: real, last: real)

  datatype Request = Request(cls: Class, read: real, write: real)

  function Min(a: real, b: real): real { if a <= b then a else b }

  function BulkCapacity(burst: nat): real {
    if burst <= 2 then 1.0 else (burst - 1) as real
  }

  /** What a fresh row holds. */
  function Full(r: Rates, now: real): Bucket {
    Bucket(r.burst as real, BulkCapacity(r.burst), now)
  }

  function Elapsed(from: real, to: real): real { if to < from then 0.0 else to - from }

  /** Tokens after `dt` seconds of refill. */
  function Level(tokens: real, rate: real, cap: real, dt: real): real {
    Min(tokens + dt * rate, cap)
  }

  /** The row as it would be if it were refilled and stored at time `now`. */
  function RefillTo(r: Rates, b: Bucket, now: real): Bucket {
    var dt := Elapsed(b.last, now);
    Bucket(Level(b.total, r.total as real, r.burst as real, dt),
           Level(b.bulk, r.bulk as real, BulkCapacity(r.burst), dt), now)
  }

  predicate Allows(b: Bucket, cls: Class) {
    b.total >= 1.0 && (cls == Interactive || b.bulk >= 1.0)
  }

  predicate Granted(r: Rates, b: Bucket, q: Request) {
    Allows(RefillTo(r, b, q.read), q.cls)
  }

  function Acquire(r: Rates, b: Bucket, q: Request): Bucket {
    var full := RefillTo(r, b, q.read);
    if !Allows(full, q.cls) then full.(last := q.write)
    else Bucket(full.total - 1.0, if q.cls == Bulk then full.bulk - 1.0 else full.bulk, q.write)
  }

  function RunAll(r: Rates, b: Bucket, qs: seq<Request>): Bucket
    decreases |qs|
  {
    if qs == [] then b else RunAll(r, Acquire(r, b, qs[0]), qs[1..])
  }

  /** The shared row: created full by the first request, updated in place by every one. */
  class GlobalBucketRow {
    var row: Option<Bucket>

    constructor ()
      ensures row.None?
    {
      row := None;
    }

    method AcquireGlobalToken(r: Rates, cls: Class, created: real, read: real, write: real) returns (allowed: bool)
      modifies this
      ensures var b := if old(row).Some? then old(row).value else Full(r, created);
              row == Some(Acquire(r, b, Request(cls, read, write)))
              && allowed == Granted(r, b, Request(cls, read, write))
    {
      if row.None? {
        row := Some(Full(r, created));
      }
      var b := row.value;
      var elapsed := Elapsed(b.last, read);
      var total := Level(b.total, r.total as real, r.burst as real, elapsed);
      var bulk := Level(b.bulk, r.bulk as real, BulkCapacity(r.burst), elapsed);
      allowed := total >= 1.0 && (cls == Interactive || bulk >= 1.0);
      row := Some(Bucket(if allowed then total - 1.0 else total,
                         if allowed && cls == Bulk then bulk - 1.0 else bulk,
                         write));
    }
  }

  // ----- The Interactive reserve -----

  /** Credited seconds are those between the row's last write and the request's reading. */
  function Credit(b: Bucket, q: Request): real { Elapsed(b.last, q.read) }

  /**
    Interactive requests come at least 1 / (total rate - bulk rate) credited seconds apart;
    `since` is the credit since the latest one.
  */
  predicate Spaced(r: Rates, b: Bucket, qs: seq<Request>, since: Option<real>)
    decreases |qs|
  {
    qs != [] ==>
      var now := if since.None? then None else Some(since.value + Credit(b, qs[0]));
      && (qs[0].cls == Interactive && now.Some? ==> now.value * (r.total - r.bulk) as real >= 1.0)
      && Spaced(r, Acquire(r, b, qs[0]), qs[1..], if qs[0].cls == Interactive then Some(0.0) else now)
  }

  predicate AllInteractiveGranted(r: Rates, b: Bucket, qs: seq<Request>)
    decreases |qs|
  {
    qs != [] ==>
      (qs[0].cls == Interactive ==> Granted(r, b, qs[0])) && AllInteractiveGranted(r, Acquire(r, b, qs[0]), qs[1..])
  }

  /** How far the total level is ahead of the bulk level. */
  function Lead(r: Rates, since: Option<real>): real {
    if since.None? then 1.0 else Min(1.0, since.value * (r.total - r.bulk) as real)
  }

  predicate Ahead(r: Rates, b: Bucket, since: Option<real>) {
    && 0.0 <= b.bulk <= BulkCapacity(r.burst)
    && b.total >= b.bulk + Lead(r, since)
    && (since.Some? ==> since.value >= 0.0)
  }

  lemma RefillKeepsAhead(r: Rates, b: Bucket, since: Option<real>, now: real)
    requires r.burst >= 2 && r.bulk < r.total && Ahead(r, b, since)
    ensures
      var dt := Elapsed(b.last, now);
      Ahead(r, RefillTo(r, b, now), if since.None? then None else Some(since.value + dt))
  {
    var dt, d := Elapsed(b.last, now), (r.total - r.bulk) as real;
    assert dt * r.total as real == dt * r.bulk as real + dt * d;
    NotNegative(dt, r.bulk as real);
    NotNegative(dt, d);
    if since.Some? {
      assert (since.value + dt) * d == since.value * d + dt * d;
    }
  }

  /** A spaced Interactive request is granted, and every request leaves the total level ahead. */
  lemma RequestKeepsAhead(r: Rates, b: Bucket, q: Request, since: Option<real>)
    requires r.burst >= 2 && r.bulk < r.total && Ahead(r, b, since)
    ensures
      var now := if since.None? then None else Some(since.value + Credit(b, q));
      if q.cls == Interactive
      then Lead(r, now) >= 1.0 ==> Granted(r, b, q) && Ahead(r, Acquire(r, b, q), Some(0.0))
      else Ahead(r, Acquire(r, b, q), now)
  {
    RefillKeepsAhead(r, b, since, q.read);
    hide RefillTo, BulkCapacity;
    assert 0.0 * (r.total - r.bulk) as real == 0.0;
  }

  lemma {:induction false} ReserveKept(r: Rates, b: Bucket, qs: seq<Request>, since: Option<real>)
    requires r.burst >= 2 && r.bulk < r.total && Ahead(r, b, since) && Spaced(r, b, qs, since)
    ensures AllInteractiveGranted(r, b, qs)
    decreases |qs|
  {
    hide Ahead, Granted, Acquire;
    if qs != [] {
      var q := qs[0];
      var now := if since.None? then None else Some(since.value + Credit(b, q));
      RequestKeepsAhead(r, b, q, since);
      ReserveKept(r, Acquire(r, b, q), qs[1..], if q.cls == Interactive then Some(0.0) else now);
    }
  }

  /**
    The reserve works exactly when the burst is at least two: then, from a full bucket, spaced
    Interactive requests are all granted whatever Bulk traffic comes in between; with a smaller
    burst one Bulk request is enough to have the next Interactive one denied.
  */
  lemma InteractiveReserveIff(r: Rates, start: real)
    requires r.bulk < r.total
    ensures (forall qs :: Spaced(r, Full(r, start), qs, None) ==> AllInteractiveGranted(r, Full(r, start), qs)) <==>
            r.burst >= 2
  {
    var b := Full(r, start);
    if r.burst >= 2 {
      forall qs | Spaced(r, b, qs, None)
        ensures AllInteractiveGranted(r, b, qs)
      {
        ReserveKept(r, b, qs, None);
      }
    } else {
      var bulk, inter := Request(Bulk, start, start), Request(Interactive, start, start);
      var qs := [bulk, inter];
      var b1 := Acquire(r, b, bulk);
      assert b1.total < 1.0;
      assert qs[1..] == [inter];
      assert Spaced(r, b1, [inter], None) by { assert [inter][1..] == []; }
      assert Spaced(r, b, qs, None);
      assert !Granted(r, b1, inter);
      assert !AllInteractiveGranted(r, b1, qs[1..]);
      assert !AllInteractiveGranted(r, b, qs);
    }
  }

  // ----- Denied requests -----

  lemma RefillTwice(tokens: real, rate: real, cap: real, d1: real, d2: real)
    requires rate >= 0.0 && d1 >= 0.0 && d2 >= 0.0
    ensures Level(Level(tokens, rate, cap, d1), rate, cap, d2) == Level(tokens, rate, cap, d1 + d2)
  {
    assert (d1 + d2) * rate == d1 * rate + d2 * rate;
    NotNegative(d2, rate);
  }

  lemma NotNegative(a: real, b: real)
    requires a >= 0.0 && b >= 0.0
    ensures a * b >= 0.0
  {
  }

  lemma RefillToTwice(r: Rates, b: Bucket, t1: real, t2: real)
    requires b.last <= t1 <= t2
    ensures RefillTo(r, RefillTo(r, b, t1), t2) == RefillTo(r, b, t2)
  {
    RefillTwice(b.total, r.total as real, r.burst as real, t1 - b.last, t2 - t1);
    RefillTwice(b.bulk, r.bulk as real, BulkCapacity(r.burst), t1 - b.last, t2 - t1);
  }

  /** Requests come in order of time, and no denied one loses time between its reading and its write. */
  predicate LosslessDenials(r: Rates, b: Bucket, qs: seq<Request>)
    decreases |qs|
  {
    qs != [] ==>
      && b.last <= qs[0].read <= qs[0].write
      && (!Granted(r, b, qs[0]) ==> qs[0].read == qs[0].write)
      && LosslessDenials(r, Acquire(r, b, qs[0]), qs[1..])
  }

  /** The requests that are granted. */
  function GrantedOnly(r: Rates, b: Bucket, qs: seq<Request>): seq<Request>
    decreases |qs|
  {
    if qs == [] then []
    else (if Granted(r, b, qs[0]) then [qs[0]] else []) + GrantedOnly(r, Acquire(r, b, qs[0]), qs[1..])
  }

  predicate AllGranted(r: Rates, b: Bucket, qs: seq<Request>)
    decreases |qs|
  {
    qs != [] ==> Granted(r, b, qs[0]) && AllGranted(r, Acquire(r, b, qs[0]), qs[1..])
  }

  /**
    Denied requests are free: a run without them grants the same requests and ends in the same
    row once that row is refilled to the same time.  `a` is the row of the whole run, `b` the row of
    the run without the denied requests so far.
  */
  lemma {:induction false} DeniedAreFreeFrom(r: Rates, a: Bucket, b: Bucket, qs: seq<Request>)
    requires LosslessDenials(r, a, qs) && b.last <= a.last && RefillTo(r, b, a.last) == a
    ensures
      var kept := GrantedOnly(r, a, qs);
      && AllGranted(r, b, kept)
      && RunAll(r, b, kept).last <= RunAll(r, a, qs).last
      && RefillTo(r, RunAll(r, b, kept), RunAll(r, a, qs).last) == RunAll(r, a, qs)
    decreases |qs|
  {
    hide RefillTo;
    if qs != [] {
      var q := qs[0];
      RefillToTwice(r, b, a.last, q.read);
      RefillLast(r, a, q.read);
      if Granted(r, a, q) {
        var next := Acquire(r, a, q);
        assert Acquire(r, b, q) == next;
        RefillNow(r, a, q);
        DeniedAreFreeFrom(r, next, next, qs[1..]);
        var rest := GrantedOnly(r, next, qs[1..]);
        assert GrantedOnly(r, a, qs) == [q] + rest && ([q] + rest)[1..] == rest;
      } else {
        var next := Acquire(r, a, q);
        assert next == RefillTo(r, a, q.read) && next.last == q.read;
        DeniedAreFreeFrom(r, next, b, qs[1..]);
        assert GrantedOnly(r, a, qs) == GrantedOnly(r, next, qs[1..]);
      }
    }
  }

  lemma RefillLast(r: Rates, b: Bucket, now: real)
    ensures RefillTo(r, b, now).last == now
  {
  }

  /** Tokens never exceed their capacity after a request, so refilling to the same instant changes nothing. */
  lemma RefillNow(r: Rates, a: Bucket, q: Request)
    ensures RefillTo(r, Acquire(r, a, q), q.write) == Acquire(r, a, q)
  {
  }

  lemma DeniedRequestsAreFree(r: Rates, start: real, qs: seq<Request>)
    requires LosslessDenials(r, Full(r, start), qs)
    ensures
      var b := Full(r, start);
      var kept := GrantedOnly(r, b, qs);
      && AllGranted(r, b, kept)
      && RefillTo(r, RunAll(r, b, kept), RunAll(r, b, qs).last) == RunAll(r, b, qs)
  {
    var b := Full(r, start);
    assert RefillTo(r, b, start) == b;
    DeniedAreFreeFrom(r, b, b, qs);
  }

  /** A level loses nothing to a denied request when no time was lost, or when it is full again. */
  predicate Recovers(level: real, rate: real, cap: real, q: Request, now: real) {
    (q.write - q.read) * rate == 0.0 || level + (now - q.write) * rate >= cap
  }

  lemma LevelRecoversIff(tokens: real, rate: real, cap: real, last: real, q: Request, now: real)
    requires rate >= 0.0 && last <= q.read <= q.write <= now
    ensures
      var level := Level(tokens, rate, cap, q.read - last);
      Level(level, rate, cap, now - q.write) == Level(tokens, rate, cap, now - last) <==>
          Recovers(level, rate, cap, q, now)
  {
    var lost := (q.write - q.read) * rate;
    NotNegative(q.write - q.read, rate);
    NotNegative(now - q.write, rate);
    assert (now - last) * rate == (q.read - last) * rate + lost + (now - q.write) * rate;
  }

  /** Leaving out a denied request gives the same row later exactly when both levels recover what it lost. */
  lemma DeniedIsFreeIff(r: Rates, b: Bucket, q: Request, now: real)
    requires b.last <= q.read <= q.write <= now && !Granted(r, b, q)
    ensures
      var full := RefillTo(r, b, q.read);
      RefillTo(r, Acquire(r, b, q), now) == RefillTo(r, b, now) <==>
        && Recovers(full.total, r.total as real, r.burst as real, q, now)
        && Recovers(full.bulk, r.bulk as real, BulkCapacity(r.burst), q, now)
  {
    LevelRecoversIff(b.total, r.total as real, r.burst as real, b.last, q, now);
    LevelRecoversIff(b.bulk, r.bulk as real, BulkCapacity(r.burst), b.last, q, now);
  }

  /** A denied request costs the next request its grant exactly when a level it needs has not come back to one token. */
  lemma DeniedCostsGrantIff(r: Rates, b: Bucket, q: Request, x: Request)
    requires b.last <= q.read <= q.write <= x.read && !Granted(r, b, q) && Granted(r, b, x)
    ensures
      var full := RefillTo(r, b, q.read);
      !Granted(r, Acquire(r, b, q), x) <==>
        || full.total + (x.read - q.write) * r.total as real < 1.0
        || (x.cls == Bulk && full.bulk + (x.read - q.write) * r.bulk as real < 1.0)
  {
    var full, dt := RefillTo(r, b, q.read), x.read - q.write;
    OneTokenIff(b.total, r.total as real, r.burst as real, x.read - b.last);
    OneTokenIff(full.total, r.total as real, r.burst as real, dt);
    OneTokenIff(full.bulk, r.bulk as real, BulkCapacity(r.burst), dt);
    hide Level;
    assert BulkCapacity(r.burst) >= 1.0;
    hide BulkCapacity;
    RefillFrom(r, full, q.write, x.read);
  }

  lemma RefillFrom(r: Rates, b: Bucket, last: real, now: real)
    requires last <= now
    ensures var c := RefillTo(r, b.(last := last), now);
            && c.total == Level(b.total, r.total as real, r.burst as real, now - last)
            && c.bulk == Level(b.bulk, r.bulk as real, BulkCapacity(r.burst), now - last)
  {
  }

  lemma OneTokenIff(level: real, rate: real, cap: real, dt: real)
    ensures Level(level, rate, cap, dt) >= 1.0 <==> cap >= 1.0 && level + dt * rate >= 1.0
  {
  }

  /** One token per second: a denied request that takes a second to write its row has the next one denied. */
  lemma LostSecondCostsAGrant()
    ensures
      var r, b := Rates(1, 0, 1), Full(Rates(1, 0, 1), 0.0);
      var taken, denied := Request(Interactive, 0.0, 0.0), Request(Interactive, 0.0, 1.0);
      var next := Request(Interactive, 1.0, 1.0);
      && !Granted(r, RunAll(r, b, [taken]), denied)
      && Granted(r, RunAll(r, b, [taken]), next)
      && !Granted(r, RunAll(r, b, [taken, denied]), next)
  {
    var r, b := Rates(1, 0, 1), Full(Rates(1, 0, 1), 0.0);
    var taken, denied := Request(Interactive, 0.0, 0.0), Request(Interactive, 0.0, 1.0);
    assert [taken, denied][1..] == [denied] && [denied][1..] == [] && [taken][1..] == [];
    var a := Acquire(r, b, taken);
    assert a == Bucket(0.0, 1.0, 0.0);
    assert RunAll(r, b, [taken]) == a;
    assert RefillTo(r, a, 0.0) == a;
    assert Acquire(r, a, denied) == Bucket(0.0, 1.0, 1.0);
    assert RunAll(r, a, [denied]) == Acquire(r, a, denied);
    assert RunAll(r, b, [taken, denied]) == Acquire(r, a, denied);
  }

  // ----- The bucket of Group and Region deliveries -----

  datatype Local = Local(tokens: real, last: real)

  datatype LocalRequest = LocalRequest(cost: nat, read: real, write: real)

  /** A free request and one that can never fit leave the row alone. */
  predicate Touches(rate: nat, q: LocalRequest) { 1 <= q.cost <= rate }

  function LocalRefill(rate: nat, b: Local, now: real): Local {
    Local(Level(b.tokens, rate as real, rate as real, Elapsed(b.last, now)), now)
  }

  predicate LocalGranted(rate: nat, b: Local, q: LocalRequest) {
    q.cost == 0 || (q.cost <= rate && LocalRefill(rate, b, q.read).tokens >= q.cost as real)
  }

  function LocalAcquire(rate: nat, b: Local, q: LocalRequest): Local {
    var full := LocalRefill(rate, b, q.read);
    if !Touches(rate, q) then b
    else if LocalGranted(rate, b, q) then Local(full.tokens - q.cost as real, q.write)
    else full.(last := q.write)
  }

  class LocalBucketRow {
    var row: Option<Local>

    constructor ()
      ensures row.None?
    {
      row := None;
    }

    method AcquireDeliveryTokens(rate: nat, cost: nat, created: real, read: real, write: real) returns (allowed: bool)
      modifies this
      ensures var b := if old(row).Some? then old(row).value else Local(rate as real, created);
              && allowed == LocalGranted(rate, b, LocalRequest(cost, read, write))
              && (Touches(rate, LocalRequest(cost, read, write)) ==>
                    row == Some(LocalAcquire(rate, b, LocalRequest(cost, read, write))))
              && (!Touches(rate, LocalRequest(cost, read, write)) ==> row == old(row))
    {
      if cost == 0 {
        return true;
      }
      if rate == 0 || cost > rate {
        return false;
      }
      if row.None? {
        row := Some(Local(rate as real, created));
      }
      var b := row.value;
      var available := Level(b.tokens, rate as real, rate as real, Elapsed(b.last, read));
      allowed := available >= cost as real;
      row := Some(Local(if allowed then available - cost as real else available, write));
    }
  }

  /** Requests come in order of time from `now` on, and no denied one loses time. */
  predicate LocalLosslessDenials(rate: nat, b: Local, now: real, qs: seq<LocalRequest>)
    decreases |qs|
  {
    qs != [] ==>
      && now <= qs[0].read <= qs[0].write
      && (!LocalGranted(rate, b, qs[0]) ==> qs[0].read == qs[0].write)
      && LocalLosslessDenials(rate, LocalAcquire(rate, b, qs[0]), qs[0].write, qs[1..])
  }

  function LocalRun(rate: nat, b: Local, qs: seq<LocalRequest>): Local
    decreases |qs|
  {
    if qs == [] then b else LocalRun(rate, LocalAcquire(rate, b, qs[0]), qs[1..])
  }

  function LocalGrantedOnly(rate: nat, b: Local, qs: seq<LocalRequest>): seq<LocalRequest>
    decreases |qs|
  {
    if qs == [] then []
    else
      var rest := LocalGrantedOnly(rate, LocalAcquire(rate, b, qs[0]), qs[1..]);
      (if LocalGranted(rate, b, qs[0]) then [qs[0]] else []) + rest
  }

  predicate LocalAllGranted(rate: nat, b: Local, qs: seq<LocalRequest>)
    decreases |qs|
  {
    qs != [] ==> LocalGranted(rate, b, qs[0]) && LocalAllGranted(rate, LocalAcquire(rate, b, qs[0]), qs[1..])
  }

  /** Two rows are the same once both are refilled to a time that neither is ahead of. */
  predicate SameAt(rate: nat, a: Local, b: Local, now: real) {
    a.last <= now && b.last <= now && LocalRefill(rate, a, now) == LocalRefill(rate, b, now)
  }

  lemma SameLater(rate: nat, a: Local, b: Local, t1: real, t2: real)
    requires SameAt(rate, a, b, t1) && t1 <= t2
    ensures SameAt(rate, a, b, t2)
  {
    RefillTwice(a.tokens, rate as real, rate as real, t1 - a.last, t2 - t1);
    RefillTwice(b.tokens, rate as real, rate as real, t1 - b.last, t2 - t1);
  }

  /** A denied request leaves the row as good as it was. */
  lemma LocalDeniedIsSame(rate: nat, a: Local, b: Local, q: LocalRequest)
    requires SameAt(rate, a, b, q.read) && q.read == q.write && !LocalGranted(rate, a, q)
    ensures SameAt(rate, LocalAcquire(rate, a, q), b, q.write)
  {
  }

  lemma LocalGrantedIsSame(rate: nat, a: Local, b: Local, q: LocalRequest)
    requires SameAt(rate, a, b, q.read) && q.read <= q.write && LocalGranted(rate, a, q)
    ensures LocalGranted(rate, b, q)
    ensures SameAt(rate, LocalAcquire(rate, a, q), LocalAcquire(rate, b, q), q.write)
  {
    if q.cost == 0 {
      SameLater(rate, a, b, q.read, q.write);
    }
  }

  lemma {:induction false} LocalDeniedAreFree(rate: nat, a: Local, b: Local, qs: seq<LocalRequest>, now: real)
    requires LocalLosslessDenials(rate, a, now, qs) && SameAt(rate, a, b, now)
    ensures
      var kept := LocalGrantedOnly(rate, a, qs);
      var end := if qs == [] then now else qs[|qs| - 1].write;
      LocalAllGranted(rate, b, kept) && SameAt(rate, LocalRun(rate, a, qs), LocalRun(rate, b, kept), end)
    decreases |qs|
  {
    hide SameAt, LocalGranted, LocalAcquire;
    if qs != [] {
      var q := qs[0];
      SameLater(rate, a, b, now, q.read);
      var next := LocalAcquire(rate, a, q);
      var rest := LocalGrantedOnly(rate, next, qs[1..]);
      assert qs[1..] != [] ==> qs[1..][|qs| - 2] == qs[|qs| - 1];
      if LocalGranted(rate, a, q) {
        LocalGrantedIsSame(rate, a, b, q);
        LocalDeniedAreFree(rate, next, LocalAcquire(rate, b, q), qs[1..], q.write);
        assert LocalGrantedOnly(rate, a, qs) == [q] + rest && ([q] + rest)[1..] == rest;
      } else {
        LocalDeniedIsSame(rate, a, b, q);
        LocalDeniedAreFree(rate, next, b, qs[1..], q.write);
        assert LocalGrantedOnly(rate, a, qs) == rest;
      }
    }
  }
}
