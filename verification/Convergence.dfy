/**
  The snapshot store of a gateway: one row per node, replaced by a snapshot that is not older.
  Snapshots arrive by gossip in any order and any number of times.  A row keeps its source when
  the new snapshot has none.  Timestamps are exact; ingest stamps are left to module Reannounce.
*/
module Convergence {
  import opened Basics

  const MAX: int := 0x7fff_ffff_ffff_ffff
  const MIN: int := -0x8000_0000_0000_0000
  const THRESHOLD: int := 100_000_000_000

  type i64 = x: int | MIN <= x <= MAX

  datatype Snapshot = Snapshot(node: string, generated: i64, signer: string, body: string, source: Option<string>)

  /** How to reach the announcing peer; the endpoint is named in the metadata, in the extra fields, or in both. */
  datatype Contact = Contact(transport: string, direct: bool, peer: string, named: Option<string>,
      extra: Option<string>)

  datatype Announcement = Announcement(peer: string, node: string, generated: i64, signer: string, contact: Contact)

  /** A row holds the time in seconds, as the database does. */
  datatype Row = Row(at: real, body: string, source: Option<string>)

  type Store = map<string, Row>

  // ----- Time -----

  function Abs(x: int): nat { if x < 0 then -x else x }

  function Saturated(x: int): i64 { if x > MAX then MAX else if x < MIN then MIN else x }

  /** Milliseconds, as the announcement check computes them. */
  function Millis(g: i64): i64 { if Abs(g) >= THRESHOLD then g else Saturated(g * 1000) }

  /** Seconds, as the upsert statement computes them. */
  function Seconds(g: i64): real { if Abs(g) >= THRESHOLD then g as real / 1000.0 else g as real }

  /** Both read the same instant, and order instants the same way. */
  lemma NormalisationsAgree(g: i64, h: i64)
    ensures (Seconds(g) * 1000.0).Floor == Millis(g)
    ensures Seconds(g) >= Seconds(h) <==> Millis(g) >= Millis(h)
  {
  }

  // ----- Storing -----

  predicate Applies(st: Store, m: Snapshot) { m.node in st ==> Seconds(m.generated) >= st[m.node].at }

  function Upserted(st: Store, m: Snapshot): Store {
    if !Applies(st, m) then st
    else
      var kept := if m.node in st then st[m.node].source else None;
      st[m.node := Row(Seconds(m.generated), m.body, if m.source.Some? then m.source else kept)]
  }

  /** The skip test of an announced node and time. */
  predicate Current(st: Store, node: string, generated: i64) {
    node in st && (st[node].at * 1000.0).Floor >= Millis(generated)
  }

  /** Unicode white space. */
  predicate Space(c: char) {
    var u := c as int;
    || 9 <= u <= 13 || u in {0x20, 0x85, 0xA0, 0x1680, 0x2028, 0x2029, 0x202F, 0x205F, 0x3000} || 0x2000 <= u <= 0x200A
  }

  predicate Blank(s: string) { forall c | c in s :: Space(c) }

  /** The contact is direct and names the announcing peer wherever it names one. */
  predicate Credible(relay: string, a: Announcement) {
    && !Blank(relay) && !Blank(a.peer)
    && a.contact.transport == "iroh_direct" && a.contact.direct && a.contact.peer == a.peer
    && (a.contact.named.Some? || a.contact.extra.Some?)
    && (a.contact.named.Some? ==> a.contact.named.value == a.peer)
    && (a.contact.extra.Some? ==> a.contact.extra.value == a.peer)
  }

  predicate Answers(m: Snapshot, a: Announcement) {
    m.node == a.node && m.generated == a.generated && m.signer == a.signer
  }

  function Delivered(st: Store, ms: seq<Snapshot>): Store {
    if ms == [] then st else Upserted(Delivered(st, ms[..|ms| - 1]), ms[|ms| - 1])
  }

  class SnapshotStore {
    var rows: Store

    method UpsertSnapshot(m: Snapshot) returns (applied: bool)
      modifies this
      ensures rows == Upserted(old(rows), m)
      ensures applied <==> Applies(old(rows), m)
    {
      if m.node !in rows {
        rows := rows[m.node := Row(Seconds(m.generated), m.body, m.source)];
        return true;
      }
      var row := rows[m.node];
      if Seconds(m.generated) < row.at {
        return false;
      }
      rows := rows[m.node := Row(Seconds(m.generated), m.body, if m.source.Some? then m.source else row.source)];
      return true;
    }

    method Deliver(ms: seq<Snapshot>)
      modifies this
      ensures rows == Delivered(old(rows), ms)
    {
      var i := 0;
      while i < |ms|
        invariant 0 <= i <= |ms| && rows == Delivered(old(rows), ms[..i])
      {
        var _ := UpsertSnapshot(ms[i]);
        assert ms[..i + 1][..i] == ms[..i];
        i := i + 1;
      }
      assert ms[..i] == ms;
    }

    method IsCurrent(node: string, generated: i64) returns (r: bool)
      ensures r <==> Current(rows, node, generated)
    {
      r := node in rows && (rows[node].at * 1000.0).Floor >= Millis(generated);
    }

    /** The checks of an announced contact, one by one. */
    method ValidateAnnouncement(relay: string, a: Announcement) returns (ok: bool)
      ensures ok <==> Credible(relay, a)
    {
      if Blank(relay) || Blank(a.peer) {
        return false;
      }
      if a.contact.transport != "iroh_direct" || !a.contact.direct || a.contact.peer != a.peer {
        return false;
      }
      var endpoint := if a.contact.extra.Some? then a.contact.extra.value
                      else if a.contact.named.Some? then a.contact.named.value else "";
      if endpoint == "" {
        return false;
      }
      return (a.contact.named.Some? ==> a.contact.named.value == endpoint) && endpoint == a.peer;
    }

    /**
      An announcement is dropped when its contact does not hold up, when it is the gateway's own,
      when its snapshot is current, before or after waiting for the permits, when the peer's queue
      is full, or when the fetch fails or yields another snapshot.  Others store snapshots while it
      waits for the permits and for the fetch.
    */
    method HandleAnnouncement(relay: string, own: Option<string>, a: Announcement, admitted: bool,
        waiting: seq<Snapshot>, fetching: seq<Snapshot>, fetched: Option<Snapshot>) returns (stored: bool)
      modifies this
      ensures stored <==>
                && Credible(relay, a) && own != Some(a.peer)
                && !Current(old(rows), a.node, a.generated) && admitted
                && !Current(Delivered(old(rows), waiting), a.node, a.generated)
                && fetched.Some? && Answers(fetched.value, a)
      ensures stored ==> rows == Upserted(Delivered(Delivered(old(rows), waiting), fetching), fetched.value)
      ensures !stored ==>
                || rows == old(rows) || rows == Delivered(old(rows), waiting)
                || rows == Delivered(Delivered(old(rows), waiting), fetching)
    {
      var ok := ValidateAnnouncement(relay, a);
      if !ok || own == Some(a.peer) {
        return false;
      }
      var current := IsCurrent(a.node, a.generated);
      if current || !admitted {
        return false;
      }
      Deliver(waiting);
      current := IsCurrent(a.node, a.generated);
      if current {
        return false;
      }
      Deliver(fetching);
      if fetched.None? || fetched.value.node != a.node || fetched.value.signer != a.signer
          || fetched.value.generated != a.generated {
        return false;
      }
      var _ := UpsertSnapshot(fetched.value);
      return true;
    }
  }

  // ----- What is stored in the end -----

  /** Two snapshots of a node with the same instant have the same body. */
  predicate DistinctTimes(ms: seq<Snapshot>) {
    forall a, b | a in ms && b in ms && a.node == b.node && Millis(a.generated) == Millis(b.generated) ::
        a.body == b.body
  }

  predicate Latest(ms: seq<Snapshot>, m: Snapshot) {
    m in ms && forall x | x in ms && x.node == m.node :: Millis(x.generated) <= Millis(m.generated)
  }

  predicate Shows(st: Store, m: Snapshot) {
    m.node in st && st[m.node].at == Seconds(m.generated) && st[m.node].body == m.body
  }

  lemma Front(ms: seq<Snapshot>)
    requires ms != []
    ensures ms == ms[..|ms| - 1] + [ms[|ms| - 1]]
    ensures forall x :: x in ms <==> x in ms[..|ms| - 1] || x == ms[|ms| - 1]
    ensures DistinctTimes(ms) ==> DistinctTimes(ms[..|ms| - 1])
  {
  }

  /** Against a row that shows a snapshot, a snapshot applies when it is not older. */
  lemma AppliesIff(st: Store, x: Snapshot, m: Snapshot)
    requires x.node == m.node && Shows(st, x)
    ensures Applies(st, m) <==> Millis(m.generated) >= Millis(x.generated)
    ensures Millis(m.generated) == Millis(x.generated) <==> Seconds(m.generated) == Seconds(x.generated)
  {
  }

  /** The row of a node shows one of its latest snapshots. */
  lemma {:induction false} ShowsALatest(ms: seq<Snapshot>, n: string)
    ensures n in Delivered(map[], ms) <==> exists m :: m in ms && m.node == n
    ensures n in Delivered(map[], ms) ==>
            exists m: Snapshot :: m.node == n && Latest(ms, m) && Shows(Delivered(map[], ms), m)
    decreases |ms|
  {
    if ms != [] {
      var front, last := ms[..|ms| - 1], ms[|ms| - 1];
      var st := Delivered(map[], front);
      Front(ms);
      ShowsALatest(front, n);
      if n in st {
        var p: Snapshot :| p.node == n && Latest(front, p) && Shows(st, p);
        if last.node == n {
          AppliesIff(st, p, last);
        }
        hide Seconds, Millis, Applies;
        var m := if last.node == n && Applies(st, last) then last else p;
        assert Latest(ms, m) && Shows(Delivered(map[], ms), m);
      } else {
        hide Seconds, Millis;
        assert last.node == n ==> Latest(ms, last) && Shows(Delivered(map[], ms), last);
      }
    }
  }

  /** A node has a row exactly when a snapshot of it was delivered, and the row shows the latest one. */
  lemma StoreShowsLatest(ms: seq<Snapshot>, n: string)
    requires DistinctTimes(ms)
    ensures n in Delivered(map[], ms) <==> exists m :: m in ms && m.node == n
    ensures n in Delivered(map[], ms) ==> exists m: Snapshot :: m.node == n && Latest(ms, m)
    ensures forall m | Latest(ms, m) && m.node == n :: Shows(Delivered(map[], ms), m)
  {
    ShowsALatest(ms, n);
    var st := Delivered(map[], ms);
    forall m | Latest(ms, m) && m.node == n
      ensures Shows(st, m)
    {
      var p: Snapshot :| p.node == n && Latest(ms, p) && Shows(st, p);
      AppliesIff(st, p, m);
    }
  }

  function Content(st: Store): map<string, (real, string)> { map n | n in st :: (st[n].at, st[n].body) }

  predicate SameSnapshots(ms: seq<Snapshot>, ns: seq<Snapshot>) {
    (forall m | m in ms :: m in ns) && forall m | m in ns :: m in ms
  }

  /** Order and repetition do not matter. */
  lemma OrderDoesNotMatter(ms: seq<Snapshot>, ns: seq<Snapshot>)
    requires DistinctTimes(ms) && SameSnapshots(ms, ns)
    ensures Content(Delivered(map[], ms)) == Content(Delivered(map[], ns))
  {
    var st, st' := Delivered(map[], ms), Delivered(map[], ns);
    forall n
      ensures n in st <==> n in st'
      ensures n in st && n in st' ==> st[n].at == st'[n].at && st[n].body == st'[n].body
    {
      StoreShowsLatest(ms, n);
      StoreShowsLatest(ns, n);
      if n in st {
        var m: Snapshot :| m.node == n && Latest(ms, m);
        assert Latest(ns, m);
      }
    }
  }

  /** The time of a row never goes back. */
  lemma {:induction false} TimeNeverDecreases(st: Store, ms: seq<Snapshot>, n: string)
    requires n in st
    ensures n in Delivered(st, ms) && Delivered(st, ms)[n].at >= st[n].at
    decreases |ms|
  {
    if ms != [] {
      TimeNeverDecreases(st, ms[..|ms| - 1], n);
    }
  }

  // ----- Skipping -----

  /** What a handler does at a position: skips, as judged at an earlier moment of the same run, or stores. */
  function Handled(ms: seq<Snapshot>, judged: seq<Option<nat>>): Store
    requires |judged| == |ms|
  {
    if ms == [] then map[]
    else
      var st := Handled(ms[..|ms| - 1], judged[..|ms| - 1]);
      if judged[|ms| - 1].Some? then st else Upserted(st, ms[|ms| - 1])
  }

  /** Every skipped announcement was current when it was judged. */
  predicate SoundJudgements(ms: seq<Snapshot>, judged: seq<Option<nat>>)
    requires |judged| == |ms|
  {
    forall j | 0 <= j < |ms| && judged[j].Some? ::
      judged[j].value <= j
          && Current(Handled(ms[..judged[j].value], judged[..judged[j].value]), ms[j].node, ms[j].generated)
  }

  lemma {:induction false} HandledTimeNeverDecreases(ms: seq<Snapshot>, judged: seq<Option<nat>>, i: nat, n: string)
    requires |judged| == |ms| && i <= |ms| && n in Handled(ms[..i], judged[..i])
    ensures n in Handled(ms, judged) && Handled(ms, judged)[n].at >= Handled(ms[..i], judged[..i])[n].at
    decreases |ms|
  {
    if i == |ms| {
      assert ms[..i] == ms && judged[..i] == judged;
    } else {
      var front, before := ms[..|ms| - 1], judged[..|ms| - 1];
      assert front[..i] == ms[..i] && before[..i] == judged[..i];
      HandledTimeNeverDecreases(front, before, i, n);
    }
  }

  lemma SameContent(st: Store, st': Store, m: Snapshot)
    requires Content(st) == Content(st')
    ensures Content(Upserted(st, m)) == Content(Upserted(st', m))
  {
    hide Seconds, Millis;
    assert forall n :: n in st <==> n in Content(st);
    assert forall n :: n in st' <==> n in Content(st');
    assert forall n | n in st :: Content(st)[n] == (st[n].at, st[n].body) == (st'[n].at, st'[n].body);
  }

  /** Skipping what was judged current does not change the store. */
  lemma {:induction false} SkippingIsFree(ms: seq<Snapshot>, judged: seq<Option<nat>>)
    requires |judged| == |ms| && DistinctTimes(ms) && SoundJudgements(ms, judged)
    ensures Content(Handled(ms, judged)) == Content(Delivered(map[], ms))
    decreases |ms|
  {
    if ms != [] {
      var k := |ms| - 1;
      var front, before, last := ms[..k], judged[..k], ms[k];
      Front(ms);
      LastHandled(ms, judged);
      assert forall i | 0 <= i <= k :: front[..i] == ms[..i] && before[..i] == judged[..i];
      hide Seconds, Millis, Handled, Delivered, Upserted;
      SkippingIsFree(front, before);
      var st, full := Handled(front, before), Delivered(map[], front);
      if judged[k].None? {
        SameContent(st, full, last);
      } else {
        var i := judged[k].value;
        HandledTimeNeverDecreases(front, before, i, last.node);
        assert last.node in Content(st) && Content(st)[last.node].0 == st[last.node].at;
        assert Content(full)[last.node].0 == full[last.node].at;
        StoredIsDelivered(front, last.node);
        SkippedChangesNothing(full, ms, last, Handled(ms[..i], judged[..i])[last.node].at);
      }
    }
  }

  lemma LastHandled(ms: seq<Snapshot>, judged: seq<Option<nat>>)
    requires ms != [] && |judged| == |ms|
    ensures var st := Handled(ms[..|ms| - 1], judged[..|ms| - 1]);
            Handled(ms, judged) == if judged[|ms| - 1].Some? then st else Upserted(st, ms[|ms| - 1])
    ensures Delivered(map[], ms) == Upserted(Delivered(map[], ms[..|ms| - 1]), ms[|ms| - 1])
  {
  }

  lemma StoredIsDelivered(ms: seq<Snapshot>, n: string)
    requires DistinctTimes(ms) && n in Delivered(map[], ms)
    ensures exists m :: m in ms && m.node == n && Shows(Delivered(map[], ms), m)
  {
  }

  lemma SkippedChangesNothing(st: Store, ms: seq<Snapshot>, m: Snapshot, was: real)
    requires DistinctTimes(ms) && m in ms && m.node in st && (was * 1000.0).Floor >= Millis(m.generated)
             && was <= st[m.node].at
    requires exists x :: x in ms && x.node == m.node && Shows(st, x)
    ensures Content(Upserted(st, m)) == Content(st)
  {
  }

  // ----- Sources -----

  function SourceAfter(ms: seq<Snapshot>, n: string): Option<string> {
    var st := Delivered(map[], ms);
    if n in st then st[n].source else None
  }

  predicate SameInstant(a: Snapshot, b: Snapshot) { a.node == b.node && Millis(a.generated) == Millis(b.generated) }

  /** The sources with which the latest snapshot of a node was delivered. */
  function LatestSources(ms: seq<Snapshot>, n: string): set<string> {
    set m | m in ms && m.node == n && Latest(ms, m) && m.source.Some? :: m.source.value
  }

  /** The row of a node has the instant of its latest snapshots. */
  lemma RowTime(ms: seq<Snapshot>, n: string)
    ensures n in Delivered(map[], ms) <==> exists m :: m in ms && m.node == n
    ensures n in Delivered(map[], ms) ==> exists m: Snapshot :: m.node == n && Latest(ms, m)
    ensures forall m | Latest(ms, m) && m.node == n ::
            n in Delivered(map[], ms) && Delivered(map[], ms)[n].at == Seconds(m.generated)
  {
    ShowsALatest(ms, n);
    forall m | Latest(ms, m) && m.node == n
      ensures Delivered(map[], ms)[n].at == Seconds(m.generated)
    {
      var p: Snapshot :| p.node == n && Latest(ms, p) && Shows(Delivered(map[], ms), p);
      AppliesIff(Delivered(map[], ms), p, m);
    }
  }

  /** Once the latest instant is stored, only its copies apply, and only one with a source changes the source. */
  lemma SourceStep(ms: seq<Snapshot>, m: Snapshot)
    requires ms != [] && Latest(ms, m) && m in ms[..|ms| - 1]
    ensures var last := ms[|ms| - 1];
            SourceAfter(ms, m.node) ==
            if SameInstant(last, m) && last.source.Some? then last.source else SourceAfter(ms[..|ms| - 1], m.node)
  {
    var front, last := ms[..|ms| - 1], ms[|ms| - 1];
    Front(ms);
    RowTime(front, m.node);
    assert Latest(front, m);
    NormalisationsAgree(last.generated, m.generated);
    NormalisationsAgree(m.generated, last.generated);
    hide Seconds, Millis;
  }

  /** A snapshot that nothing delivered before is newer than brings its source. */
  lemma SourceOfNewest(ms: seq<Snapshot>, m: Snapshot)
    requires m.source.Some? && forall x | x in ms && x.node == m.node :: Millis(x.generated) <= Millis(m.generated)
    ensures SourceAfter(ms + [m], m.node) == m.source
  {
    assert (ms + [m])[..|ms|] == ms;
    RowTime(ms, m.node);
    if m.node in Delivered(map[], ms) {
      var p: Snapshot :| p.node == m.node && Latest(ms, p);
      NormalisationsAgree(m.generated, p.generated);
    }
  }

  /** Copies of the latest snapshot with one source among them settle on it. */
  lemma {:induction false} OneSourceWins(ms: seq<Snapshot>, m: Snapshot)
    requires Latest(ms, m) && m.source.Some?
    requires forall x | x in ms && SameInstant(x, m) && x.source.Some? :: x.source == m.source
    ensures SourceAfter(ms, m.node) == m.source
    decreases |ms|
  {
    var front, last := ms[..|ms| - 1], ms[|ms| - 1];
    Front(ms);
    hide Millis, SourceAfter;
    if m in front {
      assert Latest(front, m);
      OneSourceWins(front, m);
      SourceStep(ms, m);
    } else {
      SourceOfNewest(front, m);
    }
  }

  lemma {:induction false} NoSources(ms: seq<Snapshot>, n: string)
    requires forall x | x in ms && x.node == n :: x.source.None?
    ensures SourceAfter(ms, n) == None
    decreases |ms|
  {
    if ms != [] {
      Front(ms);
      NoSources(ms[..|ms| - 1], n);
    }
  }

  /** Copies without a source change nothing once the latest instant is stored. */
  lemma {:induction false} SourceSettles(head: seq<Snapshot>, ms: seq<Snapshot>, m: Snapshot)
    requires Latest(head + ms, m) && m in head
    requires forall x | x in ms && SameInstant(x, m) :: x.source.None?
    ensures SourceAfter(head + ms, m.node) == SourceAfter(head, m.node)
    decreases |ms|
  {
    hide Millis, SourceAfter;
    if ms == [] {
      assert head + ms == head;
    } else {
      var front := ms[..|ms| - 1];
      assert (head + ms)[..|head + ms| - 1] == head + front;
      Front(head + ms);
      SourceSettles(head, front, m);
      SourceStep(head + ms, m);
    }
  }

  /** Copies of the latest snapshot with two sources: the one delivered last wins. */
  lemma TwoSourcesDiffer(ms: seq<Snapshot>, a: Snapshot, b: Snapshot)
    requires Latest(ms, a) && Latest(ms, b) && a.node == b.node && a.source.Some? && b.source.Some?
             && a.source != b.source
    ensures exists ns, ns' ::
            SameSnapshots(ms, ns) && SameSnapshots(ms, ns') && SourceAfter(ns, a.node) != SourceAfter(ns', a.node)
  {
    SourceOfNewest(ms, a);
    SourceOfNewest(ms, b);
    assert SameSnapshots(ms, ms + [a]) && SameSnapshots(ms, ms + [b]);
  }

  /** A latest snapshot without a source keeps an earlier one, if that came first. */
  lemma SourcelessDiffer(ms: seq<Snapshot>, m: Snapshot, x: Snapshot)
    requires Latest(ms, m) && (forall y | y in ms && SameInstant(y, m) :: y.source.None?)
    requires x in ms && x.node == m.node && x.source.Some?
    ensures exists ns, ns' ::
            SameSnapshots(ms, ns) && SameSnapshots(ms, ns') && SourceAfter(ns, m.node) != SourceAfter(ns', m.node)
  {
    assert m.source.None?;
    NoSources([m], m.node);
    SourceSettles([m], ms, m);
    assert [x, m][..1] == [x] && [x] == [] + [x];
    SourceOfNewest([], x);
    SourceStepAfter(x, m);
    SourceSettles([x, m], ms, m);
    assert SameSnapshots(ms, [m] + ms) && SameSnapshots(ms, [x, m] + ms);
  }

  lemma SourceStepAfter(x: Snapshot, m: Snapshot)
    requires x.node == m.node && Millis(x.generated) <= Millis(m.generated) && x.source.Some? && m.source.None?
    ensures SourceAfter([x, m], m.node) == x.source
  {
    assert [x, m][..1] == [x] && [x][..0] == [];
    assert Delivered(map[], [x]) == Upserted(map[], x);
    assert Delivered(map[], [x, m]) == Upserted(Delivered(map[], [x]), m);
    NormalisationsAgree(m.generated, x.generated);
  }

  /**
    The stored source of a node does not depend on the order exactly when the copies of its latest
    snapshot bring one source between them, or no snapshot of the node brings any.
  */
  lemma SourceOrderIff(ms: seq<Snapshot>, n: string)
    ensures (forall ns | SameSnapshots(ms, ns) :: SourceAfter(ns, n) == SourceAfter(ms, n))
            <==> |LatestSources(ms, n)| == 1 || forall x | x in ms && x.node == n :: x.source.None?
  {
    hide Millis, SourceAfter;
    if forall x | x in ms && x.node == n :: x.source.None? {
      forall ns | SameSnapshots(ms, ns)
        ensures SourceAfter(ns, n) == SourceAfter(ms, n)
      {
        NoSources(ms, n);
        NoSources(ns, n);
      }
    } else {
      var x :| x in ms && x.node == n && x.source.Some?;
      RowTime(ms, n);
      var m: Snapshot :| m.node == n && Latest(ms, m);
      SourcesDecide(ms, n, m, x);
    }
  }

  lemma InstantIsLatest(ms: seq<Snapshot>, m: Snapshot, y: Snapshot)
    requires Latest(ms, m) && y in ms && y.node == m.node
    ensures Latest(ms, y) <==> SameInstant(y, m)
    ensures Latest(ms, y) && y.source.Some? ==> y.source.value in LatestSources(ms, m.node)
  {
  }

  lemma SourcesDecide(ms: seq<Snapshot>, n: string, m: Snapshot, x: Snapshot)
    requires x in ms && x.node == n && x.source.Some? && Latest(ms, m) && m.node == n
    ensures (forall ns | SameSnapshots(ms, ns) :: SourceAfter(ns, n) == SourceAfter(ms, n)) <==>
            |LatestSources(ms, n)| == 1
  {
    var sources := LatestSources(ms, n);
    forall y | y in ms && y.node == n
      ensures Latest(ms, y) <==> SameInstant(y, m)
      ensures Latest(ms, y) && y.source.Some? ==> y.source.value in sources
    {
      InstantIsLatest(ms, m, y);
    }
    if sources == {} {
      hide LatestSources, SourceAfter, Latest, Millis;
      SourcelessDiffer(ms, m, x);
    } else {
      var s :| s in sources;
      var a :| a in ms && a.node == n && Latest(ms, a) && a.source == Some(s);
      hide LatestSources, SourceAfter, Millis;
      if sources == {s} {
        OnlySource(ms, a);
      } else {
        assert sources - {s} != {};
        SecondSource(ms, a);
      }
    }
  }

  lemma OnlySource(ms: seq<Snapshot>, a: Snapshot)
    requires Latest(ms, a) && a.source.Some? && LatestSources(ms, a.node) == {a.source.value}
    ensures forall ns | SameSnapshots(ms, ns) :: SourceAfter(ns, a.node) == a.source == SourceAfter(ms, a.node)
  {
    assert SameSnapshots(ms, ms);
    forall ns | SameSnapshots(ms, ns)
      ensures SourceAfter(ns, a.node) == a.source
    {
      assert Latest(ns, a);
      forall y | y in ns && SameInstant(y, a) && y.source.Some?
        ensures y.source == a.source
      {
        InstantIsLatest(ms, a, y);
      }
      OneSourceWins(ns, a);
    }
  }

  lemma SecondSource(ms: seq<Snapshot>, a: Snapshot)
    requires Latest(ms, a) && a.source.Some? && LatestSources(ms, a.node) - {a.source.value} != {}
    ensures exists ns, ns' ::
            SameSnapshots(ms, ns) && SameSnapshots(ms, ns') && SourceAfter(ns, a.node) != SourceAfter(ns', a.node)
    ensures |LatestSources(ms, a.node)| != 1
  {
    var t :| t in LatestSources(ms, a.node) - {a.source.value};
    var b :| b in ms && b.node == a.node && Latest(ms, b) && b.source == Some(t);
    InstantIsLatest(ms, a, a);
    AtLeastTwo(LatestSources(ms, a.node), a.source.value, t);
    TwoSourcesDiffer(ms, a, b);
  }

  lemma AtLeastTwo(sources: set<string>, s: string, t: string)
    requires s in sources && t in sources && s != t
    ensures |sources| != 1
  {
    assert |sources| == |sources - {s}| + 1 && t in sources - {s};
  }

  /** One snapshot that arrives under two sources ends with the source that came last. */
  lemma SnapshotUnderTwoSources()
    ensures var a, b := Snapshot("n", 5, "k", "x", Some("a")), Snapshot("n", 5, "k", "x", Some("b"));
            SourceAfter([a, b], "n") == Some("b") && SourceAfter([b, a], "n") == Some("a")
  {
    var a, b := Snapshot("n", 5, "k", "x", Some("a")), Snapshot("n", 5, "k", "x", Some("b"));
    SourceOfNewest([a], b);
    SourceOfNewest([b], a);
    assert [a] + [b] == [a, b] && [b] + [a] == [b, a];
  }
}
