/**
  Space presence of agents: one row per network, space and agent, replaced only by a higher
  sequence number, and the query that shows an agent where it was last seen in a network.

  A space is its rank in the database's order of space ids; answers are sets.
*/
module Presence {
  import opened Basics

  type Space = nat

  datatype Record = Record(network: string, space: Space, agent: string, seqno: nat, node: string,
      source: Option<string>, body: string)

  datatype Key = Key(network: string, space: Space, agent: string)

  type Table = map<Key, Record>

  function KeyOf(r: Record): Key { Key(r.network, r.space, r.agent) }

  // ----- Storing -----

  predicate Applies(t: Table, r: Record) { KeyOf(r) in t ==> t[KeyOf(r)].seqno < r.seqno }

  function Upserted(t: Table, r: Record): Table { if Applies(t, r) then t[KeyOf(r) := r] else t }

  function Delivered(rs: seq<Record>): Table {
    if rs == [] then map[] else Upserted(Delivered(rs[..|rs| - 1]), rs[|rs| - 1])
  }

  class PresenceTable {
    var rows: Table

    method UpsertPresence(r: Record) returns (applied: bool)
      modifies this
      ensures rows == Upserted(old(rows), r)
      ensures applied <==> Applies(old(rows), r)
    {
      var k := KeyOf(r);
      if k in rows && rows[k].seqno >= r.seqno {
        return false;
      }
      rows := rows[k := r];
      return true;
    }
  }

  /** No two records of a key share a sequence number. */
  predicate DistinctSeqs(rs: seq<Record>) {
    forall a, b | a in rs && b in rs && KeyOf(a) == KeyOf(b) && a.seqno == b.seqno :: a == b
  }

  predicate Highest(rs: seq<Record>, r: Record) {
    r in rs && forall x | x in rs && KeyOf(x) == KeyOf(r) :: x.seqno <= r.seqno
  }

  /** The record at a position is above all earlier ones of its key and no later one is above it. */
  predicate FirstHighestAt(rs: seq<Record>, i: nat) {
    && i < |rs|
    && (forall j | 0 <= j < i && KeyOf(rs[j]) == KeyOf(rs[i]) :: rs[j].seqno < rs[i].seqno)
    && forall j | i < j < |rs| && KeyOf(rs[j]) == KeyOf(rs[i]) :: rs[j].seqno <= rs[i].seqno
  }

  predicate FirstHighest(rs: seq<Record>, r: Record) {
    exists i: nat :: i < |rs| && FirstHighestAt(rs, i) && rs[i] == r
  }

  lemma OneIsFirst(rs: seq<Record>, r: Record, x: Record)
    requires FirstHighest(rs, r) && FirstHighest(rs, x) && KeyOf(r) == KeyOf(x)
    ensures r == x
  {
    var i: nat :| i < |rs| && FirstHighestAt(rs, i) && rs[i] == r;
    var j: nat :| j < |rs| && FirstHighestAt(rs, j) && rs[j] == x;
  }

  lemma FirstIsHighest(rs: seq<Record>, r: Record)
    requires FirstHighest(rs, r)
    ensures Highest(rs, r)
  {
    var i: nat :| i < |rs| && FirstHighestAt(rs, i) && rs[i] == r;
    forall x | x in rs && KeyOf(x) == KeyOf(r)
      ensures x.seqno <= r.seqno
    {
      var j :| 0 <= j < |rs| && rs[j] == x;
    }
  }

  lemma Front(rs: seq<Record>)
    requires rs != []
    ensures forall x :: x in rs <==> x in rs[..|rs| - 1] || x == rs[|rs| - 1]
  {
  }

  lemma FirstStays(front: seq<Record>, last: Record, r: Record)
    requires FirstHighest(front, r) && (KeyOf(last) == KeyOf(r) ==> last.seqno <= r.seqno)
    ensures FirstHighest(front + [last], r)
  {
    var i: nat :| i < |front| && FirstHighestAt(front, i) && front[i] == r;
    assert FirstHighestAt(front + [last], i);
  }

  lemma HigherIsFirst(front: seq<Record>, last: Record)
    requires forall x | x in front && KeyOf(x) == KeyOf(last) :: x.seqno < last.seqno
    ensures FirstHighest(front + [last], last)
  {
    assert FirstHighestAt(front + [last], |front|);
  }

  /** The row of a key is the first delivered record with the highest sequence number. */
  lemma {:induction false} TableIsTheMaximum(rs: seq<Record>, k: Key)
    ensures k in Delivered(rs) <==> exists r :: r in rs && KeyOf(r) == k
    ensures k in Delivered(rs) ==> KeyOf(Delivered(rs)[k]) == k && Highest(rs, Delivered(rs)[k])
    ensures forall r | KeyOf(r) == k :: FirstHighest(rs, r) <==> k in Delivered(rs) && Delivered(rs)[k] == r
  {
    hide FirstHighest;
    if rs != [] {
      Front(rs);
      var front, last := rs[..|rs| - 1], rs[|rs| - 1];
      TableIsTheMaximum(front, k);
      assert rs == front + [last];
      if KeyOf(last) == k && Applies(Delivered(front), last) {
        HigherIsFirst(front, last);
      } else if k in Delivered(front) {
        FirstStays(front, last, Delivered(front)[k]);
      }
    }
    forall r | KeyOf(r) == k && FirstHighest(rs, r)
      ensures k in Delivered(rs) && Delivered(rs)[k] == r
    {
      FirstIsHighest(rs, r);
      OneIsFirst(rs, r, Delivered(rs)[k]);
    }
  }

  /** With distinct numbers the order and the repetition of the records do not matter. */
  lemma HighestIsFirst(rs: seq<Record>, r: Record)
    requires DistinctSeqs(rs)
    ensures Highest(rs, r) <==> FirstHighest(rs, r)
  {
    TableIsTheMaximum(rs, KeyOf(r));
  }

  // ----- The query -----

  predicate SameAgent(a: Record, b: Record) { a.network == b.network && a.agent == b.agent }

  /** The order of candidates for one agent: by sequence number, then by space, descending and ascending. */
  predicate Beats(a: Record, b: Record) { a.seqno > b.seqno || (a.seqno == b.seqno && a.space <= b.space) }

  /** The row that `distinct on` keeps for its agent, among the rows of a network or of all. */
  predicate IsFloor(t: Table, network: Option<string>, r: Record) {
    && r in t.Values && r.network != "" && (network.Some? ==> r.network == network.value)
    && forall x | x in t.Values && SameAgent(x, r) && (network.Some? ==> x.network == network.value) :: Beats(r, x)
  }

  predicate Shown(active: set<string>, r: Record) { r.source.Some? ==> r.source.value in active }

  function PresenceValues(t: Table, network: Option<string>, space: Option<Space>, active: set<string>): set<Record> {
    set r | r in t.Values && IsFloor(t, network, r) && (space.Some? ==> r.space == space.value) && Shown(active, r)
  }

  /** An agent has at most one presence in a network, and no row of any space has a higher sequence number. */
  lemma OnePresence(rs: seq<Record>, network: Option<string>, space: Option<Space>, active: set<string>, a: Record)
    requires a in PresenceValues(Delivered(rs), network, space, active)
    ensures forall b | b in PresenceValues(Delivered(rs), network, space, active) && SameAgent(a, b) :: a == b
    ensures forall k | k in Delivered(rs) && SameAgent(Delivered(rs)[k], a) :: Delivered(rs)[k].seqno <= a.seqno
  {
    var t := Delivered(rs);
    forall b | b in PresenceValues(t, network, space, active) && SameAgent(a, b)
      ensures a == b
    {
      assert Beats(a, b) && Beats(b, a);
      StoredUnderItsKey(rs, a);
      StoredUnderItsKey(rs, b);
    }
  }

  lemma StoredUnderItsKey(rs: seq<Record>, r: Record)
    requires r in Delivered(rs).Values
    ensures KeyOf(r) in Delivered(rs) && Delivered(rs)[KeyOf(r)] == r
  {
    var k :| k in Delivered(rs) && Delivered(rs)[k] == r;
    TableIsTheMaximum(rs, k);
  }

  /** Asking for a network or a space is the same as filtering the answer to the open question. */
  lemma FilteringCommutes(t: Table, network: Option<string>, space: Option<Space>, active: set<string>)
    ensures PresenceValues(t, network, space, active) ==
            set r | r in PresenceValues(t, None, None, active)
                    && (network.Some? ==> r.network == network.value) && (space.Some? ==> r.space == space.value)
  {
  }

  // ----- From deliveries to answers -----

  /** The best of an agent's delivered records, and the first of its key with this number. */
  predicate Best(rs: seq<Record>, r: Record) {
    FirstHighest(rs, r) && r.network != "" && forall x | x in rs && SameAgent(x, r) :: Beats(r, x)
  }

  lemma BestIsFloor(rs: seq<Record>, r: Record)
    requires Best(rs, r)
    ensures r in Delivered(rs).Values && IsFloor(Delivered(rs), None, r)
  {
    var t := Delivered(rs);
    TableIsTheMaximum(rs, KeyOf(r));
    forall x | x in t.Values && SameAgent(x, r)
      ensures Beats(r, x)
    {
      var k :| k in t && t[k] == x;
      TableIsTheMaximum(rs, k);
    }
  }

  lemma FloorIsBest(rs: seq<Record>, r: Record)
    requires IsFloor(Delivered(rs), None, r)
    ensures Best(rs, r)
  {
    var t := Delivered(rs);
    var k :| k in t && t[k] == r;
    TableIsTheMaximum(rs, k);
    forall x | x in rs && SameAgent(x, r)
      ensures Beats(r, x)
    {
      TableIsTheMaximum(rs, KeyOf(x));
      var y := t[KeyOf(x)];
      assert y in t.Values && Beats(r, y);
    }
  }

  /** The answer is the best record of each agent, if its source is active; never a record that it has superseded. */
  lemma AnswerIsTheBest(rs: seq<Record>, network: Option<string>, space: Option<Space>, active: set<string>, r: Record)
    ensures r in PresenceValues(Delivered(rs), network, space, active) <==>
              && Best(rs, r) && Shown(active, r)
              && (network.Some? ==> r.network == network.value) && (space.Some? ==> r.space == space.value)
  {
    FilteringCommutes(Delivered(rs), network, space, active);
    if Best(rs, r) {
      BestIsFloor(rs, r);
    }
    if IsFloor(Delivered(rs), None, r) {
      FloorIsBest(rs, r);
    }
  }

  predicate Leads(rs: seq<Record>, r: Record) { r in rs && forall x | x in rs && SameAgent(x, r) :: Beats(r, x) }

  lemma {:induction false} LeaderExists(rs: seq<Record>, n: string, a: string)
    requires exists x :: x in rs && x.network == n && x.agent == a
    ensures exists r :: Leads(rs, r) && r.network == n && r.agent == a
    decreases |rs|
  {
    Front(rs);
    var front, last := rs[..|rs| - 1], rs[|rs| - 1];
    if exists x :: x in front && x.network == n && x.agent == a {
      LeaderExists(front, n, a);
      var r :| Leads(front, r) && r.network == n && r.agent == a;
      var best := if SameAgent(last, r) && Beats(last, r) then last else r;
      assert Leads(rs, best);
    } else {
      assert Leads(rs, last);
    }
  }

  /** Every agent seen in a network has a best record. */
  lemma BestExists(rs: seq<Record>, n: string, a: string)
    requires n != "" && exists x :: x in rs && x.network == n && x.agent == a
    ensures exists r :: Best(rs, r) && r.network == n && r.agent == a
  {
    LeaderExists(rs, n, a);
    var r :| Leads(rs, r) && r.network == n && r.agent == a;
    TableIsTheMaximum(rs, KeyOf(r));
    var first := Delivered(rs)[KeyOf(r)];
    assert first.seqno == r.seqno && Best(rs, first);
  }

  /** With all sources active, the open question shows each agent of each named network exactly once. */
  lemma EveryAgentIsShown(rs: seq<Record>, active: set<string>, n: string, a: string)
    requires n != "" && (forall x | x in rs :: Shown(active, x))
    ensures (exists x :: x in rs && x.network == n && x.agent == a) <==>
            exists r :: r in PresenceValues(Delivered(rs), None, None, active) && r.network == n && r.agent == a
  {
    if exists x :: x in rs && x.network == n && x.agent == a {
      BestExists(rs, n, a);
      var r :| Best(rs, r) && r.network == n && r.agent == a;
      AnswerIsTheBest(rs, None, None, active, r);
    }
    if r :| r in PresenceValues(Delivered(rs), None, None, active) && r.network == n && r.agent == a {
      AnswerIsTheBest(rs, None, None, active, r);
    }
  }
}
