/**
  The UI event stream: the hub that publishes events once, the replay of persisted events to a
  client, and the live loop after it.

  A persisted event has a positive cursor of its own; an ephemeral one has cursor 0.  The client's
  socket does not fail.
*/
module UiStream {
  import opened Basics

  type Kind = string

  datatype Event = Event(cursor: int, id: string, kind: Kind, node: string,
    topic: Option<string>, organization: Option<string>, task: Option<string>, source: Option<string>)

  /** What a client asked for and may see. */
  datatype View = View(kind: Option<Kind>, node: Option<string>, topic: Option<string>, organization: Option<string>,
    task: Option<string>, limit: Option<nat>, protected: bool, public: set<Kind>)

  predicate Asked(want: Option<string>, have: Option<string>) { want.Some? ==> have == want }

  /** The filter of the replay statement. */
  predicate Selects(v: View, e: Event) {
    && Asked(v.kind, Some(e.kind)) && Asked(v.node, Some(e.node))
    && Asked(v.topic, e.topic) && Asked(v.organization, e.organization) && Asked(v.task, e.task)
  }

  predicate Matches(v: View, e: Event) { (v.protected || e.kind in v.public) && Selects(v, e) }

  // ----- What a client is sent -----

  function Advanced(mark: int, cursor: int): int { if cursor > 0 && cursor > mark then cursor else mark }

  /** The live loop sends an event that matches and, if persisted, lies above the mark. */
  predicate Sends(v: View, mark: int, e: Event) { !(0 < e.cursor <= mark) && Matches(v, e) }

  function Mark(v: View, c: int, es: seq<Event>): int {
    if es == [] then c
    else
      var m, e := Mark(v, c, es[..|es| - 1]), es[|es| - 1];
      if Sends(v, m, e) then Advanced(m, e.cursor) else m
  }

  function Sent(v: View, c: int, es: seq<Event>): seq<Event> {
    if es == [] then []
    else
      var front, e := es[..|es| - 1], es[|es| - 1];
      Sent(v, c, front) + if Sends(v, Mark(v, c, front), e) then [e] else []
  }

  /** The mark is the highest of the start and the matching events so far. */
  lemma {:induction false} MarkIsHighest(v: View, c: int, es: seq<Event>)
    ensures c <= Mark(v, c, es)
    ensures forall e | e in es && Matches(v, e) && e.cursor > 0 :: e.cursor <= Mark(v, c, es)
    ensures Mark(v, c, es) == c || exists e :: e in es && Matches(v, e) && e.cursor > 0 && e.cursor == Mark(v, c, es)
  {
    if es != [] {
      var front, e := es[..|es| - 1], es[|es| - 1];
      assert es == front + [e];
      MarkIsHighest(v, c, front);
      if Mark(v, c, es) != c {
        if Mark(v, c, es) == e.cursor && Sends(v, Mark(v, c, front), e) && e.cursor > 0 {
          assert e in es && Matches(v, e);
        } else {
          var x :| x in front && Matches(v, x) && x.cursor > 0 && x.cursor == Mark(v, c, front);
          assert x in es;
        }
      }
    }
  }

  predicate Rising(es: seq<Event>, above: int) {
    && (forall i | 0 <= i < |es| && es[i].cursor > 0 :: es[i].cursor > above)
    && forall i, j | 0 <= i < j < |es| && es[i].cursor > 0 && es[j].cursor > 0 :: es[i].cursor < es[j].cursor
  }

  /** Whatever arrives, persisted cursors go up, from above the start, and every event matches. */
  lemma {:induction false} SentRises(v: View, c: int, es: seq<Event>)
    ensures Rising(Sent(v, c, es), c)
    ensures forall e | e in Sent(v, c, es) :: e in es && Matches(v, e) && (e.cursor > 0 ==> e.cursor <= Mark(v, c, es))
  {
    if es != [] {
      var front, e := es[..|es| - 1], es[|es| - 1];
      assert es == front + [e];
      SentRises(v, c, front);
      MarkIsHighest(v, c, front);
    }
  }

  /**
    A persisted event is sent at a position exactly when it matches and is above the start and all matching
    events before.
  */
  lemma SendsIff(v: View, c: int, es: seq<Event>, j: nat)
    requires j < |es|
    ensures Sends(v, Mark(v, c, es[..j]), es[j]) <==>
              && Matches(v, es[j])
              && (es[j].cursor > 0 ==>
                    es[j].cursor > c && forall i | 0 <= i < j && Matches(v, es[i]) :: es[i].cursor < es[j].cursor)
  {
    MarkIsHighest(v, c, es[..j]);
    assert forall i | 0 <= i < j :: es[i] in es[..j];
  }

  lemma {:induction false} SentAt(v: View, c: int, es: seq<Event>, j: nat)
    requires j < |es| && Sends(v, Mark(v, c, es[..j]), es[j])
    ensures es[j] in Sent(v, c, es)
    decreases |es|
  {
    if j < |es| - 1 {
      var front := es[..|es| - 1];
      assert front[..j] == es[..j];
      SentAt(v, c, front, j);
    }
  }

  lemma {:induction false} SentSomewhere(v: View, c: int, es: seq<Event>, e: Event)
    requires e in Sent(v, c, es)
    ensures exists j :: 0 <= j < |es| && es[j] == e && Sends(v, Mark(v, c, es[..j]), es[j])
    decreases |es|
  {
    var front := es[..|es| - 1];
    if e in Sent(v, c, front) {
      SentSomewhere(v, c, front, e);
      var j :| 0 <= j < |front| && front[j] == e && Sends(v, Mark(v, c, front[..j]), front[j]);
      assert front[..j] == es[..j];
    }
  }

  // ----- Completeness -----

  predicate Wanted(v: View, c: int, e: Event) { Matches(v, e) && e.cursor > 0 && e.cursor > c }

  /** An event that is new at its position lies above the matching ones before it. */
  predicate NewInOrder(v: View, c: int, es: seq<Event>, j: nat)
    requires j < |es|
  {
    Wanted(v, c, es[j]) && es[j] !in es[..j] ==>
        forall i | 0 <= i < j && Matches(v, es[i]) :: es[i].cursor < es[j].cursor
  }

  predicate InOrder(v: View, c: int, es: seq<Event>) { forall j | 0 <= j < |es| :: NewInOrder(v, c, es, j) }

  predicate NothingMissed(v: View, c: int, es: seq<Event>) {
    forall e | e in es && Wanted(v, c, e) :: e in Sent(v, c, es)
  }

  lemma {:induction false} FirstAt(es: seq<Event>, e: Event) returns (j: nat)
    requires e in es
    ensures j < |es| && es[j] == e && e !in es[..j]
  {
    var front := es[..|es| - 1];
    if e in front {
      j := FirstAt(front, e);
      assert front[..j] == es[..j];
    } else {
      j := |es| - 1;
    }
  }

  /** An event that appears below a matching one is lost for good. */
  lemma OvertakenIsLost(v: View, c: int, es: seq<Event>, i: nat, j: nat)
    requires i < j < |es| && Wanted(v, c, es[j]) && es[j] !in es[..j] && Matches(v, es[i])
             && es[i].cursor >= es[j].cursor
    ensures es[j] !in Sent(v, c, es)
  {
    assert forall x: nat | x < j :: es[x] in es[..j];
    forall k: nat | k < |es| && es[k] == es[j]
      ensures !Sends(v, Mark(v, c, es[..k]), es[k])
    {
      SendsIff(v, c, es, k);
    }
    if es[j] in Sent(v, c, es) {
      SentSomewhere(v, c, es, es[j]);
    }
  }

  /** The client gets everything it wants, once each, exactly when new events come in order. */
  lemma CompleteIff(v: View, c: int, es: seq<Event>)
    ensures NothingMissed(v, c, es) <==> InOrder(v, c, es)
  {
    if InOrder(v, c, es) {
      forall e | e in es && Wanted(v, c, e)
        ensures e in Sent(v, c, es)
      {
        var j := FirstAt(es, e);
        assert NewInOrder(v, c, es, j);
        SendsIff(v, c, es, j);
        SentAt(v, c, es, j);
      }
    } else {
      var j :| 0 <= j < |es| && !NewInOrder(v, c, es, j);
      var i :| 0 <= i < j && Matches(v, es[i]) && es[i].cursor >= es[j].cursor;
      OvertakenIsLost(v, c, es, i, j);
      assert es[j] in es && Wanted(v, c, es[j]);
    }
  }

  /** Two commits out of cursor order lose the smaller one. */
  lemma LateCommitIsLost(v: View, a: Event, b: Event)
    requires Matches(v, a) && Matches(v, b) && a.cursor == 1 && b.cursor == 2
    ensures Sent(v, 0, [b, a]) == [b]
  {
    assert [b, a][..1] == [b] && [b][..0] == [];
    assert Sent(v, 0, [b]) == [b] && Mark(v, 0, [b]) == 2;
  }

  // ----- Replay -----

  datatype Row = Row(event: Event, decodes: bool)

  predicate Eligible(v: View, c: int, active: set<string>, e: Event) {
    e.cursor > c && Selects(v, e) && (e.source.Some? ==> e.source.value in active)
  }

  function Limit(v: View): nat { if v.limit.Some? then (if v.limit.value > 1 then v.limit.value else 1) else 200 }

  /** The rows of the replay statement over a table of events. */
  predicate IsReplay(v: View, c: int, active: set<string>, table: set<Event>, rows: seq<Event>) {
    && (forall e | e in rows :: e in table && Eligible(v, c, active, e))
    && (forall i, j | 0 <= i < j < |rows| :: rows[i].cursor < rows[j].cursor)
    && |rows| <= Limit(v)
    && (forall e | e in table && Eligible(v, c, active, e) && e !in rows ::
          |rows| == Limit(v) && forall x | x in rows :: x.cursor < e.cursor)
  }

  lemma {:induction false} AscendingSet(rows: seq<Event>)
    requires forall i, j | 0 <= i < j < |rows| :: rows[i].cursor < rows[j].cursor
    ensures |set e | e in rows| == |rows|
  {
    if rows != [] {
      var front, last := rows[..|rows| - 1], rows[|rows| - 1];
      AscendingSet(front);
      assert rows == front + [last];
      assert (set e | e in rows) == (set e | e in front) + {last};
    }
  }

  function Selected(v: View, c: int, active: set<string>, table: set<Event>): set<Event> {
    set e | e in table && Eligible(v, c, active, e)
  }

  /** The replay is whole exactly when the limit leaves room for every selected event. */
  lemma ReplayIsWholeIff(v: View, c: int, active: set<string>, table: set<Event>, rows: seq<Event>)
    requires IsReplay(v, c, active, table, rows)
    ensures (forall e | e in Selected(v, c, active, table) :: e in rows) <==>
            |Selected(v, c, active, table)| <= Limit(v)
  {
    hide Limit, Selects;
    AscendingSet(rows);
    var all, got := Selected(v, c, active, table), set e | e in rows;
    assert got <= all;
    assert |all| == |got| + |all - got|;
    if all == got {
      assert forall e | e in all :: e in got;
    } else {
      var e :| e in all - got;
      assert e !in rows && |all - got| > 0;
    }
  }

  predicate Replayable(c: int, rows: seq<Event>) {
    && (forall i | 0 <= i < |rows| :: rows[i].cursor > 0 && rows[i].cursor > c)
    && (forall i, j | 0 <= i < j < |rows| :: rows[i].cursor < rows[j].cursor)
  }

  function Filtered(v: View, es: seq<Event>): seq<Event> {
    if es == [] then [] else Filtered(v, es[..|es| - 1]) + if Matches(v, es[|es| - 1]) then [es[|es| - 1]] else []
  }

  function Highest(v: View, c: int, es: seq<Event>): int {
    if es == [] then c
    else
      var m, e := Highest(v, c, es[..|es| - 1]), es[|es| - 1];
      if Matches(v, e) then Advanced(m, e.cursor) else m
  }

  /** Replaying ascending rows is what the live loop would do with them. */
  lemma {:induction false} ReplayIsLive(v: View, c: int, rows: seq<Event>)
    requires Replayable(c, rows)
    ensures Filtered(v, rows) == Sent(v, c, rows) && Highest(v, c, rows) == Mark(v, c, rows)
  {
    if rows != [] {
      var front, e := rows[..|rows| - 1], rows[|rows| - 1];
      ReplayIsLive(v, c, front);
      MarkIsHighest(v, c, front);
    }
  }

  lemma {:induction false} LiveAfter(v: View, c: int, es: seq<Event>, more: seq<Event>)
    ensures Sent(v, c, es + more) == Sent(v, c, es) + Sent(v, Mark(v, c, es), more)
    ensures Mark(v, c, es + more) == Mark(v, Mark(v, c, es), more)
  {
    if more == [] {
      assert es + more == es;
    } else {
      var front := more[..|more| - 1];
      LiveAfter(v, c, es, front);
      assert (es + more)[..|es + more| - 1] == es + front;
    }
  }

  // ----- The handler -----

  datatype Item = Received(event: Event) | Lagged

  datatype Frame =
    | Hello(cursor: int, earliest: Option<int>)
    | AgedOut(requested: int)
    | StreamLagged(at: int)
    | Data(event: Event)

  function Frames(es: seq<Event>): seq<Frame> { seq(|es|, i requires 0 <= i < |es| => Data(es[i])) }

  lemma FramesOneMore(es: seq<Event>, e: Event)
    ensures Frames(es + [e]) == Frames(es) + [Data(e)]
  {
  }

  lemma FramesConcat(es: seq<Event>, more: seq<Event>)
    ensures Frames(es + more) == Frames(es) + Frames(more)
  {
  }

  function Decoded(rows: seq<Row>): seq<Event> {
    if rows == [] then []
    else Decoded(rows[..|rows| - 1]) + if rows[|rows| - 1].decodes then [rows[|rows| - 1].event] else []
  }

  /** What the receiver yields before it lags. */
  function Heard(items: seq<Item>): seq<Event> {
    if items == [] || items[0].Lagged? then [] else [items[0].event] + Heard(items[1..])
  }

  predicate AnyLag(items: seq<Item>) { Lagged in items }

  predicate Rejects(requested: Option<int>, earliest: Option<int>) {
    requested.Some? && earliest.Some? && 0 < requested.value < earliest.value
  }

  function Start(requested: Option<int>): int { if requested.Some? then requested.value else 0 }

  /** One more row of a replay. */
  lemma ReplayOneMore(v: View, c: int, rows: seq<Row>, i: nat)
    requires i < |rows|
    ensures var before, after, e := Decoded(rows[..i]), Decoded(rows[..i + 1]), rows[i].event;
            if rows[i].decodes && Matches(v, e)
            then Filtered(v, after) == Filtered(v, before) + [e]
                 && Highest(v, c, after) == Advanced(Highest(v, c, before), e.cursor)
            else Filtered(v, after) == Filtered(v, before) && Highest(v, c, after) == Highest(v, c, before)
  {
    hide Matches, Advanced;
    var before, e := Decoded(rows[..i]), rows[i].event;
    assert rows[..i + 1][..i] == rows[..i];
    if rows[i].decodes {
      assert Decoded(rows[..i + 1]) == before + [e] && (before + [e])[..|before|] == before;
    } else {
      assert Decoded(rows[..i + 1]) == before;
    }
  }

  method Replay(v: View, c: int, rows: seq<Row>) returns (frames: seq<Frame>, mark: int)
    ensures frames == Frames(Filtered(v, Decoded(rows))) && mark == Highest(v, c, Decoded(rows))
  {
    frames, mark := [], c;
    var i := 0;
    assert frames == Frames(Filtered(v, Decoded(rows[..i])));
    hide Matches, Frames, Advanced, Filtered, Highest, Decoded;
    while i < |rows|
      invariant 0 <= i <= |rows|
      invariant frames == Frames(Filtered(v, Decoded(rows[..i]))) && mark == Highest(v, c, Decoded(rows[..i]))
    {
      ReplayOneMore(v, c, rows, i);
      if rows[i].decodes {
        var e := rows[i].event;
        if Matches(v, e) {
          FramesOneMore(Filtered(v, Decoded(rows[..i])), e);
          frames := frames + [Data(e)];
          mark := Advanced(mark, e.cursor);
        }
      }
      i := i + 1;
    }
    assert rows[..i] == rows;
  }

  lemma SentOneMore(v: View, c: int, es: seq<Event>, e: Event)
    ensures Sent(v, c, es + [e]) == if Sends(v, Mark(v, c, es), e) then Sent(v, c, es) + [e] else Sent(v, c, es)
    ensures Mark(v, c, es + [e])
            == if Sends(v, Mark(v, c, es), e) then Advanced(Mark(v, c, es), e.cursor) else Mark(v, c, es)
  {
  }

  predicate AllReceived(items: seq<Item>, heard: seq<Event>) {
    |heard| <= |items| && forall k | 0 <= k < |heard| :: items[k] == Received(heard[k])
  }

  lemma {:induction false} HeardIs(items: seq<Item>, heard: seq<Event>)
    requires AllReceived(items, heard) && (|heard| == |items| || items[|heard|].Lagged?)
    ensures Heard(items) == heard && (AnyLag(items) <==> |heard| < |items|)
    decreases |items|
  {
    if heard != [] {
      HeardIs(items[1..], heard[1..]);
      assert items == [items[0]] + items[1..] && heard == [heard[0]] + heard[1..];
    } else if items != [] {
      assert Lagged in items;
    }
  }

  method Live(v: View, c: int, items: seq<Item>) returns (frames: seq<Frame>)
    ensures frames == Frames(Sent(v, c, Heard(items)))
                      + if AnyLag(items) then [StreamLagged(Mark(v, c, Heard(items)))] else []
  {
    frames := [];
    var i, mark := 0, c;
    ghost var heard: seq<Event> := [];
    assert frames == Frames(Sent(v, c, heard));
    hide Matches, Frames, Advanced, Sent, Mark, Heard, AnyLag;
    while i < |items|
      invariant i <= |items| && |heard| == i && AllReceived(items, heard)
      invariant frames == Frames(Sent(v, c, heard)) && mark == Mark(v, c, heard)
    {
      if items[i].Lagged? {
        HeardIs(items, heard);
        return frames + [StreamLagged(mark)];
      }
      var e := items[i].event;
      SentOneMore(v, c, heard, e);
      FramesOneMore(Sent(v, c, heard), e);
      if !(0 < e.cursor <= mark) && Matches(v, e) {
        frames := frames + [Data(e)];
        mark := Advanced(mark, e.cursor);
      }
      heard := heard + [e];
      i := i + 1;
    }
    HeardIs(items, heard);
    assert frames + [] == frames;
  }

  /** Replay and live loop together are the live loop over the rows and what is heard. */
  lemma SessionIsLive(v: View, c: int, rows: seq<Event>, heard: seq<Event>)
    requires Replayable(c, rows)
    ensures Frames(Filtered(v, rows)) + Frames(Sent(v, Highest(v, c, rows), heard)) == Frames(Sent(v, c, rows + heard))
    ensures Mark(v, Highest(v, c, rows), heard) == Mark(v, c, rows + heard)
  {
    ReplayIsLive(v, c, rows);
    LiveAfter(v, c, rows, heard);
    FramesConcat(Sent(v, c, rows), Sent(v, Mark(v, c, rows), heard));
  }

  method HandleWs(v: View, requested: Option<int>, earliest: Option<int>, rows: seq<Row>, items: seq<Item>)
      returns (frames: seq<Frame>)
    requires Replayable(Start(requested), Decoded(rows))
    ensures |frames| > 0 && frames[0] == Hello(Start(requested), earliest)
    ensures Rejects(requested, earliest) ==> frames[1..] == [AgedOut(requested.value)]
    ensures !Rejects(requested, earliest) ==>
              var es := Decoded(rows) + Heard(items);
              frames[1..] == Frames(Sent(v, Start(requested), es))
                             + if AnyLag(items) then [StreamLagged(Mark(v, Start(requested), es))] else []
  {
    hide Replayable, Decoded, Heard, Frames, Sent, Mark, AnyLag, Filtered, Highest;
    var c := Start(requested);
    if requested.Some? && earliest.Some? && 0 < requested.value < earliest.value {
      return [Hello(c, earliest), AgedOut(requested.value)];
    }
    var replayed, mark := Replay(v, c, rows);
    var live := Live(v, mark, items);
    SessionIsLive(v, c, Decoded(rows), Heard(items));
    frames := [Hello(c, earliest)] + (replayed + live);
    assert frames[1..] == replayed + live;
  }

  // ----- The hub -----

  const CAPACITY: nat := 8192

  function LastOf(s: seq<string>, n: nat): seq<string> { if |s| <= n then s else s[|s| - n..] }

  /** The ids accepted by a series of calls, oldest first. */
  function Accepted(ids: seq<string>): seq<string> {
    if ids == [] then []
    else
      var before, id := Accepted(ids[..|ids| - 1]), ids[|ids| - 1];
      if id in LastOf(before, CAPACITY) then before else before + [id]
  }

  predicate Distinct(s: seq<string>) { forall i, j | 0 <= i < j < |s| :: s[i] != s[j] }

  lemma Fresh(s: seq<string>, id: string)
    requires Distinct(s) && id !in s
    ensures Distinct(s + [id]) && forall x :: x in s + [id] <==> x in s || x == id
  {
  }

  lemma PopFirst(s: seq<string>)
    requires Distinct(s) && s != []
    ensures Distinct(s[1..]) && forall x :: x in s[1..] <==> x in s && x != s[0]
  {
  }

  class PublishedEventCache {
    var ids: set<string>
    var order: seq<string>

    ghost predicate Valid()
      reads this
    {
      Distinct(order) && |order| <= CAPACITY && forall x :: x in ids <==> x in order
    }

    constructor ()
      ensures Valid() && order == []
    {
      ids, order := {}, [];
    }

    method Remember(id: string) returns (first: bool)
      requires Valid()
      modifies this
      ensures Valid()
      ensures first <==> id !in old(order)
      ensures order == if first then LastOf(old(order) + [id], CAPACITY) else old(order)
    {
      if id in ids {
        return false;
      }
      Fresh(order, id);
      hide Distinct;
      ids, order := ids + {id}, order + [id];
      if |order| > CAPACITY {
        var expired := order[0];
        PopFirst(order);
        order := order[1..];
        ids := ids - {expired};
      }
      return true;
    }
  }

  /** The cache's order after a series of calls. */
  function Remembered(ids: seq<string>): seq<string> {
    if ids == [] then []
    else
      var before, id := Remembered(ids[..|ids| - 1]), ids[|ids| - 1];
      if id in before then before else LastOf(before + [id], CAPACITY)
  }

  /** The cache holds the latest accepted ids. */
  lemma {:induction false} CacheHoldsLatest(ids: seq<string>)
    ensures Remembered(ids) == LastOf(Accepted(ids), CAPACITY)
  {
    if ids != [] {
      CacheHoldsLatest(ids[..|ids| - 1]);
    }
  }

  /** An id is accepted again only after as many others as the cache holds. */
  lemma {:induction false} RepeatsAreFarApart(ids: seq<string>, i: nat, j: nat)
    requires i < j < |Accepted(ids)| && Accepted(ids)[i] == Accepted(ids)[j]
    ensures j - i > CAPACITY
    decreases |ids|
  {
    var before, id := Accepted(ids[..|ids| - 1]), ids[|ids| - 1];
    if j < |before| {
      RepeatsAreFarApart(ids[..|ids| - 1], i, j);
    } else {
      var last := LastOf(before, CAPACITY);
      var d := |before| - |last|;
      assert forall k | d <= k < |before| :: last[k - d] == before[k];
    }
  }

  function OfKind(es: seq<Event>, k: Kind): seq<Event> {
    if es == [] then [] else OfKind(es[..|es| - 1], k) + if es[|es| - 1].kind == k then [es[|es| - 1]] else []
  }

  lemma KindOneMore(es: seq<Event>, n: nat, k: Kind, e: Event)
    requires n <= |es|
    ensures OfKind((es + [e])[n..], k) == OfKind(es[n..], k) + if k == e.kind then [e] else []
  {
    assert (es + [e])[n..] == es[n..] + [e] && (es[n..] + [e])[..|es[n..]|] == es[n..];
  }

  /** A filtered channel carries the events of its kind since it was opened. */
  ghost predicate Channels(all: seq<Event>, filtered: map<Kind, seq<Event>>, since: map<Kind, nat>) {
    && since.Keys == filtered.Keys
    && forall k | k in filtered :: since[k] <= |all| && filtered[k] == OfKind(all[since[k]..], k)
  }

  function SentOn(filtered: map<Kind, seq<Event>>, e: Event): map<Kind, seq<Event>> {
    if e.kind in filtered then filtered[e.kind := filtered[e.kind] + [e]] else filtered
  }

  lemma SendKeepsChannels(all: seq<Event>, filtered: map<Kind, seq<Event>>, since: map<Kind, nat>, e: Event)
    requires Channels(all, filtered, since)
    ensures Channels(all + [e], SentOn(filtered, e), since)
  {
    hide OfKind;
    forall k | k in filtered
      ensures OfKind((all + [e])[since[k]..], k) == SentOn(filtered, e)[k]
    {
      KindOneMore(all, since[k], k, e);
    }
  }

  /** The hub; a channel is the list of events sent on it. */
  class UiStreamHub {
    var all: seq<Event>
    var filtered: map<Kind, seq<Event>>
    const published: PublishedEventCache
    ghost var since: map<Kind, nat>

    ghost predicate Valid()
      reads this, published
    {
      published.Valid() && Channels(all, filtered, since)
    }

    constructor ()
      ensures Valid() && fresh(published) && all == [] && filtered == map[]
    {
      all, filtered, since := [], map[], map[];
      published := new PublishedEventCache();
    }

    method Subscribe(kind: Option<Kind>)
      requires Valid()
      modifies this
      ensures Valid() && all == old(all)
      ensures filtered == if kind.None? || kind.value in old(filtered) then old(filtered)
              else old(filtered)[kind.value := []]
    {
      if kind.Some? && kind.value !in filtered {
        filtered := filtered[kind.value := []];
        since := since[kind.value := |all|];
      }
    }

    /** An ephemeral event always goes out, a persisted one unless the cache remembers it. */
    method Publish(e: Event)
      requires Valid()
      modifies this, published
      ensures Valid()
      ensures if e.cursor == 0 || e.id !in old(published.order)
              then all == old(all) + [e] && filtered == SentOn(old(filtered), e)
              else all == old(all) && filtered == old(filtered)
      ensures published.order ==
                if e.cursor == 0 || e.id in old(published.order) then old(published.order)
                else LastOf(old(published.order) + [e.id], CAPACITY)
    {
      hide Channels, LastOf;
      if e.cursor != 0 {
        var first := published.Remember(e.id);
        if !first {
          return;
        }
      }
      SendKeepsChannels(all, filtered, since, e);
      all := all + [e];
      if e.kind in filtered {
        filtered := filtered[e.kind := filtered[e.kind] + [e]];
      }
    }
  }

  /** A client that asks for one kind is sent the same over the filtered channel as over the full one. */
  lemma {:induction false} FilteredChannelIsEnough(v: View, c: int, es: seq<Event>, k: Kind)
    requires v.kind == Some(k)
    ensures Sent(v, c, OfKind(es, k)) == Sent(v, c, es) && Mark(v, c, OfKind(es, k)) == Mark(v, c, es)
  {
    if es != [] {
      var front, e := es[..|es| - 1], es[|es| - 1];
      FilteredChannelIsEnough(v, c, front, k);
      if e.kind == k {
        assert OfKind(es, k)[..|OfKind(front, k)|] == OfKind(front, k);
      } else {
        assert OfKind(es, k) == OfKind(front, k);
      }
    }
  }
}
