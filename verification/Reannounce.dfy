/**
  Re-announcement of local snapshots: a full pass in pages of ascending node id, then incremental
  pages in order of ingest stamp.  The table changes between pages.

  A node id is its rank in the database's order of ids; 0 is the empty id, from which a pass
  starts.  A row is visible while its source, if any, is active.
*/
module Reannounce {
  import opened Basics

  const BATCH: nat := 256

  /** The sort key of a row: incremental pages use stamp and node, full pages the node alone. */
  datatype Key = Key(stamp: int, node: nat)

  predicate Less(a: Key, b: Key) { a.stamp < b.stamp || (a.stamp == b.stamp && a.node < b.node) }

  datatype Row = Row(stamp: int, version: nat, visible: bool)

  type Table = map<nat, Row>

  datatype Cursor = Full(startedAt: int, node: nat) | Incremental(at: int, node: nat)

  // ----- Pages -----

  predicate Ascending(page: seq<Key>) { forall i, j | 0 <= i < j < |page| :: Less(page[i], page[j]) }

  /** The keys after a given one, in order, up to the limit. */
  predicate IsPage(keys: set<Key>, after: Key, limit: nat, page: seq<Key>) {
    && Ascending(page) && |page| <= limit
    && (forall k | k in page :: k in keys && Less(after, k))
    && (forall k | k in keys && Less(after, k) && k !in page ::
          |page| == limit && (page != [] ==> Less(page[|page| - 1], k)))
  }

  method LeastOf(keys: set<Key>) returns (least: Key)
    requires keys != {}
    ensures least in keys && forall k | k in keys && k != least :: Less(least, k)
  {
    var rest := keys;
    least :| least in rest;
    rest := rest - {least};
    while rest != {}
      invariant rest <= keys && least in keys - rest
      invariant forall k | k in keys && k !in rest && k != least :: Less(least, k)
      decreases rest
    {
      var k :| k in rest;
      if Less(k, least) {
        least := k;
      }
      rest := rest - {k};
    }
  }

  /** The paged query. */
  method ListAfter(keys: set<Key>, after: Key, limit: nat) returns (page: seq<Key>)
    ensures IsPage(keys, after, limit, page)
  {
    page := [];
    var rest := set k | k in keys && Less(after, k);
    while |page| < limit && rest != {}
      invariant Ascending(page) && |page| <= limit
      invariant forall k :: k in keys && Less(after, k) <==> k in rest || k in page
      invariant page != [] ==> forall k | k in rest :: Less(page[|page| - 1], k)
      decreases rest
    {
      var k := LeastOf(rest);
      page, rest := page + [k], rest - {k};
    }
  }

  function FullKeys(t: Table): set<Key> { set id | id in t && t[id].visible :: Key(0, id) }

  function IncrementalKeys(t: Table): set<Key> { set id | id in t && t[id].visible :: Key(t[id].stamp, id) }

  function KeysFor(c: Cursor, t: Table): set<Key> { if c.Full? then FullKeys(t) else IncrementalKeys(t) }

  function Position(c: Cursor): Key { if c.Full? then Key(0, c.node) else Key(c.at, c.node) }

  function NextCursor(c: Cursor, page: seq<Key>): Cursor {
    if c.Full? then
      if |page| >= BATCH then Full(c.startedAt, page[|page| - 1].node) else Incremental(c.startedAt, 0)
    else if page == [] then c
    else Incremental(page[|page| - 1].stamp, page[|page| - 1].node)
  }

  /** A request for a full pass starts one unless one is under way. */
  function StartAt(c: Option<Cursor>, full: bool, now: int): Option<Cursor> {
    if full && !(c.Some? && c.value.Full?) then Some(Full(now, 0)) else c
  }

  /** One call: the time at which it began, the table and time of its query, and what it announced. */
  datatype Call = Call(full: bool, begun: int, at: int, table: Table, page: seq<Key>)

  predicate Steps(c: Option<Cursor>, call: Call, c': Option<Cursor>) {
    var d := StartAt(c, call.full, call.begun);
    if d.None? then call.page == [] && c' == None
    else
      && IsPage(KeysFor(d.value, call.table), Position(d.value), BATCH, call.page)
      && c' == Some(NextCursor(d.value, call.page))
  }

  class Reannouncer {
    var cursor: Option<Cursor>

    constructor ()
      ensures cursor == None
    {
      cursor := None;
    }

    method ReannounceLocalSnapshots(full: bool, begun: int, at: int, table: Table) returns (page: seq<Key>, more: bool)
      modifies this
      ensures Steps(old(cursor), Call(full, begun, at, table, page), cursor)
      ensures more <==> StartAt(old(cursor), full, begun).None? || |page| >= BATCH
    {
      if full && (cursor.None? || !cursor.value.Full?) {
        cursor := Some(Full(begun, 0));
      }
      if cursor.None? {
        return [], true;
      }
      var c := cursor.value;
      page := ListAfter(KeysFor(c, table), Position(c), BATCH);
      more := |page| >= BATCH;
      if c.Full? {
        cursor := Some(if more then Full(c.startedAt, page[|page| - 1].node) else Incremental(c.startedAt, 0));
      } else if page != [] {
        cursor := Some(Incremental(page[|page| - 1].stamp, page[|page| - 1].node));
      }
    }
  }

  // ----- A full pass with the incremental pages after it -----

  /** A later table shows a row of an earlier one unchanged, or stamped after the earlier query. */
  predicate Later(a: Call, b: Call) {
    && a.at <= b.at
    && forall id | id in b.table ::
         b.table[id].stamp > a.at
         || (id in a.table && a.table[id].stamp == b.table[id].stamp && a.table[id].version == b.table[id].version)
  }

  predicate Stamped(call: Call) {
    call.begun <= call.at && forall id | id in call.table :: call.table[id].stamp <= call.at
  }

  /** Calls from the start of a full pass on; requests for another one are met only while it is under way. */
  predicate Pass(calls: seq<Call>, cursors: seq<Option<Cursor>>) {
    && |calls| > 0 && |cursors| == |calls| + 1
    && (forall i | 0 <= i < |calls| :: Steps(cursors[i], calls[i], cursors[i + 1]))
    && calls[0].full && (cursors[0].Some? ==> !cursors[0].value.Full?)
    && (forall i | 0 < i < |calls| && calls[i].full :: cursors[i].Some? && cursors[i].value.Full?)
  }

  predicate History(calls: seq<Call>) {
    && (forall i | 0 <= i < |calls| :: Stamped(calls[i]))
    && (forall i, j | 0 <= i < j < |calls| :: Later(calls[i], calls[j]))
  }

  /** The call takes a page of the full pass. */
  predicate OnFull(c: Option<Cursor>, call: Call) {
    var d := StartAt(c, call.full, call.begun);
    d.Some? && d.value.Full?
  }

  /**
    The row is visible on the pages that look for it once it is stored: on full pages if it was
    stamped before the pass began, on incremental pages otherwise.
  */
  predicate VisibleWhenDue(calls: seq<Call>, cursors: seq<Option<Cursor>>, id: nat, row: Row)
    requires |cursors| == |calls| + 1 && |calls| > 0
  {
    forall i | 0 <= i < |calls| && calls[i].at >= row.stamp && id in calls[i].table
               && (OnFull(cursors[i], calls[i]) <==> row.stamp < calls[0].begun) ::
      calls[i].table[id].visible
  }

  predicate Announces(call: Call, id: nat) { exists k :: k in call.page && k.node == id }

  predicate Holds(call: Call, id: nat, row: Row) {
    id in call.table && call.table[id].stamp == row.stamp && call.table[id].version == row.version
  }

  predicate Shows(call: Call, id: nat, row: Row) { Announces(call, id) && Holds(call, id, row) }

  predicate ShownBy(calls: seq<Call>, n: nat, id: nat, row: Row)
    requires n <= |calls|
  {
    exists i :: 0 <= i < n && Shows(calls[i], id, row)
  }

  /** How far a pass is with a row after some calls. */
  predicate Progress(calls: seq<Call>, n: nat, c: Option<Cursor>, id: nat, row: Row)
    requires 0 < n <= |calls|
  {
    && c.Some?
    && if c.value.Full? then
         && c.value.startedAt == calls[0].begun
         && (ShownBy(calls, n, id, row) || calls[0].begun <= row.stamp || c.value.node < id)
       else
         || ShownBy(calls, n, id, row)
         || (calls[0].begun <= row.stamp && Less(Position(c.value), Key(row.stamp, id)))
  }

  /** A page that does not reach past a key it could hold, holds it. */
  lemma PageReaches(keys: set<Key>, after: Key, page: seq<Key>, k: Key)
    requires IsPage(keys, after, BATCH, page) && k in keys && Less(after, k)
    ensures k in page || (|page| == BATCH && Less(page[|page| - 1], k))
  {
  }

  lemma FullStep(call: Call, c: Cursor, id: nat)
    requires c.Full? && c.node < id && id in call.table && call.table[id].visible
    requires IsPage(KeysFor(c, call.table), Position(c), BATCH, call.page)
    ensures Announces(call, id) || (NextCursor(c, call.page).Full? && NextCursor(c, call.page).node < id)
  {
    var k := Key(0, id);
    assert k in FullKeys(call.table);
    PageReaches(FullKeys(call.table), Position(c), call.page, k);
    if k in call.page {
      assert Announces(call, id);
    } else {
      var last := call.page[|call.page| - 1];
      assert last in call.page && last in FullKeys(call.table) && last.stamp == 0;
    }
  }

  lemma IncrementalStep(call: Call, c: Cursor, id: nat, row: Row)
    requires c.Incremental? && Less(Position(c), Key(row.stamp, id)) && Stamped(call)
    requires IsPage(KeysFor(c, call.table), Position(c), BATCH, call.page)
    requires row.stamp > call.at || (Holds(call, id, row) && call.table[id].visible)
    ensures Shows(call, id, row) || Less(Position(NextCursor(c, call.page)), Key(row.stamp, id))
    ensures row.stamp <= call.at && |call.page| < BATCH ==> Shows(call, id, row)
  {
    var k := Key(row.stamp, id);
    if row.stamp <= call.at {
      assert k in IncrementalKeys(call.table);
      PageReaches(IncrementalKeys(call.table), Position(c), call.page, k);
    } else if call.page != [] {
      var last := call.page[|call.page| - 1];
      assert last in IncrementalKeys(call.table);
    }
  }

  /** The row as it is at the end is already in every table queried after its stamp. */
  lemma Unchanged(calls: seq<Call>, j: nat, id: nat, row: Row)
    requires History(calls) && j < |calls| && Holds(calls[|calls| - 1], id, row)
    ensures row.stamp > calls[j].at || Holds(calls[j], id, row)
    ensures calls[0].begun <= calls[j].at
  {
    assert Stamped(calls[0]) && Stamped(calls[j]);
  }

  lemma FullProgress(calls: seq<Call>, cursors: seq<Option<Cursor>>, i: nat, id: nat, row: Row)
    requires Pass(calls, cursors) && History(calls) && i < |calls|
    requires id > 0 && Holds(calls[|calls| - 1], id, row) && VisibleWhenDue(calls, cursors, id, row)
    requires var d := StartAt(cursors[i], calls[i].full, calls[i].begun);
             && d.Some? && d.value.Full? && d.value.startedAt == calls[0].begun
             && (ShownBy(calls, i, id, row) || calls[0].begun <= row.stamp || d.value.node < id)
    ensures Progress(calls, i + 1, cursors[i + 1], id, row)
  {
    var c, call := StartAt(cursors[i], calls[i].full, calls[i].begun).value, calls[i];
    assert Steps(cursors[i], call, cursors[i + 1]) && OnFull(cursors[i], call);
    if row.stamp < calls[0].begun && !ShownBy(calls, i, id, row) {
      Unchanged(calls, i, id, row);
      FullStep(call, c, id);
      assert Announces(call, id) ==> Shows(calls[i], id, row);
    }
  }

  lemma IncrementalDue(calls: seq<Call>, cursors: seq<Option<Cursor>>, i: nat, id: nat, row: Row)
    requires Pass(calls, cursors) && History(calls) && 0 < i < |calls|
    requires Holds(calls[|calls| - 1], id, row) && VisibleWhenDue(calls, cursors, id, row)
    requires cursors[i].Some? && cursors[i].value.Incremental? && calls[0].begun <= row.stamp
    ensures row.stamp > calls[i].at || (Holds(calls[i], id, row) && calls[i].table[id].visible)
  {
    Unchanged(calls, i, id, row);
    assert !OnFull(cursors[i], calls[i]);
  }

  lemma {:induction false} PassProgresses(calls: seq<Call>, cursors: seq<Option<Cursor>>, i: nat, id: nat, row: Row)
    requires Pass(calls, cursors) && History(calls) && i < |calls|
    requires id > 0 && Holds(calls[|calls| - 1], id, row) && VisibleWhenDue(calls, cursors, id, row)
    ensures Progress(calls, i + 1, cursors[i + 1], id, row)
  {
    if i == 0 {
      FullProgress(calls, cursors, 0, id, row);
    } else {
      PassProgresses(calls, cursors, i - 1, id, row);
      if cursors[i].value.Full? {
        FullProgress(calls, cursors, i, id, row);
      } else if !ShownBy(calls, i, id, row) {
        assert Steps(cursors[i], calls[i], cursors[i + 1]) && Stamped(calls[i]);
        IncrementalDue(calls, cursors, i, id, row);
        IncrementalStep(calls[i], cursors[i].value, id, row);
      }
    }
  }

  /**
    A full pass and its incremental pages, up to a short one, announce every row as it is at the
    end, whether it was stored before the pass or during it, if it is visible when it is due.
  */
  lemma PassIsComplete(calls: seq<Call>, cursors: seq<Option<Cursor>>, id: nat, row: Row)
    requires Pass(calls, cursors) && History(calls)
    requires |calls| > 1 && cursors[|calls| - 1].Some? && cursors[|calls| - 1].value.Incremental?
             && |calls[|calls| - 1].page| < BATCH
    requires id > 0 && Holds(calls[|calls| - 1], id, row) && VisibleWhenDue(calls, cursors, id, row)
    ensures ShownBy(calls, |calls|, id, row)
  {
    var e := |calls| - 1;
    PassProgresses(calls, cursors, e - 1, id, row);
    if !ShownBy(calls, e, id, row) {
      assert Steps(cursors[e], calls[e], cursors[e + 1]) && Stamped(calls[e]);
      IncrementalDue(calls, cursors, e, id, row);
      IncrementalStep(calls[e], cursors[e].value, id, row);
    }
  }

  // ----- The number of pages -----

  function Beyond(t: Table, after: nat): set<nat> { set id | id in t && t[id].visible && id > after }

  lemma {:induction false} NodesOf(page: seq<Key>)
    requires Ascending(page) && forall k | k in page :: k.stamp == 0
    ensures |set k | k in page :: k.node| == |page|
  {
    if page != [] {
      var front, last := page[..|page| - 1], page[|page| - 1];
      assert page == front + [last];
      NodesOf(front);
      assert (set k | k in page :: k.node) == (set k | k in front :: k.node) + {last.node};
      assert forall k | k in front :: Less(k, last);
    }
  }

  /** A page takes its rows off what is left. */
  lemma PageTakes(t: Table, c: Cursor, page: seq<Key>)
    requires c.Full? && IsPage(KeysFor(c, t), Position(c), BATCH, page)
    ensures |page| == if |Beyond(t, c.node)| >= BATCH then BATCH else |Beyond(t, c.node)|
    ensures |page| == BATCH ==> |Beyond(t, page[|page| - 1].node)| == |Beyond(t, c.node)| - BATCH
  {
    var nodes := set k | k in page :: k.node;
    assert forall k | k in page :: k in FullKeys(t) && k.stamp == 0;
    NodesOf(page);
    var rest := Beyond(t, c.node) - nodes;
    assert nodes <= Beyond(t, c.node);
    assert |Beyond(t, c.node)| == |nodes| + |rest|;
    forall id | id in rest
      ensures |page| == BATCH && page[|page| - 1].node < id
    {
      assert Key(0, id) in FullKeys(t);
      PageReaches(FullKeys(t), Position(c), page, Key(0, id));
    }
    if |page| == BATCH {
      var last := page[|page| - 1];
      assert forall k | k in page :: k == last || Less(k, last);
      assert Beyond(t, last.node) == rest;
    } else {
      assert rest == {};
    }
  }

  /** On a table that does not change, with n visible rows, the full pass takes n / 256 + 1 pages. */
  lemma {:induction false} FullPassLength(t: Table, calls: seq<Call>, cursors: seq<Option<Cursor>>, i: nat)
    requires Pass(calls, cursors) && forall j | 0 <= j < |calls| :: calls[j].table == t
    requires i < |calls| && i <= |Beyond(t, 0)| / BATCH
    ensures cursors[i + 1].Some?
    ensures cursors[i + 1].value.Full? <==> i < |Beyond(t, 0)| / BATCH
    ensures cursors[i + 1].value.Full? ==> |Beyond(t, cursors[i + 1].value.node)| == |Beyond(t, 0)| - BATCH * (i + 1)
    ensures |calls[i].page| == if i < |Beyond(t, 0)| / BATCH then BATCH else |Beyond(t, 0)| % BATCH
  {
    assert Steps(cursors[i], calls[i], cursors[i + 1]);
    if i > 0 {
      FullPassLength(t, calls, cursors, i - 1);
    }
    var c := StartAt(cursors[i], calls[i].full, calls[i].begun).value;
    assert |Beyond(t, c.node)| == |Beyond(t, 0)| - BATCH * i;
    PageTakes(t, c, calls[i].page);
  }
}
