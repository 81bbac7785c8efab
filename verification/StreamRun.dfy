/**
  A stream client beside the writers: events are committed to the table and published to the hub
  while the client subscribes, queries its replay and hears the hub, in any interleaving.

  Commits follow cursor order, an event is published after its commit, and first publications
  follow cursor order; an event may be published again at any time.  The client does not lag.
*/
module StreamRun {
  import opened Basics
  import opened UiStream

  /** The table as the replay query saw it, and the rows it got. */
  datatype Replay = Replay(table: set<Event>, rows: seq<Event>)

  /** The client hears the hub from its subscription on, and has heard some of it. */
  datatype Client = Client(from: nat, replay: Option<Replay>, heard: nat)

  datatype State = State(table: set<Event>, log: seq<Event>, client: Option<Client>)

  const INIT: State := State({}, [], None)

  /** What the client asked for, from which cursor, and the active sources. */
  datatype Session = Session(view: View, cursor: int, active: set<string>)

  datatype Action =
    | Commit(event: Event)
    | Publish(event: Event)
    | Subscribe
    | Query(rows: seq<Event>)
    | Hear

  /**
    What the client gets of the replay: selected rows in order, up to the limit.  A query that
    fails gives none, and a row that cannot be decoded is passed over.
  */
  predicate Obtained(q: Session, table: set<Event>, rows: seq<Event>) {
    && (forall e | e in rows :: e in Selected(q.view, q.cursor, q.active, table))
    && (forall i, j | 0 <= i < j < |rows| :: rows[i].cursor < rows[j].cursor)
    && |rows| <= Limit(q.view)
  }

  predicate Enabled(q: Session, s: State, a: Action) {
    match a
    case Commit(e) => e.cursor > 0 && forall x | x in s.table :: x.cursor < e.cursor
    case Publish(e) => e.cursor <= 0 || (e in s.table && (e in s.log || forall x | x in s.log :: x.cursor < e.cursor))
    case Subscribe => s.client.None?
    case Query(rows) => s.client.Some? && s.client.value.replay.None? && Obtained(q, s.table, rows)
    case Hear => s.client.Some? && s.client.value.replay.Some? && s.client.value.from + s.client.value.heard < |s.log|
  }

  function Next(q: Session, s: State, a: Action): State
    requires Enabled(q, s, a)
  {
    match a
    case Commit(e) => s.(table := s.table + {e})
    case Publish(e) => s.(log := s.log + [e])
    case Subscribe => s.(client := Some(Client(|s.log|, None, 0)))
    case Query(rows) => s.(client := Some(s.client.value.(replay := Some(Replay(s.table, rows)))))
    case Hear => s.(client := Some(s.client.value.(heard := s.client.value.heard + 1)))
  }

  ghost predicate Run(q: Session, s: State, acts: seq<Action>, s': State)
    decreases |acts|
  {
    if acts == [] then s == s'
    else Enabled(q, s, acts[0]) && Run(q, Next(q, s, acts[0]), acts[1..], s')
  }

  ghost predicate Reachable(q: Session, s: State) { exists acts :: Run(q, INIT, acts, s) }

  // ----- What every step keeps -----

  /** Persisted events on the hub are in the table, each first time above everything before it. */
  ghost predicate Published(s: State) {
    && (forall x | x in s.log :: x.cursor <= 0 || x in s.table)
    && (forall i, j | 0 <= i < j < |s.log| && s.log[j].cursor > 0 && s.log[j] !in s.log[..j] ::
          s.log[i].cursor < s.log[j].cursor)
  }

  /**
    What was published before the subscription is in the table that the replay saw; what was committed after
    it lies above.
  */
  ghost predicate Followed(q: Session, s: State) {
    s.client.Some? ==>
      var c := s.client.value;
      && c.from + c.heard <= |s.log|
      && (c.replay.Some? ==>
            && c.replay.value.table <= s.table
            && Obtained(q, c.replay.value.table, c.replay.value.rows)
            && (forall e, x | e in s.table && e !in c.replay.value.table && x in c.replay.value.table ::
                  x.cursor < e.cursor)
            && (forall x | x in s.log[..c.from] :: x.cursor <= 0 || x in c.replay.value.table))
  }

  ghost predicate Inv(q: Session, s: State) { Published(s) && Followed(q, s) }

  lemma NextKeepsInv(q: Session, s: State, a: Action)
    requires Inv(q, s) && Enabled(q, s, a)
    ensures Inv(q, Next(q, s, a))
  {
    var s' := Next(q, s, a);
    hide IsReplay;
    if a.Publish? {
      assert forall j | 0 <= j <= |s.log| :: s'.log[..j] == s.log[..j];
      assert s'.log[|s.log|] == a.event;
    } else if a.Query? {
      assert forall x | x in s.log[..s.client.value.from] :: x in s.log;
    }
  }

  lemma {:induction false} RunKeepsInv(q: Session, s: State, acts: seq<Action>, s': State)
    requires Inv(q, s) && Run(q, s, acts, s')
    ensures Inv(q, s')
    decreases |acts|
  {
    hide Inv, Enabled, Next;
    if acts != [] {
      NextKeepsInv(q, s, acts[0]);
      RunKeepsInv(q, Next(q, s, acts[0]), acts[1..], s');
    }
  }

  lemma ReachableInv(q: Session, s: State)
    requires Reachable(q, s)
    ensures Inv(q, s)
  {
    var acts :| Run(q, INIT, acts, s);
    RunKeepsInv(q, INIT, acts, s);
  }

  // ----- What the client is sent -----

  predicate Visible(q: Session, e: Event) { e.source.Some? ==> e.source.value in q.active }

  /** The replay gave the client everything that was selected. */
  predicate Whole(q: Session, s: State) {
    && s.client.Some? && s.client.value.replay.Some?
    && var r := s.client.value.replay.value;
       forall e | e in Selected(q.view, q.cursor, q.active, r.table) :: e in r.rows
  }

  /** A query that succeeds and whose rows all decode is whole exactly within the limit. */
  lemma WholeIff(q: Session, s: State)
    requires s.client.Some? && s.client.value.replay.Some?
    requires var r := s.client.value.replay.value; IsReplay(q.view, q.cursor, q.active, r.table, r.rows)
    ensures Whole(q, s) <==>
            |Selected(q.view, q.cursor, q.active, s.client.value.replay.value.table)| <= Limit(q.view)
  {
    var r := s.client.value.replay.value;
    ReplayIsWholeIff(q.view, q.cursor, q.active, r.table, r.rows);
  }

  /** The replayed rows, then what was heard. */
  function Input(s: State): seq<Event>
    requires s.client.Some? && s.client.value.replay.Some? && s.client.value.from + s.client.value.heard <= |s.log|
  {
    var c := s.client.value;
    c.replay.value.rows + s.log[c.from..c.from + c.heard]
  }

  /** A position of the input beyond the rows is one of the hub's. */
  function OnHub(s: State, j: nat): nat
    requires s.client.Some? && s.client.value.replay.Some? && j >= |s.client.value.replay.value.rows|
  {
    s.client.value.from + (j - |s.client.value.replay.value.rows|)
  }

  lemma InputAt(s: State, i: nat)
    requires s.client.Some? && s.client.value.replay.Some? && s.client.value.from + s.client.value.heard <= |s.log|
    requires i < |s.client.value.replay.value.rows| + s.client.value.heard
    ensures |Input(s)| == |s.client.value.replay.value.rows| + s.client.value.heard
    ensures var rows := s.client.value.replay.value.rows;
            Input(s)[i] == if i < |rows| then rows[i] else s.log[OnHub(s, i)]
  {
  }

  predicate IsNew(es: seq<Event>, j: nat)
    requires j < |es|
  {
    forall i | 0 <= i < j :: es[i] != es[j]
  }

  /** A visible event that is new when it is heard was not on the hub before the subscription, nor since. */
  lemma NewOnHub(q: Session, s: State, j: nat, i: nat)
    requires Inv(q, s) && Whole(q, s) && j < |Input(s)| && j >= |s.client.value.replay.value.rows|
             && i < OnHub(s, j) < |s.log|
    requires IsNew(Input(s), j) && Input(s)[j] !in s.client.value.replay.value.table && Input(s)[j].cursor > 0
    ensures s.log[i] != Input(s)[j]
  {
    hide Obtained, Selected, Limit;
    var c := s.client.value;
    if i < c.from {
      assert s.log[i] in s.log[..c.from];
    } else {
      InputAt(s, i - c.from + |c.replay.value.rows|);
    }
  }

  /** Nor was it in the table that the replay saw. */
  lemma NewInTable(q: Session, s: State, j: nat)
    requires Inv(q, s) && Whole(q, s) && j < |Input(s)| && j >= |s.client.value.replay.value.rows|
    requires Visible(q, Input(s)[j]) && Wanted(q.view, q.cursor, Input(s)[j]) && IsNew(Input(s), j)
    ensures Input(s)[j] !in s.client.value.replay.value.table
  {
    var table, rows, e := s.client.value.replay.value.table, s.client.value.replay.value.rows, Input(s)[j];
    SelectedIf(q, table, e);
    forall i: nat | i < |rows|
      ensures rows[i] != e
    {
      InputAt(s, i);
    }
  }

  lemma SelectedIf(q: Session, table: set<Event>, e: Event)
    requires Visible(q, e) && Wanted(q.view, q.cursor, e)
    ensures e in table ==> e in Selected(q.view, q.cursor, q.active, table)
  {
  }

  /** It lies above all that came before. */
  lemma HeardInOrder(q: Session, s: State, j: nat, i: nat)
    requires Inv(q, s) && Whole(q, s) && i < j < |Input(s)| && j >= |s.client.value.replay.value.rows|
    requires Visible(q, Input(s)[j]) && Wanted(q.view, q.cursor, Input(s)[j]) && IsNew(Input(s), j)
    ensures Input(s)[i].cursor < Input(s)[j].cursor
  {
    NewInTable(q, s, j);
    InputAt(s, i);
    InputAt(s, j);
    var rows, e, k := s.client.value.replay.value.rows, Input(s)[j], OnHub(s, j);
    assert e == s.log[k] && e in s.log;
    forall x: nat | x < k
      ensures s.log[x] != e
    {
      NewOnHub(q, s, j, x);
    }
    hide Input;
    if i < |rows| {
      assert Input(s)[i] in rows;
    } else {
      assert e !in s.log[..k];
    }
  }

  /** Events that are visible come in order, however replay and live events overlap. */
  lemma RunIsInOrder(q: Session, s: State, j: nat)
    requires Reachable(q, s) && Whole(q, s) && s.client.value.from + s.client.value.heard <= |s.log|
    requires j < |Input(s)| && Visible(q, Input(s)[j])
    ensures NewInOrder(q.view, q.cursor, Input(s), j)
  {
    ReachableInv(q, s);
    var rows, es := s.client.value.replay.value.rows, Input(s);
    if j < |rows| {
      assert forall i | 0 <= i <= j :: es[i] == rows[i];
    } else if Wanted(q.view, q.cursor, es[j]) && es[j] !in es[..j] {
      assert forall i | 0 <= i < j :: es[i] in es[..j];
      forall i: nat | i < j
        ensures es[i].cursor < es[j].cursor
      {
        HeardInOrder(q, s, j, i);
      }
    }
  }

  /** The client has heard everything, and everything committed has been published. */
  predicate CaughtUp(s: State) {
    && s.client.Some? && s.client.value.from + s.client.value.heard == |s.log|
    && forall e | e in s.table :: e in s.log
  }

  lemma EveryEventArrives(q: Session, s: State, e: Event)
    requires Inv(q, s) && Whole(q, s) && CaughtUp(s)
    requires e in s.table && Visible(q, e) && Wanted(q.view, q.cursor, e)
    ensures e in Input(s)
  {
    var c := s.client.value;
    var rows := c.replay.value.rows;
    SelectedIf(q, c.replay.value.table, e);
    hide Input, Obtained, Selected, Wanted;
    if e in c.replay.value.table {
      var i :| 0 <= i < |rows| && rows[i] == e;
      InputAt(s, i);
    } else {
      var k :| 0 <= k < |s.log| && s.log[k] == e;
      assert forall x: nat | x < c.from :: s.log[x] in s.log[..c.from];
      InputAt(s, |rows| + (k - c.from));
    }
  }

  predicate SentOnce(sent: seq<Event>, e: Event) {
    exists i :: 0 <= i < |sent| && sent[i] == e && forall k | 0 <= k < |sent| && sent[k] == e :: k == i
  }

  /**
    In every run: once the client has heard everything that was published, and if its replay was
    whole, each visible event above its cursor that matches its query was sent, exactly once, in
    the order of cursors.
  */
  lemma EveryEventIsSentOnce(q: Session, s: State, e: Event)
    requires Reachable(q, s) && Whole(q, s) && CaughtUp(s)
    requires e in s.table && Visible(q, e) && Wanted(q.view, q.cursor, e)
    ensures SentOnce(Sent(q.view, q.cursor, Input(s)), e)
    ensures Rising(Sent(q.view, q.cursor, Input(s)), q.cursor)
  {
    ReachableInv(q, s);
    EveryEventArrives(q, s, e);
    var es := Input(s);
    var j := FirstAt(es, e);
    RunIsInOrder(q, s, j);
    SendsIff(q.view, q.cursor, es, j);
    SentAt(q.view, q.cursor, es, j);
    SentRises(q.view, q.cursor, es);
    var sent := Sent(q.view, q.cursor, es);
    hide Sent, Input;
    var i :| 0 <= i < |sent| && sent[i] == e;
    assert forall k | 0 <= k < |sent| && sent[k] == e :: k == i;
  }
}
