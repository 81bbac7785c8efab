/**
  The gap ledger: dead letters of a mailbox are folded into one row per stream and hour, rows are
  shown on mailbox pages, and a committed page acknowledges the rows assigned to it.

  A gap id stands for the hash of the stream and the hour.  Drains stop between any two of their
  broker and database calls; a closed channel gives back the letters it holds.  A load selects its
  rows in one statement and assigns them in a second one.  It starts under a lease of its mailbox,
  which lasts as long as the redelivery delay and is not looked at again.  One clock serves broker,
  database and gateway.
*/
module Gaps {
  import opened Basics

  type LetterId = nat
  type PageId = nat
  type Drain = nat

  const HOUR: nat := 3_600_000

  datatype Reason = Expired | DeliveryLimitExceeded

  datatype Box = Box(network: string, principal: string, cls: Class)

  datatype Stream = Stream(box: Box, policy: nat, route: string, reason: Reason)

  /** What a gap id identifies. */
  datatype Cell = Cell(stream: Stream, hour: nat)

  datatype Row = Row(first: nat, last: nat, count: nat, page: Option<PageId>, delivered: nat, acked: Option<nat>)

  /** A dead letter; the mailbox comes from its queue name, a control has no source. */
  datatype Letter = Letter(box: Box, source: Option<string>, policy: nat, route: string, expired: bool)

  predicate Foreign(l: Letter) { l.source != Some(l.box.principal) }

  function StreamOf(l: Letter): Stream {
    Stream(l.box, l.policy, l.route, if l.expired then Expired else DeliveryLimitExceeded)
  }

  function CellOf(st: Stream, at: nat): Cell { Cell(st, at / HOUR) }

  // ----- Recording -----

  function Recorded(rows: map<Cell, Row>, st: Stream, at: nat): map<Cell, Row> {
    var c := CellOf(st, at);
    if c in rows
    then rows[c := rows[c].(last := if at > rows[c].last then at else rows[c].last, count := rows[c].count + 1)]
    else rows[c := Row(at, at, 1, None, 0, None)]
  }

  /** A call to record a gap, with the letter it was made for. */
  datatype Entry = Entry(letter: LetterId, stream: Stream, at: nat)

  function Where(e: Entry): Cell { CellOf(e.stream, e.at) }

  function RecordedAll(rows: map<Cell, Row>, log: seq<Entry>): map<Cell, Row> {
    if log == [] then rows
    else Recorded(RecordedAll(rows, log[..|log| - 1]), log[|log| - 1].stream, log[|log| - 1].at)
  }

  /** The calls that fall into a cell, in order. */
  function Calls(log: seq<Entry>, c: Cell): seq<Entry> {
    if log == [] then []
    else
      var front := Calls(log[..|log| - 1], c);
      if Where(log[|log| - 1]) == c then front + [log[|log| - 1]] else front
  }

  /** A row summarises its calls: their number, the time of the first one made, the latest time. */
  lemma {:induction false} RowSummarisesCalls(log: seq<Entry>, c: Cell)
    ensures c in RecordedAll(map[], log) <==> Calls(log, c) != []
    ensures c in RecordedAll(map[], log) ==>
              var row, calls := RecordedAll(map[], log)[c], Calls(log, c);
              && row.count == |calls| && row.first == calls[0].at
              && (forall e | e in calls :: e.at <= row.last) && (exists e :: e in calls && e.at == row.last)
  {
    if log != [] {
      var front, last := log[..|log| - 1], log[|log| - 1];
      RowSummarisesCalls(front, c);
      if Where(last) == c {
        assert last in Calls(log, c);
        if c in RecordedAll(map[], front) {
          var e :| e in Calls(front, c) && e.at == RecordedAll(map[], front)[c].last;
          assert e in Calls(log, c);
        }
      }
    }
  }

  // ----- The system -----

  datatype LetterPlace = Waiting | Held(drain: Drain, recorded: bool) | Done

  datatype Lease = Lease(page: PageId, expires: nat)

  /** A pull that has acquired the lease and not yet selected rows. */
  datatype Pull = Pull(box: Box, since: nat)

  /** A load between its two statements. */
  datatype Selection = Selection(box: Box, since: nat, at: nat, cells: set<Cell>)

  /** Leases and loads; `late` holds the rows last assigned by a load whose lease had run out. */
  datatype Desk = Desk(
    leases: map<Box, Lease>,
    pulls: map<PageId, Pull>,
    selected: map<PageId, Selection>,
    used: set<PageId>,
    late: set<Cell>)

  datatype State = State(
    now: nat,
    rows: map<Cell, Row>,
    letters: map<LetterId, Letter>,
    place: map<LetterId, LetterPlace>,
    log: seq<Entry>,
    cleaned: map<Cell, nat>,
    desk: Desk,
    shown: set<(PageId, Cell)>,
    committed: set<PageId>)

  const INIT: State := State(0, map[], map[], map[], [], map[], Desk(map[], map[], map[], {}, {}), {}, {})

  /** The redelivery delay, which is also the lease; the retention of acknowledged rows; how long a load can take. */
  datatype Config = Config(delay: nat, retention: nat, bound: nat)

  datatype Action =
    | Tick(ms: nat)
    | Arrive(id: LetterId, letter: Letter)
    | Get(id: LetterId, drain: Drain)
    | Record(id: LetterId)
    | AckLetter(id: LetterId)
    | Crash(drain: Drain)
    | Acquire(page: PageId, box: Box)
    | Select(page: PageId, cells: set<Cell>, limit: nat)
    | Assign(page: PageId)
    | DropLoad(page: PageId)
    | Release(page: PageId, box: Box)
    | AckPage(page: PageId, box: Box)
    | Cleanup(cell: Cell)

  predicate Eligible(k: Config, s: State, page: PageId, b: Box, c: Cell) {
    && c in s.rows && c.stream.box == b && s.rows[c].acked.None?
    && (s.rows[c].page.None? || s.rows[c].page == Some(page) || s.rows[c].delivered + k.delay <= s.now)
  }

  /** The rows of a select: eligible, up to the limit, earliest first. */
  predicate IsSelection(k: Config, s: State, page: PageId, b: Box, cells: set<Cell>, limit: nat) {
    && (forall c | c in cells :: Eligible(k, s, page, b, c))
    && |cells| <= limit
    && (forall d | d in s.rows && Eligible(k, s, page, b, d) && d !in cells ::
          |cells| == limit && forall c | c in cells :: c in s.rows && s.rows[c].first <= s.rows[d].first)
  }

  predicate Live(s: State, b: Box) { b in s.desk.leases && s.desk.leases[b].expires > s.now }

  predicate Enabled(k: Config, s: State, a: Action) {
    match a
    case Tick(_) => true
    case Arrive(id, _) => id !in s.letters
    case Get(id, _) => id in s.place && s.place[id] == Waiting
    case Record(id) => id in s.letters && id in s.place && s.place[id].Held? && !s.place[id].recorded
        && Foreign(s.letters[id])
    case AckLetter(id) => id in s.letters && id in s.place && s.place[id].Held?
        && (s.place[id].recorded || !Foreign(s.letters[id]))
    case Crash(_) => true
    case Acquire(p, b) => p !in s.desk.used && !Live(s, b)
    case Select(p, cells, limit) => p in s.desk.pulls && IsSelection(k, s, p, s.desk.pulls[p].box, cells, limit)
    case Assign(p) => p in s.desk.selected && s.now < s.desk.selected[p].since + k.bound
    case DropLoad(p) => p in s.desk.pulls || p in s.desk.selected
    case Release(p, b) =>
      b in s.desk.leases && s.desk.leases[b].page == p && p !in s.desk.pulls && p !in s.desk.selected
    case AckPage(_, _) => true
    case Cleanup(c) => c in s.rows && s.rows[c].acked.Some? && s.rows[c].acked.value + k.retention <= s.now
  }

  predicate Takes(sel: Selection, c: Cell, row: Row) { c in sel.cells && row.acked.None? }

  function Assigned(rows: map<Cell, Row>, sel: Selection, p: PageId, now: nat): map<Cell, Row> {
    map c | c in rows :: if Takes(sel, c, rows[c]) then rows[c].(page := Some(p), delivered := now) else rows[c]
  }

  function Acknowledged(rows: map<Cell, Row>, p: PageId, b: Box, now: nat): map<Cell, Row> {
    map c | c in rows ::
      if c.stream.box == b && rows[c].page == Some(p) && rows[c].acked.None?
      then rows[c].(acked := Some(now)) else rows[c]
  }

  function CleanedOf(cleaned: map<Cell, nat>, c: Cell): nat { if c in cleaned then cleaned[c] else 0 }

  function Next(k: Config, s: State, a: Action): State
    requires Enabled(k, s, a)
  {
    match a
    case Tick(d) => s.(now := s.now + d)
    case Arrive(id, l) => s.(letters := s.letters[id := l], place := s.place[id := Waiting])
    case Get(id, d) => s.(place := s.place[id := Held(d, false)])
    case Record(id) =>
      s.(rows := Recorded(s.rows, StreamOf(s.letters[id]), s.now),
         log := s.log + [Entry(id, StreamOf(s.letters[id]), s.now)],
         place := s.place[id := s.place[id].(recorded := true)])
    case AckLetter(id) => s.(place := s.place[id := Done])
    case Crash(d) =>
      s.(place := map id | id in s.place ::
                    if s.place[id].Held? && s.place[id].drain == d then Waiting else s.place[id])
    case Acquire(p, b) =>
      s.(desk := s.desk.(leases := s.desk.leases[b := Lease(p, s.now + k.delay)],
                         pulls := s.desk.pulls[p := Pull(b, s.now)],
                         used := s.desk.used + {p}))
    case Select(p, cells, _) =>
      var pull := s.desk.pulls[p];
      s.(desk := s.desk.(pulls := s.desk.pulls - {p},
                         selected := s.desk.selected[p := Selection(pull.box, pull.since, s.now, cells)]))
    case Assign(p) =>
      var sel := s.desk.selected[p];
      s.(rows := Assigned(s.rows, sel, p, s.now),
         shown := s.shown + set c | c in sel.cells :: (p, c),
         desk := s.desk.(selected := s.desk.selected - {p},
                         late := if s.now < sel.since + k.delay then s.desk.late - sel.cells
                                 else s.desk.late + sel.cells))
    case DropLoad(p) => s.(desk := s.desk.(pulls := s.desk.pulls - {p}, selected := s.desk.selected - {p}))
    case Release(p, b) => s.(desk := s.desk.(leases := s.desk.leases - {b}))
    case AckPage(p, b) => s.(rows := Acknowledged(s.rows, p, b, s.now), committed := s.committed + {p})
    case Cleanup(c) => s.(rows := s.rows - {c}, cleaned := s.cleaned[c := CleanedOf(s.cleaned, c) + s.rows[c].count])
  }

  ghost predicate Run(k: Config, s: State, acts: seq<Action>, s': State)
    decreases |acts|
  {
    if acts == [] then s == s'
    else Enabled(k, s, acts[0]) && Run(k, Next(k, s, acts[0]), acts[1..], s')
  }

  ghost predicate Reachable(k: Config, s: State) { exists acts :: Run(k, INIT, acts, s) }

  // ----- What every step keeps -----

  function CountOf(s: State, c: Cell): nat { (if c in s.rows then s.rows[c].count else 0) + CleanedOf(s.cleaned, c) }

  /** Counts, with what was cleaned up, are the calls. */
  ghost predicate Counts(s: State) { forall c: Cell :: CountOf(s, c) == |Calls(s.log, c)| }

  ghost predicate Times(s: State) {
    forall c | c in s.rows ::
        s.rows[c].first <= s.rows[c].last && s.rows[c].first / HOUR == c.hour && s.rows[c].last / HOUR == c.hour
  }

  predicate HasEntry(s: State, id: LetterId, st: Stream) {
    exists i :: 0 <= i < |s.log| && s.log[i].letter == id && s.log[i].stream == st
  }

  /** A foreign letter is recorded before it leaves. */
  ghost predicate Letters(s: State) {
    && s.letters.Keys == s.place.Keys
    && forall id | id in s.letters && id in s.place && Foreign(s.letters[id])
         && (s.place[id].Done? || (s.place[id].Held? && s.place[id].recorded)) ::
               HasEntry(s, id, StreamOf(s.letters[id]))
  }

  ghost predicate Pages(s: State) {
    && (forall c | c in s.rows && s.rows[c].page.Some? ::
          (s.rows[c].page.value, c) in s.shown && s.rows[c].delivered <= s.now)
    && (forall c | c in s.rows && s.rows[c].acked.Some? :: s.rows[c].page.Some? && s.rows[c].page.value in s.committed)
  }

  /** A load that has not run past its lease still has it. */
  ghost predicate Leased(k: Config, s: State) {
    && (forall p | p in s.desk.pulls ::
          var pull := s.desk.pulls[p];
          && p in s.desk.used && pull.since <= s.now
          && (s.now < pull.since + k.delay ==>
                pull.box in s.desk.leases && s.desk.leases[pull.box] == Lease(p, pull.since + k.delay)))
    && (forall p | p in s.desk.selected ::
          var sel := s.desk.selected[p];
          && p in s.desk.used && sel.at <= s.now
          && (s.now < sel.since + k.delay ==>
                sel.box in s.desk.leases && s.desk.leases[sel.box] == Lease(p, sel.since + k.delay)))
    && (k.bound <= k.delay ==> s.desk.late == {})
  }

  ghost predicate Boxes(s: State) {
    forall p, c | p in s.desk.selected && c in s.desk.selected[p].cells :: c.stream.box == s.desk.selected[p].box
  }

  /** A load within its lease selected rows that other pages, if not late themselves, had held for the delay. */
  ghost predicate Loads(k: Config, s: State) {
    && Boxes(s)
    && (forall p, c | HeldByOther(s, p, c) && s.now < s.desk.selected[p].since + k.delay && c !in s.desk.late ::
          s.rows[c].delivered + k.delay <= s.desk.selected[p].at)
  }

  /** A row that a load is about to take is with another page. */
  predicate HeldByOther(s: State, p: PageId, c: Cell) {
    && p in s.desk.selected && c in s.rows && Takes(s.desk.selected[p], c, s.rows[c])
    && s.rows[c].page.Some? && s.rows[c].page != Some(p)
  }

  ghost predicate Inv(k: Config, s: State) {
    Counts(s) && Times(s) && Letters(s) && Pages(s) && Leased(k, s) && Loads(k, s)
  }

  lemma NextKeepsCounts(k: Config, s: State, a: Action)
    requires Counts(s) && Enabled(k, s, a)
    ensures Counts(Next(k, s, a))
  {
    var s' := Next(k, s, a);
    forall c: Cell
      ensures CountOf(s', c) == |Calls(s'.log, c)|
    {
      assert CountOf(s, c) == |Calls(s.log, c)|;
      if a.Record? {
        assert s'.log[..|s'.log| - 1] == s.log;
      }
    }
  }

  lemma NextKeepsTimes(k: Config, s: State, a: Action)
    requires Times(s) && Enabled(k, s, a)
    ensures Times(Next(k, s, a))
  {
  }

  lemma NextKeepsLetters(k: Config, s: State, a: Action)
    requires Letters(s) && Enabled(k, s, a)
    ensures Letters(Next(k, s, a))
  {
    var s' := Next(k, s, a);
    forall id | id in s'.letters && id in s'.place && Foreign(s'.letters[id])
      && (s'.place[id].Done? || (s'.place[id].Held? && s'.place[id].recorded))
      ensures HasEntry(s', id, StreamOf(s'.letters[id]))
    {
      if a.Record? && a.id == id {
        assert s'.log[|s.log|] == Entry(id, StreamOf(s.letters[id]), s.now);
      } else {
        assert HasEntry(s, id, StreamOf(s.letters[id]));
        var i :| 0 <= i < |s.log| && s.log[i].letter == id && s.log[i].stream == StreamOf(s.letters[id]);
        assert s'.log[i] == s.log[i];
      }
    }
  }

  lemma NextKeepsPages(k: Config, s: State, a: Action)
    requires Pages(s) && Enabled(k, s, a)
    ensures Pages(Next(k, s, a))
  {
  }

  /** Apart from an assignment, a step leaves each row with its page or makes a new row. */
  lemma MostStepsKeepPages(k: Config, s: State, a: Action, c: Cell)
    requires Enabled(k, s, a) && !a.Assign? && c in Next(k, s, a).rows
    ensures var row' := Next(k, s, a).rows[c];
            if c in s.rows then row'.page == s.rows[c].page && row'.delivered == s.rows[c].delivered
                && (row'.acked.None? ==> s.rows[c].acked.None?)
            else row'.page.None?
  {
  }

  predicate AtDesk(a: Action) { a.Acquire? || a.Select? || a.Assign? || a.DropLoad? || a.Release? }

  lemma DeskKept(k: Config, s: State, a: Action)
    requires Enabled(k, s, a)
    ensures s.now <= Next(k, s, a).now && (!AtDesk(a) ==> Next(k, s, a).desk == s.desk)
  {
  }

  lemma LaterIsLeased(k: Config, s: State, s': State)
    requires Leased(k, s) && s'.desk == s.desk && s.now <= s'.now
    ensures Leased(k, s')
  {
  }

  lemma NextKeepsLeased(k: Config, s: State, a: Action)
    requires Leased(k, s) && Enabled(k, s, a)
    ensures Leased(k, Next(k, s, a))
  {
    hide Leased, Enabled, Next;
    DeskKept(k, s, a);
    if AtDesk(a) {
      DeskStepKeepsLeased(k, s, a);
    } else {
      LaterIsLeased(k, s, Next(k, s, a));
    }
  }

  lemma DeskStepKeepsLeased(k: Config, s: State, a: Action)
    requires Leased(k, s) && Enabled(k, s, a) && AtDesk(a)
    ensures Leased(k, Next(k, s, a))
  {
  }

  /** Two loads of a mailbox are not both within their leases. */
  lemma OtherIsLate(k: Config, s: State, p: PageId, q: PageId)
    requires Leased(k, s) && p in s.desk.selected && q in s.desk.selected && p != q
    requires s.desk.selected[p].box == s.desk.selected[q].box && s.now < s.desk.selected[p].since + k.delay
    ensures s.desk.selected[q].since + k.delay <= s.now
  {
  }

  lemma AssignKeepsLoads(k: Config, s: State, a: Action, p: PageId, c: Cell)
    requires Leased(k, s) && Loads(k, s) && Enabled(k, s, a) && a.Assign? && p in s.desk.selected
    requires var s' := Next(k, s, a);
             HeldByOther(s', p, c) && s'.now < s'.desk.selected[p].since + k.delay && c !in s'.desk.late
    ensures var s' := Next(k, s, a); s'.rows[c].delivered + k.delay <= s'.desk.selected[p].at
  {
    var q := a.page;
    if c in s.desk.selected[q].cells {
      OtherIsLate(k, s, p, q);
    }
  }

  /** Apart from an assignment and its own select, a step leaves a load as it was. */
  lemma SelectionStays(k: Config, s: State, a: Action, p: PageId)
    requires Enabled(k, s, a) && !a.Assign? && !(a.Select? && a.page == p) && p in Next(k, s, a).desk.selected
    ensures p in s.desk.selected && Next(k, s, a).desk.selected[p] == s.desk.selected[p]
            && Next(k, s, a).desk.late == s.desk.late
  {
  }

  lemma SelectKeepsLoads(k: Config, s: State, a: Action, c: Cell)
    requires Enabled(k, s, a) && a.Select? && HeldByOther(Next(k, s, a), a.page, c)
    ensures s.rows[c].delivered + k.delay <= s.now && Next(k, s, a).rows == s.rows
    ensures Next(k, s, a).desk.selected[a.page].at == s.now
  {
    assert Eligible(k, s, a.page, s.desk.pulls[a.page].box, c);
  }

  lemma NextKeepsLoads(k: Config, s: State, a: Action)
    requires Leased(k, s) && Loads(k, s) && Enabled(k, s, a)
    ensures Loads(k, Next(k, s, a))
  {
    hide Enabled, Next, Leased;
    var s' := Next(k, s, a);
    NextKeepsBoxes(k, s, a);
    DeskKept(k, s, a);
    forall p, c | HeldByOther(s', p, c) && s'.now < s'.desk.selected[p].since + k.delay && c !in s'.desk.late
      ensures s'.rows[c].delivered + k.delay <= s'.desk.selected[p].at
    {
      if a.Assign? {
        AssignStays(k, s, a, p);
        AssignKeepsLoads(k, s, a, p, c);
      } else if a.Select? && a.page == p {
        SelectKeepsLoads(k, s, a, c);
      } else {
        SelectionStays(k, s, a, p);
        MostStepsKeepPages(k, s, a, c);
      }
    }
  }

  lemma NextKeepsBoxes(k: Config, s: State, a: Action)
    requires Boxes(s) && Enabled(k, s, a)
    ensures Boxes(Next(k, s, a))
  {
    if a.Select? {
      assert forall c | c in a.cells :: Eligible(k, s, a.page, s.desk.pulls[a.page].box, c);
    }
  }

  lemma AssignStays(k: Config, s: State, a: Action, p: PageId)
    requires Enabled(k, s, a) && a.Assign? && p in Next(k, s, a).desk.selected
    ensures p in s.desk.selected
  {
  }

  lemma NextKeepsInv(k: Config, s: State, a: Action)
    requires Inv(k, s) && Enabled(k, s, a)
    ensures Inv(k, Next(k, s, a))
  {
    hide Counts, Times, Letters, Pages, Leased, Loads, Enabled, Next;
    NextKeepsLeased(k, s, a);
    NextKeepsCounts(k, s, a);
    NextKeepsTimes(k, s, a);
    NextKeepsLetters(k, s, a);
    NextKeepsPages(k, s, a);
    NextKeepsLoads(k, s, a);
  }

  lemma {:induction false} RunKeepsInv(k: Config, s: State, acts: seq<Action>, s': State)
    requires Inv(k, s) && Run(k, s, acts, s')
    ensures Inv(k, s')
    decreases |acts|
  {
    hide Inv, Enabled, Next;
    if acts != [] {
      NextKeepsInv(k, s, acts[0]);
      RunKeepsInv(k, Next(k, s, acts[0]), acts[1..], s');
    }
  }

  lemma ReachableInv(k: Config, s: State)
    requires Reachable(k, s)
    ensures Inv(k, s)
  {
    var acts :| Run(k, INIT, acts, s);
    assert Inv(k, INIT);
    RunKeepsInv(k, INIT, acts, s);
  }

  // ----- Counting -----

  ghost function Total(s: State, cells: set<Cell>): nat {
    if cells == {} then 0 else var c :| c in cells; CountOf(s, c) + Total(s, cells - {c})
  }

  /** The calls that fall into a set of cells. */
  function CallsIn(log: seq<Entry>, cells: set<Cell>): seq<Entry> {
    if log == [] then []
    else
      var front := CallsIn(log[..|log| - 1], cells);
      if Where(log[|log| - 1]) in cells then front + [log[|log| - 1]] else front
  }

  lemma {:induction false} SplitCalls(log: seq<Entry>, cells: set<Cell>, c: Cell)
    requires c in cells
    ensures |CallsIn(log, cells)| == |Calls(log, c)| + |CallsIn(log, cells - {c})|
  {
    if log != [] {
      SplitCalls(log[..|log| - 1], cells, c);
    }
  }

  lemma {:induction false} NoCells(log: seq<Entry>)
    ensures CallsIn(log, {}) == []
  {
    if log != [] {
      NoCells(log[..|log| - 1]);
    }
  }

  /** The counts of any set of rows, with what was cleaned up, are the calls that fell into them. */
  lemma {:induction false} CountsAreCalls(k: Config, s: State, cells: set<Cell>)
    requires Reachable(k, s)
    ensures Total(s, cells) == |CallsIn(s.log, cells)|
    decreases cells
  {
    ReachableInv(k, s);
    if cells == {} {
      NoCells(s.log);
    } else {
      var c :| c in cells && Total(s, cells) == CountOf(s, c) + Total(s, cells - {c});
      SplitCalls(s.log, cells, c);
      CountsAreCalls(k, s, cells - {c});
    }
  }

  lemma {:induction false} AllCells(log: seq<Entry>, cells: set<Cell>)
    requires forall e | e in log :: Where(e) in cells
    ensures CallsIn(log, cells) == log
  {
    if log != [] {
      AllCells(log[..|log| - 1], cells);
    }
  }

  /** Summed counts are the number of calls. */
  lemma SumIsTheNumberOfCalls(k: Config, s: State, cells: set<Cell>)
    requires Reachable(k, s) && forall e | e in s.log :: Where(e) in cells
    ensures Total(s, cells) == |s.log|
  {
    CountsAreCalls(k, s, cells);
    AllCells(s.log, cells);
  }

  function LettersIn(log: seq<Entry>): set<LetterId> { set e | e in log :: e.letter }

  lemma {:induction false} FewerLettersThanCalls(log: seq<Entry>)
    ensures |LettersIn(log)| <= |log|
  {
    if log != [] {
      var front, last := log[..|log| - 1], log[|log| - 1];
      FewerLettersThanCalls(front);
      assert log == front + [last];
      assert LettersIn(log) == LettersIn(front) + {last.letter};
    }
  }

  lemma {:induction false} KeptCalls(log: seq<Entry>, cells: set<Cell>, i: nat)
    requires i < |log| && Where(log[i]) in cells
    ensures log[i] in CallsIn(log, cells)
  {
    if i < |log| - 1 {
      KeptCalls(log[..|log| - 1], cells, i);
    }
  }

  /** The letters of a stream that a drain took off the queue, other than self-authored ones. */
  function DrainedOf(s: State, st: Stream): set<LetterId> {
    set id | id in s.letters && id in s.place && s.place[id] == Done && Foreign(s.letters[id])
        && StreamOf(s.letters[id]) == st
  }

  /** Whatever stops and repeats, the rows of a stream count at least its drained letters. */
  lemma NeverUnderCounts(k: Config, s: State, st: Stream, cells: set<Cell>)
    requires Reachable(k, s) && forall e | e in s.log && e.stream == st :: Where(e) in cells
    ensures |DrainedOf(s, st)| <= Total(s, cells)
  {
    ReachableInv(k, s);
    CountsAreCalls(k, s, cells);
    var calls := CallsIn(s.log, cells);
    FewerLettersThanCalls(calls);
    forall id | id in DrainedOf(s, st)
      ensures id in LettersIn(calls)
    {
      assert HasEntry(s, id, st);
      var i :| 0 <= i < |s.log| && s.log[i].letter == id && s.log[i].stream == st;
      KeptCalls(s.log, cells, i);
    }
    Subset(DrainedOf(s, st), LettersIn(calls));
  }

  lemma {:induction false} Subset(a: set<LetterId>, b: set<LetterId>)
    requires a <= b
    ensures |a| <= |b|
  {
    if a != {} {
      var x :| x in a;
      Subset(a - {x}, b - {x});
    }
  }

  /** First and last time of a row lie within its hour. */
  lemma RowSpansLessThanAnHour(k: Config, s: State, c: Cell)
    requires Reachable(k, s) && c in s.rows
    ensures s.rows[c].first <= s.rows[c].last < s.rows[c].first + HOUR
    ensures c.hour * HOUR <= s.rows[c].first && s.rows[c].last < (c.hour + 1) * HOUR
  {
    ReachableInv(k, s);
  }

  // ----- Acknowledging and assigning -----

  /** An acknowledged row was shown on the page that acknowledged it, and stays with that page. */
  lemma AcknowledgedThroughItsPage(k: Config, s: State, a: Action, c: Cell)
    requires Reachable(k, s) && Enabled(k, s, a) && c in s.rows && c in Next(k, s, a).rows
    ensures var row, row' := s.rows[c], Next(k, s, a).rows[c];
            && (row.acked.None? && row'.acked.Some? ==>
                  a.AckPage? && a.box == c.stream.box && row.page == Some(a.page) && (a.page, c) in s.shown)
            && (row.acked.Some? ==> row'.acked == row.acked && row'.page == row.page)
  {
    ReachableInv(k, s);
  }

  /** A letter that comes late raises the count of an acknowledged row and does not reopen it. */
  lemma LateLetterDoesNotReopen(k: Config, s: State, id: LetterId)
    requires Enabled(k, s, Record(id)) && CellOf(StreamOf(s.letters[id]), s.now) in s.rows
    requires s.rows[CellOf(StreamOf(s.letters[id]), s.now)].acked.Some?
    ensures var c, s' := CellOf(StreamOf(s.letters[id]), s.now), Next(k, s, Record(id));
            && s'.rows[c].count == s.rows[c].count + 1 && s'.rows[c].acked == s.rows[c].acked
            && forall p, b, limit, cells | IsSelection(k, s', p, b, cells, limit) :: c !in cells
  {
  }

  /** A load takes a row from another page before the delay is over. */
  predicate TakesEarly(k: Config, s: State, p: PageId, c: Cell) {
    HeldByOther(s, p, c) && s.now < s.rows[c].delivered + k.delay
  }

  /** A row is taken early only if the load that takes it, or the one that it is taken from, ran past its own lease. */
  lemma EarlyMeansLate(k: Config, s: State, p: PageId, c: Cell)
    requires Reachable(k, s) && TakesEarly(k, s, p, c)
    ensures s.desk.selected[p].since + k.delay <= s.now || c in s.desk.late
  {
    ReachableInv(k, s);
  }

  lemma {:induction false} RunOneMore(k: Config, s: State, acts: seq<Action>, s': State, a: Action)
    requires Run(k, s, acts, s') && Enabled(k, s', a)
    ensures Run(k, s, acts + [a], Next(k, s', a))
    decreases |acts|
  {
    hide Enabled, Next;
    if acts == [] {
      assert Run(k, Next(k, s', a), [], Next(k, s', a));
    } else {
      RunOneMore(k, Next(k, s, acts[0]), acts[1..], s', a);
      assert (acts + [a])[1..] == acts[1..] + [a];
    }
  }

  lemma ReachableStep(k: Config, s: State, a: Action)
    requires Reachable(k, s) && Enabled(k, s, a)
    ensures Reachable(k, Next(k, s, a))
  {
    var acts :| Run(k, INIT, acts, s);
    RunOneMore(k, INIT, acts, s, a);
  }

  /** One gap of one letter, recorded at time 0. */
  function OneGap(l: Letter, c: Cell): State {
    INIT.(letters := map[0 := l], place := map[0 := Held(0, true)], log := [Entry(0, c.stream, 0)],
          rows := map[c := Row(0, 0, 1, None, 0, None)])
  }

  lemma OneGapReachable(k: Config, l: Letter)
    requires Foreign(l)
    ensures Reachable(k, OneGap(l, CellOf(StreamOf(l), 0)))
  {
    assert Run(k, INIT, [], INIT);
    ReachableStep(k, INIT, Arrive(0, l));
    var s1 := Next(k, INIT, Arrive(0, l));
    ReachableStep(k, s1, Get(0, 0));
    var s2 := Next(k, s1, Get(0, 0));
    ReachableStep(k, s2, Record(0));
    assert Next(k, s2, Record(0)) == OneGap(l, CellOf(StreamOf(l), 0));
  }

  /** A load of page 1 stalls past its lease, another one of page 2 starts, and both have selected the row. */
  function BothSelected(k: Config, l: Letter, c: Cell): State {
    var b := c.stream.box;
    OneGap(l, c).(
      now := k.delay,
      desk := Desk(map[b := Lease(2, k.delay + k.delay)], map[],
                   map[1 := Selection(b, 0, 0, {c}), 2 := Selection(b, k.delay, k.delay, {c})], {1, 2}, {}))
  }

  lemma LoadStarts(k: Config, s: State, p: PageId, c: Cell)
    requires Reachable(k, s) && s.rows == map[c := Row(0, 0, 1, None, 0, None)]
    requires p !in s.desk.used && p !in s.desk.pulls && !Live(s, c.stream.box)
    ensures var b := c.stream.box;
            Reachable(k, s.(desk := s.desk.(leases := s.desk.leases[b := Lease(p, s.now + k.delay)],
                                            used := s.desk.used + {p},
                                            selected := s.desk.selected[p := Selection(b, s.now, s.now, {c})])))
  {
    var b := c.stream.box;
    ReachableStep(k, s, Acquire(p, b));
    var s1 := Next(k, s, Acquire(p, b));
    assert Eligible(k, s1, p, b, c);
    ReachableStep(k, s1, Select(p, {c}, 1));
    assert s.desk.pulls[p := Pull(b, s.now)] - {p} == s.desk.pulls;
  }

  lemma BothSelectedReachable(k: Config, l: Letter)
    requires Foreign(l)
    ensures Reachable(k, BothSelected(k, l, CellOf(StreamOf(l), 0)))
  {
    var c := CellOf(StreamOf(l), 0);
    OneGapReachable(k, l);
    hide Reachable, StreamOf, CellOf;
    var s3, b := OneGap(l, c), c.stream.box;
    LoadStarts(k, s3, 1, c);
    assert map[][b := Lease(1, k.delay)] == map[b := Lease(1, k.delay)];
    assert map[][1 := Selection(b, 0, 0, {c})] == map[1 := Selection(b, 0, 0, {c})] && {} + {1} == {1};
    var s4 := s3.(desk := Desk(map[b := Lease(1, k.delay)], map[], map[1 := Selection(b, 0, 0, {c})], {1}, {}));
    ReachableStep(k, s4, Tick(k.delay));
    LoadStarts(k, s4.(now := k.delay), 2, c);
    assert map[b := Lease(1, k.delay)][b := Lease(2, k.delay + k.delay)] == map[b := Lease(2, k.delay + k.delay)];
    assert {1} + {2} == {1, 2};
  }

  /** The stalled load can take the row from the other one. */
  lemma StalledLoadTakesEarly(k: Config, l: Letter)
    requires Foreign(l) && 0 < k.delay < k.bound
    ensures var c := CellOf(StreamOf(l), 0);
            exists s :: Reachable(k, s) && Enabled(k, s, Assign(1)) && TakesEarly(k, s, 1, c) && c !in s.desk.late
  {
    var c := CellOf(StreamOf(l), 0);
    BothSelectedReachable(k, l);
    hide Reachable, StreamOf, CellOf;
    var s := BothSelected(k, l, c);
    ReachableStep(k, s, Assign(2));
    assert TakesEarly(k, Next(k, s, Assign(2)), 1, c);
  }

  /** So can the other one, within its own lease, from the stalled load. */
  lemma StalledLoadIsTakenFrom(k: Config, l: Letter)
    requires Foreign(l) && 0 < k.delay < k.bound
    ensures var c := CellOf(StreamOf(l), 0);
            exists s :: Reachable(k, s) && Enabled(k, s, Assign(2)) && TakesEarly(k, s, 2, c)
                        && s.now < s.desk.selected[2].since + k.delay
  {
    var c := CellOf(StreamOf(l), 0);
    BothSelectedReachable(k, l);
    hide Reachable, StreamOf, CellOf;
    var s := BothSelected(k, l, c);
    ReachableStep(k, s, Assign(1));
    assert TakesEarly(k, Next(k, s, Assign(1)), 2, c);
  }

  /** No row is ever taken early exactly when loads cannot outlast their lease. */
  lemma DelayKeptIff(k: Config)
    ensures (forall s, p, c | Reachable(k, s) && Enabled(k, s, Assign(p)) :: !TakesEarly(k, s, p, c))
            <==> k.delay == 0 || k.bound <= k.delay
  {
    if k.delay == 0 || k.bound <= k.delay {
      forall s, p, c | Reachable(k, s) && Enabled(k, s, Assign(p))
        ensures !TakesEarly(k, s, p, c)
      {
        ReachableInv(k, s);
        assert k.delay == 0 && c in s.rows && s.rows[c].page.Some? ==> s.rows[c].delivered <= s.now;
      }
    } else {
      var l := Letter(Box("net", "b", Interactive), Some("a"), 0, "r", true);
      StalledLoadTakesEarly(k, l);
    }
  }

  // ----- Draining -----

  /** A dead letter as fetched; one that does not parse or names no mailbox is not readable. */
  datatype Fetched = Fetched(id: LetterId, letter: Letter, readable: bool)

  predicate Readable(q: seq<Fetched>) { forall f | f in q :: f.readable }

  /** The calls made for a list of letters. */
  function EntriesOf(q: seq<Fetched>, clock: nat -> nat): seq<Entry> {
    if q == [] then []
    else
      var front, f := EntriesOf(q[..|q| - 1], clock), q[|q| - 1];
      if Foreign(f.letter) then front + [Entry(f.id, StreamOf(f.letter), clock(|q| - 1))] else front
  }

  lemma OneMoreEntry(rows: map<Cell, Row>, q: seq<Fetched>, n: nat, clock: nat -> nat)
    requires n < |q|
    ensures var before, after, f := EntriesOf(q[..n], clock), EntriesOf(q[..n + 1], clock), q[n];
            if Foreign(f.letter)
            then |after| == |before| + 1
                 && RecordedAll(rows, after) == Recorded(RecordedAll(rows, before), StreamOf(f.letter), clock(n))
            else after == before
  {
    var before, after := EntriesOf(q[..n], clock), EntriesOf(q[..n + 1], clock);
    assert q[..n + 1][..n] == q[..n];
    assert Foreign(q[n].letter) ==> after[..|before|] == before;
  }

  datatype Drained = Failed | Drained(recorded: nat)

  class Ledger {
    var rows: map<Cell, Row>
    var queue: seq<Fetched>

    method RecordGap(st: Stream, at: nat)
      modifies this`rows
      ensures rows == Recorded(old(rows), st, at)
    {
      var c := CellOf(st, at);
      if c in rows {
        var row := rows[c];
        rows := rows[c := row.(last := if at > row.last then at else row.last, count := row.count + 1)];
      } else {
        rows := rows[c := Row(at, at, 1, None, 0, None)];
      }
    }

    /** Takes readable letters up to the limit; a letter that is not readable stays and ends the drain. */
    method DrainDeadLetters(limit: nat, clock: nat -> nat) returns (r: Drained, ghost n: nat)
      modifies this
      ensures n <= limit && n <= |old(queue)| && Readable(old(queue)[..n]) && queue == old(queue)[n..]
      ensures rows == RecordedAll(old(rows), EntriesOf(old(queue)[..n], clock))
      ensures r == Failed <==> n < limit && n < |old(queue)|
      ensures r == Failed ==> !old(queue)[n].readable
      ensures r.Drained? ==> r.recorded == |EntriesOf(old(queue)[..n], clock)|
    {
      var i, recorded := 0, 0;
      assert rows == RecordedAll(old(rows), EntriesOf(old(queue)[..0], clock));
      hide Recorded, RecordedAll, EntriesOf, Foreign, StreamOf;
      while i < limit && queue != []
        invariant i <= limit && i <= |old(queue)| && queue == old(queue)[i..]
        invariant Readable(old(queue)[..i]) && recorded == |EntriesOf(old(queue)[..i], clock)|
        invariant rows == RecordedAll(old(rows), EntriesOf(old(queue)[..i], clock))
      {
        var f := queue[0];
        if !f.readable {
          return Failed, i;
        }
        OneMoreEntry(old(rows), old(queue), i, clock);
        if Foreign(f.letter) {
          RecordGap(StreamOf(f.letter), clock(i));
          recorded := recorded + 1;
        }
        queue := queue[1..];
        i := i + 1;
      }
      return Drained(recorded), i;
    }
  }

  predicate Waits(s: State, f: Fetched) {
    f.id in s.letters && f.id in s.place && s.letters[f.id] == f.letter && s.place[f.id] == Waiting
  }

  function Emptied(s: State, q: seq<Fetched>): State {
    var entries := EntriesOf(q, _ => s.now);
    s.(rows := RecordedAll(s.rows, entries), log := s.log + entries,
       place := map id | id in s.place :: if exists f :: f in q && f.id == id then Done else s.place[id])
  }

  function LetterActs(f: Fetched, d: Drain): seq<Action> {
    if Foreign(f.letter) then [Get(f.id, d), Record(f.id), AckLetter(f.id)] else [Get(f.id, d), AckLetter(f.id)]
  }

  function DrainActs(q: seq<Fetched>, d: Drain): seq<Action> {
    if q == [] then [] else DrainActs(q[..|q| - 1], d) + LetterActs(q[|q| - 1], d)
  }

  function After(s: State, f: Fetched): State {
    var t := s.(place := s.place[f.id := Done]);
    if Foreign(f.letter)
    then t.(rows := Recorded(s.rows, StreamOf(f.letter), s.now),
            log := s.log + [Entry(f.id, StreamOf(f.letter), s.now)])
    else t
  }

  lemma LetterIsARun(k: Config, s: State, d: Drain, f: Fetched)
    requires Waits(s, f)
    ensures Run(k, s, LetterActs(f, d), After(s, f))
  {
    hide Recorded;
    var s1 := Next(k, s, Get(f.id, d));
    var s2 := if Foreign(f.letter) then Next(k, s1, Record(f.id)) else s1;
    assert Next(k, s2, AckLetter(f.id)) == After(s, f);
    assert Run(k, After(s, f), [], After(s, f));
    assert Run(k, s2, [AckLetter(f.id)], After(s, f));
    if Foreign(f.letter) {
      assert [Record(f.id), AckLetter(f.id)][1..] == [AckLetter(f.id)];
      assert LetterActs(f, d)[1..] == [Record(f.id), AckLetter(f.id)];
    } else {
      assert LetterActs(f, d)[1..] == [AckLetter(f.id)];
    }
  }

  lemma {:induction false} RunConcat(k: Config, s: State, acts: seq<Action>, s': State, more: seq<Action>, s'': State)
    requires Run(k, s, acts, s') && Run(k, s', more, s'')
    ensures Run(k, s, acts + more, s'')
    decreases |acts|
  {
    hide Enabled, Next;
    if acts == [] {
      assert acts + more == more;
    } else {
      RunConcat(k, Next(k, s, acts[0]), acts[1..], s', more, s'');
      assert (acts + more)[1..] == acts[1..] + more;
    }
  }

  lemma LastLetter(s: State, q: seq<Fetched>)
    requires q != [] && Waits(s, q[|q| - 1])
    ensures Emptied(s, q) == After(Emptied(s, q[..|q| - 1]), q[|q| - 1])
  {
    var front, f := q[..|q| - 1], q[|q| - 1];
    assert q == front + [f];
    var entries := EntriesOf(front, _ => s.now);
    if Foreign(f.letter) {
      var more := EntriesOf(q, _ => s.now);
      assert more == entries + [Entry(f.id, StreamOf(f.letter), s.now)];
      assert more[..|more| - 1] == entries;
    }
    assert Emptied(s, q).place == Emptied(s, front).place[f.id := Done];
  }

  /** A drain of waiting letters is a run of the steps get, record and acknowledge. */
  lemma {:induction false} DrainIsARun(k: Config, s: State, d: Drain, q: seq<Fetched>)
    requires forall i, j | 0 <= i < j < |q| :: q[i].id != q[j].id
    requires forall f | f in q :: Waits(s, f)
    ensures Run(k, s, DrainActs(q, d), Emptied(s, q))
    decreases |q|
  {
    hide Run, Recorded, RecordedAll;
    if q == [] {
      RunNothing(k, s);
    } else {
      var front, f := q[..|q| - 1], q[|q| - 1];
      DrainIsARun(k, s, d, front);
      assert Waits(s, f) && Waits(Emptied(s, front), f);
      LetterIsARun(k, Emptied(s, front), d, f);
      RunConcat(k, s, DrainActs(front, d), Emptied(s, front), LetterActs(f, d), After(Emptied(s, front), f));
      LastLetter(s, q);
    }
  }

  lemma RunNothing(k: Config, s: State)
    ensures Run(k, s, [], Emptied(s, []))
  {
  }
}
