/**
  What schedules of the snapshot limiter can and cannot do.  While a global permit is free every
  schedule starts a fetch within a bounded number of steps.  While none is free, two tasks of one
  peer can hand a stored wake-up to each other for ever.
*/
module LimiterLiveness {
  import opened Basics
  import opened SnapshotLimiter

  // ----- A free permit is taken soon -----

  /** What the steps of a task can still cost; a wake-up is paid for by the one who sends it. */
  function Cost(pc: Pc): nat {
    match pc
    case TryGlobal => 0
    case OnPeer => 0
    case AwaitPeer => 1
    case Leaving => 1
    case TellGlobal => 4
    case OnGlobal => 4
    case DropGlobal => 5
    case PassWake => 5
    case AwaitGlobal => 5
    case TryPeer => 6
    case TellPeer => 12
    case TellPeerDone => 12
    case GiveBack => 13
    case Fetching => 13
  }

  ghost function TaskCost(ts: map<Task, TaskState>): nat {
    if ts == map[] then 0 else var t :| t in ts; Cost(ts[t].pc) + TaskCost(ts - {t})
  }

  /** A stored peer wake-up costs a try. */
  function CellCost(cells: seq<Cell>): nat {
    if cells == [] then 0 else CellCost(cells[..|cells| - 1]) + if cells[|cells| - 1].stored then 6 else 0
  }

  ghost function Budget(s: State): nat { TaskCost(s.tasks) + CellCost(s.cells) + if s.stored then 2 else 0 }

  lemma {:induction false} TaskCostOf(ts: map<Task, TaskState>, t: Task)
    requires t in ts
    ensures TaskCost(ts) == Cost(ts[t].pc) + TaskCost(ts - {t})
    decreases |ts.Keys|
  {
    var u :| u in ts && TaskCost(ts) == Cost(ts[u].pc) + TaskCost(ts - {u});
    if u != t {
      assert (ts - {u}).Keys == ts.Keys - {u};
      TaskCostOf(ts - {u}, t);
      assert (ts - {t}).Keys == ts.Keys - {t};
      TaskCostOf(ts - {t}, u);
      assert ts - {u} - {t} == ts - {t} - {u};
    }
  }

  lemma TaskCostUpdate(ts: map<Task, TaskState>, t: Task, x: TaskState)
    requires t in ts
    ensures TaskCost(ts[t := x]) + Cost(ts[t].pc) == TaskCost(ts) + Cost(x.pc)
  {
    TaskCostOf(ts, t);
    TaskCostOf(ts[t := x], t);
    assert ts[t := x] - {t} == ts - {t};
  }

  lemma {:induction false} CellCostUpdate(cells: seq<Cell>, c: nat, x: Cell)
    requires c < |cells|
    ensures CellCost(cells[c := x]) + (if cells[c].stored then 6 else 0)
            == CellCost(cells) + (if x.stored then 6 else 0)
  {
    var k := |cells| - 1;
    if c < k {
      CellCostUpdate(cells[..k], c, x);
      assert cells[c := x][..k] == cells[..k][c := x];
    } else {
      assert cells[c := x][..k] == cells[..k];
    }
  }

  predicate StartsFetch(s: State, a: Action) {
    a.Step? && a.task in s.tasks && s.tasks[a.task].pc.TryGlobal? && s.permits > 0
  }

  lemma PeerWakeCost(s: State, c: nat, w: Option<Task>)
    requires c < |s.cells| && PeerChoice(s, c, w)
    ensures Budget(NotifyPeer(s, c, w)) <= Budget(s) + 6
  {
    if w.None? {
      CellCostUpdate(s.cells, c, s.cells[c].(stored := true));
    } else {
      TaskCostUpdate(s.tasks, w.value, s.tasks[w.value].(pc := TryPeer));
    }
  }

  lemma GlobalWakeCost(s: State, w: Option<Task>)
    requires GlobalChoice(s, w)
    ensures Budget(NotifyGlobal(s, w)) <= Budget(s) + 2
  {
    if w.Some? {
      TaskCostUpdate(s.tasks, w.value, s.tasks[w.value].(pc := TryPeer, woke := true));
    }
  }

  lemma MoveCost(s: State, t: Task, x: TaskState)
    requires t in s.tasks
    ensures Budget(s.(tasks := s.tasks[t := x])) + Cost(s.tasks[t].pc) == Budget(s) + Cost(x.pc)
  {
    TaskCostUpdate(s.tasks, t, x);
  }

  lemma CellsCost(s: State, c: nat, x: Cell)
    requires c < |s.cells|
    ensures Budget(s.(cells := s.cells[c := x])) + (if s.cells[c].stored then 6 else 0)
            == Budget(s) + (if x.stored then 6 else 0)
  {
    CellCostUpdate(s.cells, c, x);
  }

  /** A step that does not notify. */
  lemma QuietStepLowersBudget(s: State, t: Task, w: Option<Task>)
    requires Enabled(s, Step(t, w)) && s.permits > 0 && !s.tasks[t].pc.TryGlobal?
    requires s.tasks[t].pc.TryPeer? || s.tasks[t].pc.AwaitPeer? || s.tasks[t].pc.GiveBack? || s.tasks[t].pc.AwaitGlobal?
             || s.tasks[t].pc.Fetching? || s.tasks[t].pc.DropGlobal?
    ensures Budget(StepNext(s, t, w)) < Budget(s)
  {
    hide Budget;
    var me := s.tasks[t];
    var cell, s' := s.cells[me.cell], StepNext(s, t, w);
    MoveCost(s, t, s'.tasks[t]);
    var mid := s.(tasks := s.tasks[t := s'.tasks[t]]);
    CellsCost(mid, me.cell, s'.cells[me.cell]);
    assert s.cells[me.cell := cell] == s.cells;
    Flags(mid.(cells := mid.cells[me.cell := s'.cells[me.cell]]), s');
  }

  lemma Flags(s: State, s': State)
    requires s'.tasks == s.tasks && s'.cells == s.cells
    ensures Budget(s') + (if s.stored then 2 else 0) == Budget(s) + (if s'.stored then 2 else 0)
  {
  }

  /** A step that notifies, or leaves. */
  lemma TellingStepLowersBudget(s: State, t: Task, w: Option<Task>)
    requires Enabled(s, Step(t, w))
    requires s.tasks[t].pc.TellPeer? || s.tasks[t].pc.TellPeerDone? || s.tasks[t].pc.PassWake?
             || s.tasks[t].pc.TellGlobal?
    ensures Budget(StepNext(s, t, w)) < Budget(s)
  {
    var me, s' := s.tasks[t], StepNext(s, t, w);
    var mid := s;
    if me.pc.TellPeer? || me.pc.TellPeerDone? {
      PeerWakeCost(s, me.cell, w);
      mid := NotifyPeer(s, me.cell, w);
    } else if me.pc.TellGlobal? || me.woke {
      GlobalWakeCost(s, w);
      mid := NotifyGlobal(s, w);
    }
    assert t in mid.tasks && mid.tasks[t] == me;
    hide Budget;
    MoveCost(mid, t, s'.tasks[t]);
    assert s' == mid.(tasks := mid.tasks[t := s'.tasks[t]]);
  }

  lemma LeavingLowersBudget(s: State, t: Task, w: Option<Task>)
    requires Enabled(s, Step(t, w)) && s.tasks[t].pc.Leaving?
    ensures Budget(StepNext(s, t, w)) < Budget(s)
  {
    TaskCostOf(s.tasks, t);
  }

  lemma StepLowersBudget(s: State, a: Action)
    requires Enabled(s, a) && a.Step? && s.permits > 0 && !StartsFetch(s, a)
    ensures Budget(Next(s, a)) < Budget(s)
  {
    hide Budget, StepNext;
    var pc := s.tasks[a.task].pc;
    if pc.Leaving? {
      LeavingLowersBudget(s, a.task, a.woken);
    } else if pc.TellPeer? || pc.TellPeerDone? || pc.PassWake? || pc.TellGlobal? {
      TellingStepLowersBudget(s, a.task, a.woken);
    } else {
      QuietStepLowersBudget(s, a.task, a.woken);
    }
  }

  /** A schedule of admitted tasks through states with a free permit, in which no fetch starts. */
  ghost predicate Idles(s: State, acts: seq<Action>)
    decreases |acts|
  {
    acts != [] ==>
      && Enabled(s, acts[0]) && acts[0].Step? && s.permits > 0 && !StartsFetch(s, acts[0])
      && Idles(Next(s, acts[0]), acts[1..])
  }

  /** While a global permit is free, no schedule puts off the next fetch for longer than the budget. */
  lemma {:induction false} FetchStartsSoon(s: State, acts: seq<Action>)
    requires Idles(s, acts)
    ensures |acts| <= Budget(s)
    decreases |acts|
  {
    hide Budget, Next, Enabled;
    if acts != [] {
      StepLowersBudget(s, acts[0]);
      FetchStartsSoon(Next(s, acts[0]), acts[1..]);
    }
  }

  /** There is always a step to take while a task is admitted. */
  lemma SomebodyCanStep(s: State)
    requires Reachable(s) && s.tasks != map[]
    ensures exists a: Action :: a.Step? && Enabled(s, a)
  {
    hide Inv, Enabled, Reachable;
    ReachableInv(s);
    var t :| t in s.tasks;
    NoLostWakeUp(s, t);
    if u :| u in s.tasks && !Waiting(s.tasks[u].pc) {
      var a := AnyStep(s, u);
    }
  }

  // ----- Without a free permit two tasks can keep each other awake -----

  /** Two tasks of one cell. */
  datatype Pair = Pair(t: Task, u: Task, peer: Peer, cell: nat)

  /** Where one of the two stands: its counter, and whether a global notification woke it. */
  datatype Place = Place(pc: Pc, woke: bool)

  /** What the steps of the two change. */
  datatype Local = Local(t: Place, u: Place, cell: Cell, stored: bool)

  /** No permit is free, and nobody else waits. */
  predicate Alone(s: State, d: Pair) {
    && d.t != d.u && d.cell < |s.cells| && s.permits == 0
    && forall x | x in s.tasks && x != d.t && x != d.u :: !Waiting(s.tasks[x].pc)
  }

  function With(s: State, d: Pair, l: Local): State
    requires d.cell < |s.cells|
  {
    s.(cells := s.cells[d.cell := l.cell], stored := l.stored,
       tasks := s.tasks[d.t := TaskState(d.peer, d.cell, l.t.pc, l.t.woke)]
                       [d.u := TaskState(d.peer, d.cell, l.u.pc, l.u.woke)])
  }

  function Turned(d: Pair): Pair { Pair(d.u, d.t, d.peer, d.cell) }

  function Turn(l: Local): Local { Local(l.u, l.t, l.cell, l.stored) }

  /** The first task takes a step; the other one never waits for a global permit. */
  predicate Fits(l: Local) {
    && !l.u.pc.OnGlobal?
    && (l.t.pc.TryPeer? || l.t.pc.TryGlobal? || l.t.pc.GiveBack? || l.t.pc.TellPeer? || l.t.pc.AwaitGlobal?
        || l.t.pc.PassWake? || l.t.pc.AwaitPeer?)
  }

  function After(l: Local): Local
    requires Fits(l)
  {
    match l.t.pc
    case TryPeer =>
      if l.cell.permits > 0
      then l.(t := Place(TryGlobal, l.t.woke), cell := l.cell.(permits := l.cell.permits - 1))
      else l.(t := Place(PassWake, l.t.woke))
    case TryGlobal => l.(t := Place(GiveBack, l.t.woke))
    case GiveBack => l.(t := Place(TellPeer, l.t.woke), cell := l.cell.(permits := l.cell.permits + 1))
    case TellPeer =>
      if l.u.pc.OnPeer? then l.(t := Place(AwaitGlobal, l.t.woke), u := Place(TryPeer, l.u.woke))
      else l.(t := Place(AwaitGlobal, l.t.woke), cell := l.cell.(stored := true))
    case AwaitGlobal =>
      if l.stored then l.(t := Place(TryPeer, true), stored := false) else l.(t := Place(OnGlobal, l.t.woke))
    case PassWake => l.(t := Place(AwaitPeer, false), stored := l.stored || l.t.woke)
    case AwaitPeer =>
      if l.cell.stored then l.(t := Place(TryPeer, l.t.woke), cell := l.cell.(stored := false))
      else l.(t := Place(OnPeer, l.t.woke))
  }

  function FirstMoves(d: Pair, l: Local): Action {
    Step(d.t, if l.t.pc.TellPeer? && l.u.pc.OnPeer? then Some(d.u) else None)
  }

  lemma Updates(s: State, d: Pair, l: Local, l': Local)
    requires Alone(s, d)
    ensures var s0, s1 := With(s, d, l), With(s, d, l');
            && s0.tasks[d.t].pc == l.t.pc && s0.tasks[d.t].woke == l.t.woke && s0.cells[d.cell] == l.cell
            && s0.cells[d.cell := l'.cell] == s1.cells
            && (l.u == l'.u ==> s0.tasks[d.t := s1.tasks[d.t]] == s1.tasks)
            && s0.tasks[d.u := s1.tasks[d.u]][d.t := s1.tasks[d.t]] == s1.tasks
  {
    var s0, s1 := With(s, d, l), With(s, d, l');
    assert s0.tasks[d.u := s1.tasks[d.u]][d.t := s1.tasks[d.t]] == s1.tasks;
  }

  lemma NobodyElseWaits(s: State, d: Pair, l: Local)
    requires Alone(s, d) && Fits(l)
    ensures GlobalChoice(With(s, d, l), None)
    ensures PeerChoice(With(s, d, l), d.cell, if l.u.pc.OnPeer? then Some(d.u) else None)
  {
  }

  lemma QuietMove(s: State, d: Pair, l: Local)
    requires Alone(s, d) && Fits(l) && !l.t.pc.TellPeer? && !l.t.pc.PassWake?
    ensures Enabled(With(s, d, l), FirstMoves(d, l))
    ensures Next(With(s, d, l), FirstMoves(d, l)) == With(s, d, After(l))
  {
    Updates(s, d, l, After(l));
    assert With(s, d, l).cells[d.cell := l.cell] == With(s, d, l).cells;
    var s0, s1 := With(s, d, l), With(s, d, After(l));
    assert s0.tasks[d.t] == TaskState(d.peer, d.cell, l.t.pc, l.t.woke);
  }

  lemma TellingMove(s: State, d: Pair, l: Local)
    requires Alone(s, d) && Fits(l) && (l.t.pc.TellPeer? || l.t.pc.PassWake?)
    ensures Enabled(With(s, d, l), FirstMoves(d, l))
    ensures Next(With(s, d, l), FirstMoves(d, l)) == With(s, d, After(l))
  {
    NobodyElseWaits(s, d, l);
    Updates(s, d, l, After(l));
    hide PeerChoice, GlobalChoice;
    assert With(s, d, l).cells[d.cell := l.cell] == With(s, d, l).cells;
    var s0, s1 := With(s, d, l), With(s, d, After(l));
    assert s0.tasks[d.t] == TaskState(d.peer, d.cell, l.t.pc, l.t.woke);
  }

  lemma OneMove(s: State, d: Pair, l: Local)
    requires Alone(s, d) && Fits(l)
    ensures Enabled(With(s, d, l), FirstMoves(d, l))
    ensures Next(With(s, d, l), FirstMoves(d, l)) == With(s, d, After(l))
  {
    hide Enabled, Next, With, After, FirstMoves;
    if l.t.pc.TellPeer? || l.t.pc.PassWake? {
      TellingMove(s, d, l);
    } else {
      QuietMove(s, d, l);
    }
  }

  lemma TurnedIsSame(s: State, d: Pair, l: Local)
    requires Alone(s, d)
    ensures With(s, Turned(d), Turn(l)) == With(s, d, l)
  {
    var s0, s1 := With(s, d, l), With(s, Turned(d), Turn(l));
    assert s0.tasks == s1.tasks;
  }

  /** The moves of the two, `true` for the first. */
  predicate AllFit(l: Local, ms: seq<bool>)
    decreases |ms|
  {
    ms != [] ==> if ms[0] then Fits(l) && AllFit(After(l), ms[1..])
                 else Fits(Turn(l)) && AllFit(Turn(After(Turn(l))), ms[1..])
  }

  function Moved(l: Local, ms: seq<bool>): Local
    requires AllFit(l, ms)
    decreases |ms|
  {
    if ms == [] then l
    else if ms[0] then Moved(After(l), ms[1..])
    else Moved(Turn(After(Turn(l))), ms[1..])
  }

  /** Moves of the two are steps of the limiter. */
  lemma {:induction false} MovesLead(s: State, d: Pair, l: Local, ms: seq<bool>) returns (acts: seq<Action>)
    requires Alone(s, d) && AllFit(l, ms)
    ensures |acts| == |ms| && OnlySteps(acts) && Run(With(s, d, l), acts, With(s, d, Moved(l, ms)))
    decreases |ms|
  {
    hide With, After, Fits, Enabled, Next;
    if ms == [] {
      acts := [];
    } else {
      var d', l' := if ms[0] then d else Turned(d), if ms[0] then l else Turn(l);
      OneMove(s, d', l');
      var next := if ms[0] then After(l') else Turn(After(l'));
      TurnedIsSame(s, d, l);
      TurnedIsSame(s, d, next);
      assert Turn(Turn(After(l'))) == After(l');
      var more := MovesLead(s, d, next, ms[1..]);
      acts := [FirstMoves(d', l')] + more;
      assert acts[1..] == more;
    }
  }

  const TURNING := Local(Place(TryPeer, false), Place(TryPeer, true), Cell(1, false), false)

  const HAND_OVER := [true, false, false, false, true, true, true, true]

  /**
    The first task takes the peer's permit and finds no global one; the second passes its wake-up
    on and waits for the peer; the first gives the peer's permit to it, and takes the wake-up.
  */
  lemma HandsOver()
    ensures AllFit(TURNING, HAND_OVER) && Moved(TURNING, HAND_OVER) == Turn(TURNING)
  {
    var l := TURNING;
    assert HAND_OVER[1..] == [false, false, false, true, true, true, true];
  }

  const WAKING := Local(Place(TryPeer, false), Place(TryPeer, false), Cell(1, false), true)

  const CROSSING := Local(Place(AwaitPeer, false), Place(TryGlobal, false), Cell(0, true), true)

  const FIRST_TRIES := [true, true, true, true, true, false, true, true]

  const SECOND_TRIES := [true, true, true, true, false, false, false, false]

  /** Two newly admitted tasks and one stored global wake-up get there. */
  lemma GetsCrossing()
    ensures AllFit(WAKING, FIRST_TRIES) && Moved(WAKING, FIRST_TRIES) == CROSSING
  {
  }

  lemma GetsTurning()
    ensures AllFit(CROSSING, SECOND_TRIES) && Moved(CROSSING, SECOND_TRIES) == TURNING
  {
  }

  /** Two hand-overs leave everything as it was: the two can go on like this for ever. */
  lemma GoesRound(s: State, d: Pair) returns (acts: seq<Action>)
    requires Alone(s, d)
    ensures acts != [] && OnlySteps(acts) && Run(With(s, d, TURNING), acts, With(s, d, TURNING))
  {
    hide With, AllFit, Moved;
    HandsOver();
    var first := MovesLead(s, d, TURNING, HAND_OVER);
    var second := MovesLead(s, Turned(d), TURNING, HAND_OVER);
    TurnedIsSame(s, d, TURNING);
    TurnedIsSame(s, d, Turn(TURNING));
    acts := first + second;
    RunsCompose(With(s, d, TURNING), first, With(s, d, Turn(TURNING)), second, With(s, d, TURNING));
  }

  lemma ReachesOn(s: State, acts: seq<Action>, s': State)
    requires Reachable(s) && Run(s, acts, s')
    ensures Reachable(s')
  {
    var before :| Run(INIT, before, s);
    RunsCompose(INIT, before, s, acts, s');
  }

  lemma ReachesNext(s: State, a: Action)
    requires Reachable(s) && Enabled(s, a)
    ensures Reachable(Next(s, a))
  {
    assert Run(Next(s, a), [][..], Next(s, a));
    assert [a][1..] == [];
    ReachesOn(s, [a], Next(s, a));
  }

  /** Everybody fetches. */
  ghost predicate Busy(s: State, peers: set<Peer>, tasks: set<Task>) {
    && Reachable(s) && s.entries.Keys <= peers && s.tasks.Keys == tasks
    && forall t | t in s.tasks :: s.tasks[t].pc.Fetching? && s.tasks[t].cell < |s.cells|
  }

  lemma StartFetch(s: State, peers: set<Peer>, tasks: set<Task>, t: Task, p: Peer) returns (s': State)
    requires Busy(s, peers, tasks) && s.permits > 0 && t !in tasks && p !in peers
    ensures Busy(s', peers + {p}, tasks + {t}) && s'.permits == s.permits - 1 && s'.stored == s.stored
  {
    hide Reachable;
    ReachesNext(s, Admit(t, p));
    var s1 := Next(s, Admit(t, p));
    ReachesNext(s1, Step(t, None));
    var s2 := Next(s1, Step(t, None));
    ReachesNext(s2, Step(t, None));
    s' := Next(s2, Step(t, None));
  }

  /** Everybody fetches but `t`, which has given back the peer's permit. */
  ghost predicate BusyBut(s: State, peers: set<Peer>, tasks: set<Task>, t: Task) {
    && Reachable(s) && s.entries.Keys <= peers && s.tasks.Keys == tasks && t in tasks
    && (forall u | u in s.tasks :: s.tasks[u].pc == (if u == t then DropGlobal else Fetching))
    && forall u | u in s.tasks :: s.tasks[u].cell < |s.cells|
  }

  lemma GivePeerBack(s: State, peers: set<Peer>, tasks: set<Task>, t: Task) returns (s': State)
    requires Busy(s, peers, tasks) && t in tasks
    ensures BusyBut(s', peers, tasks, t) && s'.permits == s.permits
  {
    hide Reachable;
    ReachesNext(s, Step(t, None));
    var s1 := Next(s, Step(t, None));
    ReachesNext(s1, Step(t, None));
    s' := Next(s1, Step(t, None));
  }

  lemma EndFetch(s: State, peers: set<Peer>, tasks: set<Task>, t: Task) returns (s': State)
    requires Busy(s, peers, tasks) && t in tasks
    ensures Busy(s', peers, tasks - {t}) && s'.permits == s.permits + 1 && s'.stored
  {
    hide Reachable;
    var s1 := GivePeerBack(s, peers, tasks, t);
    ReachesNext(s1, Step(t, None));
    var s2 := Next(s1, Step(t, None));
    ReachesNext(s2, Step(t, None));
    var s3 := Next(s2, Step(t, None));
    ReachesNext(s3, Step(t, None));
    s' := Next(s3, Step(t, None));
  }

  /** Four fetch, one of them ends and stores a wake-up, and a fifth takes its place. */
  lemma AllPermitsTaken() returns (s: State, peers: set<Peer>, tasks: set<Task>)
    ensures Busy(s, peers, tasks) && s.permits == 0 && s.stored && "f" !in peers && 6 !in tasks && 7 !in tasks
  {
    hide Busy;
    BusyAtStart();
    peers, tasks := {"a", "b", "c", "d"}, {1, 2, 3, 4};
    s := StartFetch(INIT, {}, {}, 1, "a");
    s := StartFetch(s, {} + {"a"}, {} + {1}, 2, "b");
    s := StartFetch(s, {} + {"a"} + {"b"}, {} + {1} + {2}, 3, "c");
    s := StartFetch(s, {} + {"a"} + {"b"} + {"c"}, {} + {1} + {2} + {3}, 4, "d");
    assert {} + {"a"} + {"b"} + {"c"} + {"d"} == peers && {} + {1} + {2} + {3} + {4} == tasks;
    s := EndFetch(s, peers, tasks, 1);
    s := StartFetch(s, peers, tasks - {1}, 5, "e");
    peers, tasks := peers + {"e"}, tasks - {1} + {5};
  }

  lemma BusyAtStart()
    ensures Busy(INIT, {}, {})
  {
    assert Run(INIT, [], INIT);
  }

  /** Then two tasks of a sixth peer come. */
  lemma TwoCome(s: State, peers: set<Peer>, tasks: set<Task>, d: Pair) returns (b: State)
    requires Busy(s, peers, tasks) && s.permits == 0 && s.stored
    requires d.peer !in peers && d.t !in tasks && d.u !in tasks && d.t != d.u && d.cell == |s.cells|
    ensures Alone(b, d) && Reachable(With(b, d, WAKING))
  {
    hide Reachable;
    ReachesNext(s, Admit(d.t, d.peer));
    var s1 := Next(s, Admit(d.t, d.peer));
    ReachesNext(s1, Admit(d.u, d.peer));
    b := Next(s1, Admit(d.u, d.peer));
    assert b.cells[d.cell := Cell(1, false)] == b.cells;
    assert With(b, d, WAKING).tasks == b.tasks;
  }

  lemma {:induction false} Rounds(s: State, d: Pair, n: nat) returns (acts: seq<Action>)
    requires Alone(s, d)
    ensures |acts| >= n && OnlySteps(acts) && Run(With(s, d, TURNING), acts, With(s, d, TURNING))
  {
    hide With;
    if n == 0 {
      acts := [];
    } else {
      var more := Rounds(s, d, n - 1);
      var first := GoesRound(s, d);
      RunsCompose(With(s, d, TURNING), first, With(s, d, TURNING), more, With(s, d, TURNING));
      acts := first + more;
    }
  }

  /** At least `n` steps of the admitted tasks lead from `s` to `s`. */
  ghost predicate Spins(s: State, n: nat) {
    exists acts :: |acts| >= n && OnlySteps(acts) && Run(s, acts, s)
  }

  lemma ReachesTurning(s: State, d: Pair)
    requires Alone(s, d) && Reachable(With(s, d, WAKING))
    ensures Reachable(With(s, d, TURNING))
  {
    hide Reachable, AllFit, Moved, With, Run;
    GetsCrossing();
    var first := MovesLead(s, d, WAKING, FIRST_TRIES);
    ReachesOn(With(s, d, WAKING), first, With(s, d, CROSSING));
    GetsTurning();
    var second := MovesLead(s, d, CROSSING, SECOND_TRIES);
    ReachesOn(With(s, d, CROSSING), second, With(s, d, TURNING));
  }

  /** Some reachable state without a free permit comes back to itself in runs of any length. */
  lemma TwoTasksCanSpin() returns (s: State)
    ensures Reachable(s) && s.permits == 0 && forall n: nat :: Spins(s, n)
  {
    var s0, peers, tasks := AllPermitsTaken();
    var d := Pair(6, 7, "f", |s0.cells|);
    var b := TwoCome(s0, peers, tasks, d);
    hide Reachable, Run;
    ReachesTurning(b, d);
    s := With(b, d, TURNING);
    forall n: nat ensures Spins(s, n) {
      var acts := Rounds(b, d, n);
    }
  }
}
