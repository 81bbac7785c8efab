/**
  The limiter that bounds concurrent snapshot fetches of the public gateway: one fetch per
  announcing peer, four in all, at most 32 admissions waiting per peer.

  Tasks interleave at every atomic operation of `acquire` and of the two `Drop`
  implementations.  A one-slot notification is a flag for the stored wake-up; the tasks
  registered with it are those whose program counter says so.  Any registered task may be the
  one that is woken.
*/
module SnapshotLimiter {
  import opened Basics

  const SNAPSHOT_WORKER_COUNT: nat := 4
  const GOSSIP_WORK_QUEUE_CAPACITY: nat := 128
  const MAX_PENDING_PER_PEER: nat := GOSSIP_WORK_QUEUE_CAPACITY / SNAPSHOT_WORKER_COUNT

  type Peer = string
  type Task = nat

  /** The semaphore (one permit) and the notification shared by the admissions of one map entry. */
  datatype Cell = Cell(permits: nat, stored: bool)

  datatype Entry = Entry(cell: nat, pending: nat)

  datatype Pc =
    | TryPeer       // about to try the peer semaphore
    | PassWake      // the peer is busy: about to hand on a global wake-up, if one was received
    | AwaitPeer     // about to poll the peer notification for the first time
    | OnPeer        // registered with the peer notification
    | TryGlobal     // holds the peer permit, about to try the global semaphore
    | GiveBack      // no global permit: about to drop the peer permit
    | TellPeer      // about to notify the peer after giving its permit back
    | AwaitGlobal   // about to poll the global notification for the first time
    | OnGlobal      // registered with the global notification
    | Fetching      // holds both permits
    | TellPeerDone  // fetch over, peer permit dropped, about to notify the peer
    | DropGlobal    // about to drop the global permit
    | TellGlobal    // about to notify the global waiters
    | Leaving       // permits gone, about to drop the admission

  datatype TaskState = TaskState(peer: Peer, cell: nat, pc: Pc, woke: bool)

  datatype State = State(
    entries: map<Peer, Entry>,
    cells: seq<Cell>,
    permits: nat,
    stored: bool,
    tasks: map<Task, TaskState>)

  const INIT: State := State(map[], [], SNAPSHOT_WORKER_COUNT, false, map[])

  // ----- The peer map: admission and drop of an admission -----

  /** The entry an admission of `peer` uses; a missing entry gets a fresh cell. */
  function EntryFor(entries: map<Peer, Entry>, next: nat, peer: Peer): Entry {
    if peer in entries then entries[peer] else Entry(next, 0)
  }

  function CellsFor(entries: map<Peer, Entry>, cells: seq<Cell>, peer: Peer): seq<Cell> {
    if peer in entries then cells else cells + [Cell(1, false)]
  }

  function Admitted(entries: map<Peer, Entry>, next: nat, peer: Peer): map<Peer, Entry> {
    var entry := EntryFor(entries, next, peer);
    entries[peer := entry.(pending := entry.pending + 1)]
  }

  function Dropped(entries: map<Peer, Entry>, peer: Peer): map<Peer, Entry> {
    if peer !in entries then entries
    else if entries[peer].pending <= 1 then entries - {peer}
    else entries[peer := entries[peer].(pending := entries[peer].pending - 1)]
  }

  // ----- The steps -----

  datatype Action =
    | Admit(task: Task, peer: Peer)
    | Step(task: Task, woken: Option<Task>)

  function Move(s: State, t: Task, pc: Pc): State
    requires t in s.tasks
  {
    s.(tasks := s.tasks[t := s.tasks[t].(pc := pc)])
  }

  predicate WaitsOnPeer(s: State, c: nat, u: Task) {
    u in s.tasks && s.tasks[u].cell == c && s.tasks[u].pc == OnPeer
  }

  predicate WaitsOnGlobal(s: State, u: Task) {
    u in s.tasks && s.tasks[u].pc == OnGlobal
  }

  /** `notify_one` wakes a registered task, and stores the wake-up only when there is none. */
  predicate PeerChoice(s: State, c: nat, w: Option<Task>) {
    match w
    case Some(u) => WaitsOnPeer(s, c, u)
    case None => forall u | u in s.tasks :: !WaitsOnPeer(s, c, u)
  }

  predicate GlobalChoice(s: State, w: Option<Task>) {
    match w
    case Some(u) => WaitsOnGlobal(s, u)
    case None => forall u | u in s.tasks :: !WaitsOnGlobal(s, u)
  }

  function NotifyPeer(s: State, c: nat, w: Option<Task>): State
    requires c < |s.cells| && PeerChoice(s, c, w)
  {
    match w
    case None => s.(cells := s.cells[c := s.cells[c].(stored := true)])
    case Some(u) => Move(s, u, TryPeer)
  }

  function NotifyGlobal(s: State, w: Option<Task>): State
    requires GlobalChoice(s, w)
  {
    match w
    case None => s.(stored := true)
    case Some(u) => s.(tasks := s.tasks[u := s.tasks[u].(pc := TryPeer, woke := true)])
  }

  predicate Enabled(s: State, a: Action) {
    match a
    case Admit(t, _) => t !in s.tasks
    case Step(t, w) =>
      && t in s.tasks
      && s.tasks[t].cell < |s.cells|
      && match s.tasks[t].pc
         case OnPeer => false
         case OnGlobal => false
         case TellPeer => PeerChoice(s, s.tasks[t].cell, w)
         case TellPeerDone => PeerChoice(s, s.tasks[t].cell, w)
         case PassWake => s.tasks[t].woke ==> GlobalChoice(s, w)
         case TellGlobal => GlobalChoice(s, w)
         case _ => true
  }

  function AdmitNext(s: State, t: Task, peer: Peer): State {
    var entry := EntryFor(s.entries, |s.cells|, peer);
    if entry.pending >= MAX_PENDING_PER_PEER then s
    else s.(entries := Admitted(s.entries, |s.cells|, peer),
            cells := CellsFor(s.entries, s.cells, peer),
            tasks := s.tasks[t := TaskState(peer, entry.cell, TryPeer, false)])
  }

  function StepNext(s: State, t: Task, w: Option<Task>): State
    requires Enabled(s, Step(t, w))
  {
    var me := s.tasks[t];
    var cell := s.cells[me.cell];
    match me.pc
    case TryPeer =>
      if cell.permits > 0
      then Move(s.(cells := s.cells[me.cell := cell.(permits := cell.permits - 1)]), t, TryGlobal)
      else Move(s, t, PassWake)
    case PassWake =>
      var s' := if me.woke then NotifyGlobal(s, w) else s;
      s'.(tasks := s'.tasks[t := me.(pc := AwaitPeer, woke := false)])
    case AwaitPeer =>
      if cell.stored
      then Move(s.(cells := s.cells[me.cell := cell.(stored := false)]), t, TryPeer)
      else Move(s, t, OnPeer)
    case TryGlobal =>
      if s.permits > 0 then Move(s.(permits := s.permits - 1), t, Fetching)
      else Move(s, t, GiveBack)
    case GiveBack =>
      Move(s.(cells := s.cells[me.cell := cell.(permits := cell.permits + 1)]), t, TellPeer)
    case TellPeer => Move(NotifyPeer(s, me.cell, w), t, AwaitGlobal)
    case AwaitGlobal =>
      if s.stored
      then s.(stored := false, tasks := s.tasks[t := me.(pc := TryPeer, woke := true)])
      else Move(s, t, OnGlobal)
    case Fetching =>
      Move(s.(cells := s.cells[me.cell := cell.(permits := cell.permits + 1)]), t, TellPeerDone)
    case TellPeerDone => Move(NotifyPeer(s, me.cell, w), t, DropGlobal)
    case DropGlobal => Move(s.(permits := s.permits + 1), t, TellGlobal)
    case TellGlobal => Move(NotifyGlobal(s, w), t, Leaving)
    case Leaving => s.(entries := Dropped(s.entries, me.peer), tasks := s.tasks - {t})
    case OnPeer => s
    case OnGlobal => s
  }

  function Next(s: State, a: Action): State
    requires Enabled(s, a)
  {
    match a
    case Admit(t, peer) => AdmitNext(s, t, peer)
    case Step(t, w) => StepNext(s, t, w)
  }

  /** `s'` is where the actions, each enabled in turn, lead from `s`. */
  ghost predicate Run(s: State, acts: seq<Action>, s': State)
    decreases |acts|
  {
    if acts == [] then s == s'
    else Enabled(s, acts[0]) && Run(Next(s, acts[0]), acts[1..], s')
  }

  ghost predicate Reachable(s: State) {
    exists acts :: Run(INIT, acts, s)
  }

  // ----- What every step keeps -----

  predicate HoldsPeer(pc: Pc) { pc.TryGlobal? || pc.GiveBack? || pc.Fetching? }

  predicate HoldsGlobal(pc: Pc) { pc.Fetching? || pc.TellPeerDone? || pc.DropGlobal? }

  /** The task will try the peer semaphore, holds its permit, or is about to notify the peer. */
  predicate ServesPeer(pc: Pc) {
    pc.TryPeer? || pc.TryGlobal? || pc.GiveBack? || pc.TellPeer? || pc.Fetching? || pc.TellPeerDone?
  }

  predicate NeedsPeer(pc: Pc) { pc.PassWake? || pc.AwaitPeer? || pc.OnPeer? }

  /** Likewise for the global permits; a global wake-up that has not been used up counts. */
  predicate ServesGlobal(t: TaskState) {
    || t.pc.TryGlobal? || HoldsGlobal(t.pc) || t.pc.TellGlobal?
    || (t.woke && (t.pc.TryPeer? || t.pc.PassWake?))
  }

  predicate NeedsGlobal(pc: Pc) { pc.GiveBack? || pc.TellPeer? || pc.AwaitGlobal? || pc.OnGlobal? }

  function TasksOf(s: State, p: Peer): set<Task> {
    set t | t in s.tasks && s.tasks[t].peer == p
  }

  function GlobalHolders(s: State): set<Task> {
    set t | t in s.tasks && HoldsGlobal(s.tasks[t].pc)
  }

  predicate PeerHolder(s: State, c: nat, u: Task) {
    u in s.tasks && s.tasks[u].cell == c && HoldsPeer(s.tasks[u].pc)
  }

  predicate PeerServer(s: State, c: nat, u: Task) {
    u in s.tasks && s.tasks[u].cell == c && ServesPeer(s.tasks[u].pc)
  }

  predicate GlobalServer(s: State, u: Task) {
    u in s.tasks && ServesGlobal(s.tasks[u])
  }

  /** Every live admission uses the cell of its peer's entry, and no two peers share a cell. */
  ghost predicate Placed(s: State) {
    && (forall t | t in s.tasks ::
          && s.tasks[t].peer in s.entries
          && s.tasks[t].cell == s.entries[s.tasks[t].peer].cell)
    && (forall p | p in s.entries :: s.entries[p].cell < |s.cells|)
    && (forall p, q | p in s.entries && q in s.entries && s.entries[p].cell == s.entries[q].cell :: p == q)
  }

  /** An entry counts the live admissions of its peer, and is there only while it has some. */
  ghost predicate Counted(s: State) {
    forall p | p in s.entries ::
      1 <= s.entries[p].pending == |TasksOf(s, p)| <= MAX_PENDING_PER_PEER
  }

  ghost predicate PeerPermits(s: State) {
    && (forall c | 0 <= c < |s.cells| :: s.cells[c].permits <= 1)
    && (forall t, c | 0 <= c < |s.cells| && PeerHolder(s, c, t) :: s.cells[c].permits == 0)
    && (forall t, u, c | PeerHolder(s, c, t) && PeerHolder(s, c, u) :: t == u)
    && (forall c | 0 <= c < |s.cells| && s.cells[c].permits == 0 :: exists u :: PeerHolder(s, c, u))
  }

  ghost predicate GlobalPermits(s: State) {
    s.permits + |GlobalHolders(s)| == SNAPSHOT_WORKER_COUNT
  }

  ghost predicate PeerWakes(s: State) {
    forall t | t in s.tasks && s.tasks[t].cell < |s.cells| && NeedsPeer(s.tasks[t].pc) ::
      && (s.cells[s.tasks[t].cell].stored || exists u :: PeerServer(s, s.tasks[t].cell, u))
      && (s.tasks[t].pc.OnPeer? ==> !s.cells[s.tasks[t].cell].stored)
  }

  ghost predicate GlobalWakes(s: State) {
    forall t | t in s.tasks && NeedsGlobal(s.tasks[t].pc) ::
      && (s.stored || exists u :: GlobalServer(s, u))
      && (s.tasks[t].pc.OnGlobal? ==> !s.stored)
  }

  ghost predicate Inv(s: State) {
    Placed(s) && Counted(s) && PeerPermits(s) && GlobalPermits(s) && PeerWakes(s) && GlobalWakes(s)
  }

  // ----- Each part of the invariant is kept -----

  /** The other tasks stand still, except one that a notification wakes. */
  ghost predicate OthersKept(s: State, s': State, t: Task) { TasksKept(s, s', t) && CellsKept(s, s', t) }

  ghost predicate TasksKept(s: State, s': State, t: Task) {
    && t in s.tasks
    && (forall u | u != t :: u in s'.tasks <==> u in s.tasks)
    && (forall u | u in s.tasks && u != t ::
          || s'.tasks[u] == s.tasks[u]
          || (s.tasks[u].pc.OnPeer? && s'.tasks[u] == s.tasks[u].(pc := TryPeer))
          || (s.tasks[u].pc.OnGlobal? && s'.tasks[u] == s.tasks[u].(pc := TryPeer, woke := true)))
    && (t in s'.tasks ==> s'.tasks[t].peer == s.tasks[t].peer && s'.tasks[t].cell == s.tasks[t].cell)
  }

  ghost predicate CellsKept(s: State, s': State, t: Task) {
    && t in s.tasks && |s'.cells| == |s.cells|
    && (forall c | 0 <= c < |s.cells| && c != s.tasks[t].cell :: s'.cells[c] == s.cells[c])
  }

  lemma StepKeepsOthers(s: State, t: Task, w: Option<Task>)
    requires Enabled(s, Step(t, w))
    ensures OthersKept(s, StepNext(s, t, w), t)
  {
    hide TasksKept, CellsKept, StepNext;
    StepKeepsTasks(s, t, w);
    StepKeepsCells(s, t, w);
  }

  lemma StepKeepsTasks(s: State, t: Task, w: Option<Task>)
    requires Enabled(s, Step(t, w))
    ensures TasksKept(s, StepNext(s, t, w), t)
  {
  }

  lemma StepKeepsCells(s: State, t: Task, w: Option<Task>)
    requires Enabled(s, Step(t, w))
    ensures CellsKept(s, StepNext(s, t, w), t)
  {
  }

  lemma LeavingKeepsPlaced(s: State, t: Task)
    requires Placed(s) && Counted(s) && t in s.tasks
    ensures Placed(s.(entries := Dropped(s.entries, s.tasks[t].peer), tasks := s.tasks - {t}))
  {
    var mine := s.tasks[t].peer;
    forall u | u in s.tasks && u != t && s.tasks[u].peer == mine
      ensures s.entries[mine].pending > 1
    {
      SubsetSize({t, u}, TasksOf(s, mine));
    }
  }

  lemma LeavingKeepsCounted(s: State, t: Task)
    requires Placed(s) && Counted(s) && t in s.tasks
    ensures Counted(s.(entries := Dropped(s.entries, s.tasks[t].peer), tasks := s.tasks - {t}))
  {
    var mine := s.tasks[t].peer;
    var s' := s.(entries := Dropped(s.entries, mine), tasks := s.tasks - {t});
    assert TasksOf(s', mine) == TasksOf(s, mine) - {t};
    forall p | p in s'.entries && p != mine
      ensures TasksOf(s', p) == TasksOf(s, p)
    {
    }
  }

  lemma SubsetSize<T>(a: set<T>, b: set<T>)
    requires a <= b
    ensures |a| <= |b|
  {
    assert b == a + (b - a);
  }

  lemma StayingKeepsRegistered(s: State, s': State, t: Task)
    requires Placed(s) && Counted(s) && OthersKept(s, s', t) && t in s'.tasks && s'.entries == s.entries
    ensures Placed(s') && Counted(s')
  {
    assert forall u | u in s'.tasks ::
           u in s.tasks && s'.tasks[u].peer == s.tasks[u].peer && s'.tasks[u].cell == s.tasks[u].cell;
    forall p | p in s.entries
      ensures TasksOf(s', p) == TasksOf(s, p)
    {
    }
  }

  /** The peer permit moves between the cell and the task that takes its step. */
  lemma PermitMoveKeepsPeerPermits(s: State, s': State, t: Task)
    requires PeerPermits(s) && OthersKept(s, s', t) && s.tasks[t].cell < |s.cells|
    requires
      var c := s.tasks[t].cell;
      s'.cells[c].permits + (if PeerHolder(s', c, t) then 1 else 0)
      == s.cells[c].permits + (if PeerHolder(s, c, t) then 1 else 0)
    ensures PeerPermits(s')
  {
    var mine := s.tasks[t].cell;
    forall c: nat, u | u != t
      ensures PeerHolder(s', c, u) <==> PeerHolder(s, c, u)
    {
    }
    forall c | 0 <= c < |s'.cells| && s'.cells[c].permits == 0
      ensures exists u :: PeerHolder(s', c, u)
    {
      if PeerHolder(s', c, t) {
      } else {
        var u :| PeerHolder(s, c, u);
        assert PeerHolder(s', c, u);
      }
    }
  }

  /** A global permit moves between the semaphore and the task that takes its step. */
  lemma PermitMoveKeepsGlobalPermits(s: State, s': State, t: Task)
    requires GlobalPermits(s) && OthersKept(s, s', t)
    requires
      s'.permits + (if t in GlobalHolders(s') then 1 else 0) == s.permits + (if t in GlobalHolders(s) then 1 else 0)
    ensures GlobalPermits(s')
  {
    var before, after := GlobalHolders(s), GlobalHolders(s');
    forall u | u != t
      ensures u in after <==> u in before
    {
    }
    SameButOne(before, after, t);
  }

  lemma SameButOne<T>(a: set<T>, b: set<T>, x: T)
    requires forall y | y != x :: y in a <==> y in b
    ensures |a| + (if x in b then 1 else 0) == |b| + (if x in a then 1 else 0)
  {
    assert b == (a - {x}) + (if x in b then {x} else {});
  }

  /** Every way a step can disturb the peer wake-ups is made good by the step itself. */
  lemma ServedKeepsPeerWakes(s: State, s': State, t: Task)
    requires PeerWakes(s) && OthersKept(s, s', t) && s.tasks[t].cell < |s.cells|
    requires
      var c := s.tasks[t].cell;
      var was, now := s.cells[c].stored, s'.cells[c].stored;
      && (t in s'.tasks && NeedsPeer(s'.tasks[t].pc) && !NeedsPeer(s.tasks[t].pc) ==> exists u :: PeerServer(s', c, u))
      && (ServesPeer(s.tasks[t].pc) ==> now || exists u :: PeerServer(s', c, u))
      && (was && !now ==> PeerServer(s', c, t))
      && (!was && now ==> forall u | u in s.tasks :: !WaitsOnPeer(s, c, u))
      && (t in s'.tasks && s'.tasks[t].pc.OnPeer? ==> !now)
    ensures PeerWakes(s')
  {
    var mine := s.tasks[t].cell;
    forall v | v in s'.tasks && s'.tasks[v].cell < |s'.cells| && NeedsPeer(s'.tasks[v].pc)
      ensures s'.cells[s'.tasks[v].cell].stored || exists u :: PeerServer(s', s'.tasks[v].cell, u)
      ensures s'.tasks[v].pc.OnPeer? ==> !s'.cells[s'.tasks[v].cell].stored
    {
      var c := s'.tasks[v].cell;
      if v != t {
        assert s'.tasks[v] == s.tasks[v];
      }
      if NeedsPeer(s.tasks[v].pc) && !s.cells[c].stored {
        var u :| PeerServer(s, c, u);
        if u != t {
          assert PeerServer(s', c, u);
        }
      }
    }
  }

  lemma ServedKeepsGlobalWakes(s: State, s': State, t: Task)
    requires GlobalWakes(s) && OthersKept(s, s', t)
    requires
      && (t in s'.tasks && NeedsGlobal(s'.tasks[t].pc) && !NeedsGlobal(s.tasks[t].pc) ==>
            exists u :: GlobalServer(s', u))
      && (ServesGlobal(s.tasks[t]) ==> s'.stored || exists u :: GlobalServer(s', u))
      && (s.stored && !s'.stored ==> GlobalServer(s', t))
      && (!s.stored && s'.stored ==> forall u | u in s.tasks :: !WaitsOnGlobal(s, u))
      && (t in s'.tasks && s'.tasks[t].pc.OnGlobal? ==> !s'.stored)
    ensures GlobalWakes(s')
  {
    forall v | v in s'.tasks && NeedsGlobal(s'.tasks[v].pc)
      ensures s'.stored || exists u :: GlobalServer(s', u)
      ensures s'.tasks[v].pc.OnGlobal? ==> !s'.stored
    {
      if v != t {
        assert s'.tasks[v] == s.tasks[v];
      }
      if NeedsGlobal(s.tasks[v].pc) && !s.stored {
        var u :| GlobalServer(s, u);
        if u != t {
          assert GlobalServer(s', u);
        }
      }
    }
  }

  lemma StepKeepsRegistered(s: State, t: Task, w: Option<Task>)
    requires Placed(s) && Counted(s) && Enabled(s, Step(t, w))
    ensures Placed(StepNext(s, t, w)) && Counted(StepNext(s, t, w))
  {
    if s.tasks[t].pc.Leaving? {
      LeavingKeepsPlaced(s, t);
      LeavingKeepsCounted(s, t);
    } else {
      StepKeepsOthers(s, t, w);
      StepKeepsEntries(s, t, w);
      StayingKeepsRegistered(s, StepNext(s, t, w), t);
    }
  }

  lemma StepKeepsEntries(s: State, t: Task, w: Option<Task>)
    requires Enabled(s, Step(t, w)) && !s.tasks[t].pc.Leaving?
    ensures t in StepNext(s, t, w).tasks && StepNext(s, t, w).entries == s.entries
  {
  }

  lemma StepKeepsPeerPermits(s: State, t: Task, w: Option<Task>)
    requires PeerPermits(s) && Enabled(s, Step(t, w))
    ensures PeerPermits(StepNext(s, t, w))
  {
    StepKeepsOthers(s, t, w);
    PermitMoveKeepsPeerPermits(s, StepNext(s, t, w), t);
  }

  lemma StepKeepsGlobalPermits(s: State, t: Task, w: Option<Task>)
    requires GlobalPermits(s) && Enabled(s, Step(t, w))
    ensures GlobalPermits(StepNext(s, t, w))
  {
    StepKeepsOthers(s, t, w);
    PermitMoveKeepsGlobalPermits(s, StepNext(s, t, w), t);
  }

  lemma StepKeepsPeerWakes(s: State, t: Task, w: Option<Task>)
    requires PeerPermits(s) && PeerWakes(s) && Enabled(s, Step(t, w))
    ensures PeerWakes(StepNext(s, t, w))
  {
    var s', c, pc := StepNext(s, t, w), s.tasks[t].cell, s.tasks[t].pc;
    StepKeepsOthers(s, t, w);
    if pc.TryPeer? && s.cells[c].permits == 0 {
      var u :| PeerHolder(s, c, u);
      assert PeerServer(s', c, u);
    } else if (pc.TellPeer? || pc.TellPeerDone?) && w.Some? {
      assert PeerServer(s', c, w.value);
    } else if t in s'.tasks && ServesPeer(s'.tasks[t].pc) {
      assert PeerServer(s', c, t);
    }
    ServedKeepsPeerWakes(s, s', t);
  }

  lemma StepKeepsGlobalWakes(s: State, t: Task, w: Option<Task>)
    requires GlobalPermits(s) && GlobalWakes(s) && Enabled(s, Step(t, w))
    ensures GlobalWakes(StepNext(s, t, w))
  {
    var s', pc := StepNext(s, t, w), s.tasks[t].pc;
    StepKeepsOthers(s, t, w);
    if pc.TryGlobal? && s.permits == 0 {
      assert GlobalHolders(s) != {};
      var u :| u in GlobalHolders(s);
      assert GlobalServer(s', u);
    } else if (pc.TellGlobal? || (pc.PassWake? && s.tasks[t].woke)) && w.Some? {
      assert GlobalServer(s', w.value);
    } else if t in s'.tasks && ServesGlobal(s'.tasks[t]) {
      assert GlobalServer(s', t);
    }
    ServedKeepsGlobalWakes(s, s', t);
  }

  /** A new task starts without permits, so only the registration of its peer changes. */
  lemma AdmitKeepsPlaced(s: State, t: Task, peer: Peer)
    requires Placed(s) && t !in s.tasks
    ensures Placed(AdmitNext(s, t, peer))
  {
  }

  lemma AdmitKeepsCounted(s: State, t: Task, peer: Peer)
    requires Placed(s) && Counted(s) && t !in s.tasks
    ensures Counted(AdmitNext(s, t, peer))
  {
    var s' := AdmitNext(s, t, peer);
    if s' != s {
      assert peer !in s.entries ==> TasksOf(s, peer) == {};
      assert TasksOf(s', peer) == TasksOf(s, peer) + {t};
      forall p | p in s'.entries && p != peer
        ensures TasksOf(s', p) == TasksOf(s, p)
      {
      }
    }
  }

  lemma AdmitKeepsPermits(s: State, t: Task, peer: Peer)
    requires Placed(s) && PeerPermits(s) && GlobalPermits(s) && t !in s.tasks
    ensures PeerPermits(AdmitNext(s, t, peer)) && GlobalPermits(AdmitNext(s, t, peer))
  {
    var s' := AdmitNext(s, t, peer);
    assert GlobalHolders(s') == GlobalHolders(s);
    forall c: nat, u
      ensures PeerHolder(s', c, u) <==> PeerHolder(s, c, u)
    {
    }
    forall c | 0 <= c < |s'.cells| && s'.cells[c].permits == 0
      ensures exists u :: PeerHolder(s', c, u)
    {
      var u :| PeerHolder(s, c, u);
      assert PeerHolder(s', c, u);
    }
  }

  lemma AdmitKeepsPeerWakes(s: State, t: Task, peer: Peer)
    requires Placed(s) && PeerWakes(s) && t !in s.tasks
    ensures PeerWakes(AdmitNext(s, t, peer))
  {
    var s' := AdmitNext(s, t, peer);
    forall v | v in s'.tasks && s'.tasks[v].cell < |s'.cells| && NeedsPeer(s'.tasks[v].pc)
      ensures s'.cells[s'.tasks[v].cell].stored || exists u :: PeerServer(s', s'.tasks[v].cell, u)
    {
      var c := s'.tasks[v].cell;
      assert s.tasks[v] == s'.tasks[v];
      if !s.cells[c].stored {
        var u :| PeerServer(s, c, u);
        assert PeerServer(s', c, u);
      }
    }
  }

  lemma AdmitKeepsGlobalWakes(s: State, t: Task, peer: Peer)
    requires GlobalWakes(s) && t !in s.tasks
    ensures GlobalWakes(AdmitNext(s, t, peer))
  {
    var s' := AdmitNext(s, t, peer);
    if !s.stored && exists u :: GlobalServer(s, u) {
      var u :| GlobalServer(s, u);
      assert GlobalServer(s', u);
    }
  }

  lemma NextKeepsInv(s: State, a: Action)
    requires Inv(s) && Enabled(s, a)
    ensures Inv(Next(s, a))
  {
    match a {
      case Admit(t, peer) =>
        AdmitKeepsPlaced(s, t, peer);
        AdmitKeepsCounted(s, t, peer);
        AdmitKeepsPermits(s, t, peer);
        AdmitKeepsPeerWakes(s, t, peer);
        AdmitKeepsGlobalWakes(s, t, peer);
      case Step(t, w) =>
        StepKeepsRegistered(s, t, w);
        StepKeepsPeerPermits(s, t, w);
        StepKeepsGlobalPermits(s, t, w);
        StepKeepsPeerWakes(s, t, w);
        StepKeepsGlobalWakes(s, t, w);
    }
  }

  lemma {:induction false} RunKeepsInv(s: State, acts: seq<Action>, s': State)
    requires Inv(s) && Run(s, acts, s')
    ensures Inv(s')
    decreases |acts|
  {
    if acts != [] {
      NextKeepsInv(s, acts[0]);
      RunKeepsInv(Next(s, acts[0]), acts[1..], s');
    }
  }

  lemma ReachableInv(s: State)
    requires Reachable(s)
    ensures Inv(s)
  {
    var acts :| Run(INIT, acts, s);
    assert GlobalHolders(INIT) == {};
    RunKeepsInv(INIT, acts, s);
  }

  // ----- What holds in every reachable state -----

  /**
    At most one permit per peer and four in total are held, at most 32 admissions per peer are
    live, and the map has an entry exactly for the peers with a live admission.
  */
  lemma LimitsHold(s: State)
    requires Reachable(s)
    ensures forall t, u | t in s.tasks && u in s.tasks && HoldsPeer(s.tasks[t].pc) && HoldsPeer(s.tasks[u].pc)
              && s.tasks[t].peer == s.tasks[u].peer :: t == u
    ensures |GlobalHolders(s)| <= SNAPSHOT_WORKER_COUNT
    ensures forall p :: |TasksOf(s, p)| <= MAX_PENDING_PER_PEER
    ensures forall p :: p in s.entries <==> TasksOf(s, p) != {}
  {
    ReachableInv(s);
    forall p
      ensures |TasksOf(s, p)| <= MAX_PENDING_PER_PEER && (p in s.entries <==> TasksOf(s, p) != {})
    {
      if p !in s.entries {
        assert TasksOf(s, p) == {};
      }
    }
    forall t, u | t in s.tasks && u in s.tasks && HoldsPeer(s.tasks[t].pc) && HoldsPeer(s.tasks[u].pc)
      && s.tasks[t].peer == s.tasks[u].peer
      ensures t == u
    {
      assert PeerHolder(s, s.tasks[t].cell, t) && PeerHolder(s, s.tasks[t].cell, u);
    }
  }

  predicate Waiting(pc: Pc) { pc.OnPeer? || pc.OnGlobal? }

  /**
    No wake-up is lost: behind a task registered with its peer's notification there is a task of
    the same peer that is not waiting and is about to try, holds, or is about to announce the
    peer permit; and likewise behind one registered with the global notification.
  */
  lemma NoLostWakeUp(s: State, t: Task)
    requires Reachable(s) && t in s.tasks
    ensures s.tasks[t].pc.OnPeer? ==>
              exists u :: u in s.tasks && s.tasks[u].peer == s.tasks[t].peer && ServesPeer(s.tasks[u].pc)
    ensures s.tasks[t].pc.OnGlobal? ==>
              exists u :: u in s.tasks && ServesGlobal(s.tasks[u])
  {
    ReachableInv(s);
    if s.tasks[t].pc.OnPeer? {
      var u :| PeerServer(s, s.tasks[t].cell, u);
      assert s.tasks[u].peer == s.tasks[t].peer;
    }
    if s.tasks[t].pc.OnGlobal? {
      var u :| GlobalServer(s, u);
    }
  }

  /** A task that is not waiting can step, whichever task its notification wakes. */
  lemma AnyStep(s: State, t: Task) returns (a: Action)
    requires Inv(s) && t in s.tasks && !Waiting(s.tasks[t].pc)
    ensures a.Step? && a.task == t && Enabled(s, a)
  {
    var c := s.tasks[t].cell;
    if s.tasks[t].pc.TellPeer? || s.tasks[t].pc.TellPeerDone? {
      if u :| u in s.tasks && WaitsOnPeer(s, c, u) {
        a := Step(t, Some(u));
      } else {
        a := Step(t, None);
      }
    } else if u :| u in s.tasks && WaitsOnGlobal(s, u) {
      a := Step(t, Some(u));
    } else {
      a := Step(t, None);
    }
  }

  // ----- Every reachable state can be drained -----

  ghost predicate OnlySteps(acts: seq<Action>) {
    forall a | a in acts :: a.Step?
  }

  /** Some schedule of the tasks already admitted leads from `s` to `s'`. */
  ghost predicate Leads(s: State, s': State) {
    exists acts :: Run(s, acts, s') && OnlySteps(acts)
  }

  lemma {:induction false} RunsCompose(s: State, first: seq<Action>, mid: State, more: seq<Action>, s': State)
    requires Run(s, first, mid) && Run(mid, more, s')
    ensures Run(s, first + more, s')
    decreases |first|
  {
    if first == [] {
      assert first + more == more;
    } else {
      RunsCompose(Next(s, first[0]), first[1..], mid, more, s');
      assert (first + more)[1..] == first[1..] + more;
    }
  }

  lemma LeadsOn(s: State, mid: State, s': State)
    requires Leads(s, mid) && Leads(mid, s')
    ensures Leads(s, s')
  {
    var first :| Run(s, first, mid) && OnlySteps(first);
    var more :| Run(mid, more, s') && OnlySteps(more);
    RunsCompose(s, first, mid, more, s');
    assert OnlySteps(first + more);
  }

  lemma StayLeads(s: State)
    ensures Leads(s, s)
  {
    assert Run(s, [], s) && OnlySteps([]);
  }

  lemma StepLeads(s: State, t: Task, w: Option<Task>)
    requires Enabled(s, Step(t, w))
    ensures Leads(s, StepNext(s, t, w))
  {
    var acts := [Step(t, w)];
    assert Run(StepNext(s, t, w), acts[1..], StepNext(s, t, w));
    assert Run(s, acts, StepNext(s, t, w)) && OnlySteps(acts);
  }

  /** How far a task is from the end of its fetch, when the permits it still needs are free. */
  function Left(pc: Pc): nat {
    match pc
    case TryPeer => 7
    case TryGlobal => 6
    case Fetching => 5
    case TellPeerDone => 4
    case DropGlobal => 3
    case TellGlobal => 2
    case Leaving => 1
    case _ => 0
  }

  predicate CanFinish(s: State, t: Task) {
    && t in s.tasks
    && s.tasks[t].cell < |s.cells|
    && Left(s.tasks[t].pc) > 0
    && (s.tasks[t].pc.TryPeer? ==> s.cells[s.tasks[t].cell].permits > 0)
    && (s.tasks[t].pc.TryPeer? || s.tasks[t].pc.TryGlobal? ==> s.permits > 0)
  }

  lemma StepTowardsEnd(s: State, t: Task, w: Option<Task>)
    requires Enabled(s, Step(t, w)) && CanFinish(s, t)
    ensures var s' := StepNext(s, t, w);
            if Left(s.tasks[t].pc) == 1 then t !in s'.tasks
            else CanFinish(s', t) && Left(s'.tasks[t].pc) == Left(s.tasks[t].pc) - 1
  {
  }

  lemma OneStepTowardsEnd(s: State, t: Task) returns (s': State)
    requires Inv(s) && CanFinish(s, t)
    ensures Leads(s, s') && Inv(s') && s'.tasks.Keys + {t} == s.tasks.Keys
    ensures t in s'.tasks ==> CanFinish(s', t) && Left(s'.tasks[t].pc) < Left(s.tasks[t].pc)
  {
    hide StepNext, Inv, Leads, Weight;
    var a := AnyStep(s, t);
    s' := StepNext(s, t, a.woken);
    NextKeepsInv(s, a);
    StepLeads(s, t, a.woken);
    StepTowardsEnd(s, t, a.woken);
    StepKeepsOthers(s, t, a.woken);
  }

  lemma {:induction false} Finish(s: State, t: Task) returns (s': State)
    requires Inv(s) && CanFinish(s, t)
    ensures Leads(s, s') && Inv(s') && s'.tasks.Keys == s.tasks.Keys - {t}
    decreases Left(s.tasks[t].pc)
  {
    hide *;
    s' := OneStepTowardsEnd(s, t);
    if t in s'.tasks {
      var mid := s';
      s' := Finish(mid, t);
      LeadsOn(s, mid, s');
    }
  }

  /** How far a task is from registering with a notification. */
  function Rank(pc: Pc): nat {
    match pc
    case GiveBack => 3
    case TellPeer => 2
    case PassWake => 2
    case AwaitGlobal => 1
    case AwaitPeer => 1
    case _ => 0
  }

  function Late(s: State, k: nat): set<Task> {
    set t | t in s.tasks && Rank(s.tasks[t].pc) >= k
  }

  function Weight(s: State): nat {
    |Late(s, 1)| + |Late(s, 2)| + |Late(s, 3)|
  }

  lemma LowerRankLowersWeight(s: State, s': State, t: Task)
    requires OthersKept(s, s', t) && t in s'.tasks && Rank(s'.tasks[t].pc) < Rank(s.tasks[t].pc)
    ensures Weight(s') < Weight(s)
  {
    var k := Rank(s.tasks[t].pc);
    forall j | 1 <= j <= 3
      ensures Late(s', j) <= Late(s, j)
    {
    }
    assert t in Late(s, k) && t !in Late(s', k);
    SubsetSize(Late(s', 1), Late(s, 1));
    SubsetSize(Late(s', 2), Late(s, 2));
    SubsetSize(Late(s', 3), Late(s, 3));
    SubsetSize(Late(s', k), Late(s, k) - {t});
  }

  lemma OneRankedStep(s: State, t: Task) returns (s': State)
    requires Inv(s) && t in s.tasks && Rank(s.tasks[t].pc) > 0
    ensures Leads(s, s') && Inv(s') && s'.tasks.Keys == s.tasks.Keys && Weight(s') < Weight(s)
  {
    hide StepNext, Inv, Leads, Weight;
    var a := AnyStep(s, t);
    s' := StepNext(s, t, a.woken);
    NextKeepsInv(s, a);
    StepLeads(s, t, a.woken);
    StepKeepsOthers(s, t, a.woken);
    StepLowersRank(s, t, a.woken);
    LowerRankLowersWeight(s, s', t);
  }

  lemma StepLowersRank(s: State, t: Task, w: Option<Task>)
    requires Enabled(s, Step(t, w)) && Rank(s.tasks[t].pc) > 0
    ensures t in StepNext(s, t, w).tasks && Rank(StepNext(s, t, w).tasks[t].pc) < Rank(s.tasks[t].pc)
  {
  }

  lemma UnheldPermitsAreFree(s: State, t: Task)
    requires Placed(s) && PeerPermits(s) && GlobalPermits(s) && t in s.tasks
    requires forall u | u in s.tasks :: !HoldsGlobal(s.tasks[u].pc)
    ensures s.permits > 0
    ensures (forall u | u in s.tasks :: !HoldsPeer(s.tasks[u].pc)) ==> s.cells[s.tasks[t].cell].permits > 0
  {
  }

  lemma SomebodyTries(s: State) returns (t: Task)
    requires Placed(s) && PeerWakes(s) && GlobalWakes(s) && s.tasks != map[]
    requires forall u | u in s.tasks :: s.tasks[u].pc.TryPeer? || Waiting(s.tasks[u].pc)
    ensures t in s.tasks && s.tasks[t].pc.TryPeer?
  {
    var v :| v in s.tasks;
    if s.tasks[v].pc.OnPeer? {
      assert s.tasks[v].cell < |s.cells|;
      hide Placed, GlobalWakes;
      t :| PeerServer(s, s.tasks[v].cell, t);
    } else if s.tasks[v].pc.OnGlobal? {
      hide Placed, PeerWakes;
      t :| GlobalServer(s, t);
    } else {
      t := v;
    }
  }

  /** When no task is on its way to a notification, somebody can finish: not all are waiting. */
  lemma SomebodyCanFinish(s: State) returns (t: Task)
    requires Inv(s) && s.tasks != map[]
    requires forall u | u in s.tasks :: Rank(s.tasks[u].pc) == 0
    ensures t in s.tasks && CanFinish(s, t)
  {
    hide Counted, PeerPermits, GlobalPermits, PeerWakes, GlobalWakes;
    if u :| u in s.tasks && 1 <= Left(s.tasks[u].pc) <= 5 {
      t := u;
    } else if u :| u in s.tasks && s.tasks[u].pc.TryGlobal? {
      t := u;
      UnheldPermitsAreFree(s, t);
    } else {
      t := SomebodyTries(s);
      UnheldPermitsAreFree(s, t);
    }
  }

  lemma {:induction false} Drain(s: State) returns (s': State)
    requires Inv(s)
    ensures Leads(s, s') && Inv(s') && s'.tasks == map[]
    decreases |s.tasks.Keys|, Weight(s)
  {
    hide Inv, Leads, Weight, CanFinish;
    if s.tasks == map[] {
      s' := s;
      StayLeads(s);
    } else {
      var mid;
      if t :| t in s.tasks && Rank(s.tasks[t].pc) > 0 {
        mid := OneRankedStep(s, t);
      } else {
        var t := SomebodyCanFinish(s);
        mid := Finish(s, t);
      }
      s' := Drain(mid);
      LeadsOn(s, mid, s');
    }
  }

  /**
    The limiter never gets stuck: from every reachable state some schedule of the tasks already
    admitted lets all of them finish and leaves the peer map empty and all permits free.
  */
  lemma NeverStuck(s: State)
    requires Reachable(s)
    ensures exists s' ::
              Leads(s, s') && s'.tasks == map[] && s'.entries == map[] && s'.permits == SNAPSHOT_WORKER_COUNT
  {
    ReachableInv(s);
    var s' := Drain(s);
    assert GlobalHolders(s') == {};
    assert forall p | p in s'.entries :: TasksOf(s', p) == {};
    assert s'.entries == map[];
  }

  // ----- The peer map as the limiter keeps it -----

  /** The limiter's mutex-guarded map, and the cells that entries and admissions share. */
  class GossipWorkLimiter {
    var snapshotPeers: map<Peer, Entry>
    var cells: seq<Cell>

    constructor ()
      ensures snapshotPeers == map[] && cells == []
    {
      snapshotPeers, cells := map[], [];
    }

    /** The cell the admission shares, or nothing when the peer's queue is full. */
    method TryAdmitSnapshot(peer: Peer) returns (cell: Option<nat>)
      modifies this
      ensures cell.None? <==> peer in old(snapshotPeers) && old(snapshotPeers)[peer].pending >= MAX_PENDING_PER_PEER
      ensures cell.None? ==> snapshotPeers == old(snapshotPeers) && cells == old(cells)
      ensures cell.Some? ==>
                && cell.value == EntryFor(old(snapshotPeers), |old(cells)|, peer).cell
                && snapshotPeers == Admitted(old(snapshotPeers), |old(cells)|, peer)
                && cells == CellsFor(old(snapshotPeers), old(cells), peer)
    {
      if peer !in snapshotPeers {
        snapshotPeers := snapshotPeers[peer := Entry(|cells|, 0)];
        cells := cells + [Cell(1, false)];
      }
      var entry := snapshotPeers[peer];
      if entry.pending >= MAX_PENDING_PER_PEER {
        return None;
      }
      snapshotPeers := snapshotPeers[peer := entry.(pending := entry.pending + 1)];
      return Some(entry.cell);
    }

    method DropAdmission(peer: Peer)
      modifies this`snapshotPeers
      ensures snapshotPeers == Dropped(old(snapshotPeers), peer)
    {
      var remove := false;
      if peer in snapshotPeers {
        var entry := snapshotPeers[peer];
        var pending := if entry.pending == 0 then 0 else entry.pending - 1;
        snapshotPeers := snapshotPeers[peer := entry.(pending := pending)];
        remove := pending == 0;
      }
      if remove {
        snapshotPeers := snapshotPeers - {peer};
      }
    }
  }

  /** Dropping an admission undoes it, whether or not it had to make the entry. */
  lemma DropUndoesAdmit(entries: map<Peer, Entry>, next: nat, peer: Peer)
    requires forall p | p in entries :: entries[p].pending >= 1
    ensures Dropped(Admitted(entries, next, peer), peer) == entries
  {
  }
}
