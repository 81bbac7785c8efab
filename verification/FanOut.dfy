/**
  One scope of one network: its membership, version and route tables, the broker bindings made
  for it, and the fence that orders membership mutations and publishes.

  A mutation holds the fence alone; publishes share it.  Every broker call, and every row that a
  publish writes outside a transaction, is a step of its own; any step may be the last one before a
  failure, and broker bindings outlive a rolled-back transaction.  A binding key stands for the
  hash of (network, route address, version).
*/
module FanOut {
  import opened Basics
  import opened Quorum

  type Route = string
  type Version = string

  /** What a network configures: whether the scope is Global, its tenant limit and its Genesis authority. */
  datatype Scope = Scope(global: bool, maxTenants: nat, genesis: Principal, verify: Verify)

  datatype Mutation =
    | Snapshot(version: Version, members: Membership)
    | Change(version: Version, principal: Principal, active: bool)

  datatype Row = Row(version: Version, active: bool, roles: set<Role>)

  datatype RouteRow = RouteRow(route: Route, principal: Principal, cls: Class, version: Version)

  datatype Tables = Tables(members: map<Principal, Row>, routes: set<RouteRow>, version: Option<Version>)

  /** The class queue of a principal is bound to the exchange of that class under (route, version). */
  datatype Binding = Binding(principal: Principal, cls: Class, route: Route, version: Version)

  const CLASSES: set<Class> := {Interactive, Bulk}

  const ALL_ROLES: set<Role> := {Proposer, Verifier, Committer, Finalizer}

  // ----- The tables -----

  function Active(t: Tables): set<Principal> {
    set p | p in t.members && t.members[p].active
  }

  function Desired(t: Tables, m: Mutation): set<Principal> {
    match m
    case Snapshot(_, members) => members.Keys
    case Change(_, p, active) => if active then Active(t) + {p} else Active(t) - {p}
  }

  function KnownRoutes(t: Tables): set<Route> {
    set r | r in t.routes :: r.route
  }

  function RolesIn(m: Mutation, p: Principal): set<Role> {
    if m.Snapshot? && p in m.members then m.members[p] else {}
  }

  /** Every row is revoked, the desired ones are activated, all rows move to the new version. */
  function MembersAfter(t: Tables, m: Mutation): map<Principal, Row> {
    var desired := Desired(t, m);
    map p | p in t.members.Keys + desired ::
      if p in desired then Row(m.version, true, RolesIn(m, p)) else Row(m.version, false, t.members[p].roles)
  }

  function RoutesAfter(routes: set<Route>, desired: set<Principal>, v: Version): set<RouteRow> {
    set r, p, c | r in routes && p in desired && c in CLASSES :: RouteRow(r, p, c, v)
  }

  function TablesAfter(t: Tables, m: Mutation, routes: set<Route>): Tables {
    Tables(MembersAfter(t, m), RoutesAfter(routes, Desired(t, m), m.version), Some(m.version))
  }

  lemma ActiveAfter(t: Tables, m: Mutation, routes: set<Route>)
    ensures Active(TablesAfter(t, m, routes)) == Desired(t, m)
  {
  }

  // ----- The broker -----

  /** Both queues of each principal on each route. */
  function Bindings(routes: set<Route>, ps: set<Principal>, v: Version): set<Binding> {
    set r, p, c | r in routes && p in ps && c in CLASSES :: Binding(p, c, r, v)
  }

  /** The principals whose class queue receives one copy of a record published under (route, version). */
  function Recipients(broker: set<Binding>, cls: Class, r: Route, v: Version): set<Principal> {
    set b | b in broker && b.cls == cls && b.route == r && b.version == v :: b.principal
  }

  // ----- Steps -----

  /** A mutation in progress and the bindings it still has to make. */
  datatype Writer = Writer(m: Mutation, desired: set<Principal>, routes: set<Route>, extra: Option<Route>,
      todo: set<Binding>)

  /** A publish in progress: what its reconciliation still has to bind, to unbind and to write. */
  datatype Reader = Reader(route: Route, cls: Class, version: Version, desired: set<Principal>,
    bind: set<Binding>, unbind: set<Binding>, rows: set<RouteRow>)

  datatype Fence = Shared(readers: map<nat, Reader>) | Exclusive(writer: Writer)

  /** A record handed to the broker, where it went, and who was a member then. */
  datatype Delivery = Delivery(route: Route, cls: Class, version: Version, recipients: set<Principal>,
      members: set<Principal>)

  datatype Approval = Approval(m: Mutation, author: Principal, threshold: nat, sigs: seq<Envelope>, height: nat)

  /** `ledger` maps a version to everyone that some attempt at it wanted as a member. */
  datatype State = State(
    tables: Tables,
    broker: set<Binding>,
    fence: Fence,
    log: seq<Delivery>,
    commits: seq<Mutation>,
    approvals: set<Approval>,
    ledger: map<Version, set<Principal>>)

  function Seeded(sc: Scope, v: Version): State {
    if sc.global then
      State(Tables(map[sc.genesis := Row(v, true, ALL_ROLES)], {}, Some(v)), {}, Shared(map[]), [], [], {},
          map[v := {sc.genesis}])
    else
      State(Tables(map[], {}, None), {}, Shared(map[]), [], [], {}, map[])
  }

  function Wanted(ledger: map<Version, set<Principal>>, v: Version): set<Principal> {
    if v in ledger then ledger[v] else {}
  }

  /** The signers a snapshot of this author may use, as the tables say at the time of the check. */
  function AllowedSigners(sc: Scope, t: Tables, author: Principal): set<Principal> {
    if author == sc.genesis then {sc.genesis}
    else if author in Active(t) && Finalizer in t.members[author].roles
    then set p | p in Active(t) && Finalizer in t.members[p].roles
    else {}
  }

  datatype Action =
    | Approve(approval: Approval)
    | Begin(m: Mutation, extra: Option<Route>)
    | Bind(binding: Binding)
    | Send(cls: Class)
    | Commit
    | Abort
    | Open(id: nat, route: Route, cls: Class)
    | Reconcile(id: nat, binding: Binding)
    | Unbind(id: nat, binding: Binding)
    | Forget(id: nat)
    | Record(id: nat, row: RouteRow)
    | Publish(id: nat)
    | Close(id: nat)
    | AdmitSession(principal: Principal)

  function RoutesFor(t: Tables, extra: Option<Route>): set<Route> {
    KnownRoutes(t) + (if extra.Some? then {extra.value} else {})
  }

  predicate Reading(s: State, id: nat) {
    s.fence.Shared? && id in s.fence.readers
  }

  predicate Enabled(sc: Scope, s: State, a: Action) {
    match a
    case Approve(ap) =>
      && sc.global && ap.m.Snapshot? && ap.height == |s.commits|
      && Accepted(sc.verify, AllowedSigners(sc, s.tables, ap.author), ap.m.members, ap.threshold, ap.sigs)
    case Begin(m, _) =>
      && s.fence == Shared(map[])
      && (m.Snapshot? ==> sc.global && exists ap | ap in s.approvals :: ap.m == m)
      && (sc.global ==> |Desired(s.tables, m)| <= sc.maxTenants)
    case Bind(b) => s.fence.Exclusive? && b in s.fence.writer.todo
    case Send(_) => s.fence.Exclusive? && s.fence.writer.todo == {} && s.fence.writer.extra.Some?
    case Commit => s.fence.Exclusive? && s.fence.writer.todo == {}
    case Abort => s.fence.Exclusive?
    case Open(id, _, _) => s.fence.Shared? && id !in s.fence.readers && s.tables.version.Some?
    case Reconcile(id, b) => Reading(s, id) && b in s.fence.readers[id].bind
    case Unbind(id, b) => Reading(s, id) && b in s.fence.readers[id].unbind
    case Forget(id) => Reading(s, id)
    case Record(id, row) => Reading(s, id) && row in s.fence.readers[id].rows
    case Publish(id) => Reading(s, id) && s.fence.readers[id].bind == {} && s.fence.readers[id].unbind == {}
    case Close(id) => Reading(s, id)
    case AdmitSession(p) => sc.global && p in Active(s.tables)
  }

  function BeginWriter(t: Tables, m: Mutation, extra: Option<Route>): Writer {
    var desired, routes := Desired(t, m), RoutesFor(t, extra);
    Writer(m, desired, routes, extra, Bindings(routes, desired, m.version))
  }

  /** The members with an active row at the active version. */
  function Current(t: Tables): set<Principal>
    requires t.version.Some?
  {
    set p | p in Active(t) && t.members[p].version == t.version.value
  }

  function Existing(t: Tables, route: Route): set<Principal> {
    set r | r in t.routes && r.route == route :: r.principal
  }

  /** A publish binds and records the current members and unbinds whoever else has a row of the route. */
  function OpenReader(t: Tables, route: Route, cls: Class): Reader
    requires t.version.Some?
  {
    var desired, v := Current(t), t.version.value;
    Reader(route, cls, v, desired, Bindings({route}, desired, v), Bindings({route}, Existing(t, route) - desired, v),
      RoutesAfter({route}, desired, v))
  }

  function WithReader(s: State, id: nat, r: Reader): State
    requires s.fence.Shared?
  {
    s.(fence := Shared(s.fence.readers[id := r]))
  }

  function OtherRoutes(t: Tables, route: Route): set<RouteRow> {
    set r | r in t.routes && r.route != route
  }

  function SessionBindings(t: Tables, p: Principal): set<Binding> {
    set r, c | r in t.routes && c in CLASSES :: Binding(p, c, r.route, r.version)
  }

  function Next(sc: Scope, s: State, a: Action): State
    requires Enabled(sc, s, a)
  {
    match a
    case Approve(ap) => s.(approvals := s.approvals + {ap})
    case Begin(m, extra) =>
      s.(fence := Exclusive(BeginWriter(s.tables, m, extra)),
         ledger := s.ledger[m.version := Wanted(s.ledger, m.version) + Desired(s.tables, m)])
    case Bind(b) =>
      var w := s.fence.writer;
      s.(broker := s.broker + {b}, fence := Exclusive(w.(todo := w.todo - {b})))
    case Send(cls) =>
      var w := s.fence.writer;
      var to := Recipients(s.broker, cls, w.extra.value, w.m.version);
      s.(log := s.log + [Delivery(w.extra.value, cls, w.m.version, to, w.desired)])
    case Commit =>
      var w := s.fence.writer;
      s.(tables := TablesAfter(s.tables, w.m, w.routes), fence := Shared(map[]), commits := s.commits + [w.m])
    case Abort => s.(fence := Shared(map[]))
    case Open(id, route, cls) => WithReader(s, id, OpenReader(s.tables, route, cls))
    case Reconcile(id, b) =>
      var r := s.fence.readers[id];
      WithReader(s.(broker := s.broker + {b}), id, r.(bind := r.bind - {b}))
    case Unbind(id, b) =>
      var r := s.fence.readers[id];
      WithReader(s.(broker := s.broker - {b}), id, r.(unbind := r.unbind - {b}))
    case Forget(id) => s.(tables := s.tables.(routes := OtherRoutes(s.tables, s.fence.readers[id].route)))
    case Record(id, row) =>
      var r := s.fence.readers[id];
      WithReader(s.(tables := s.tables.(routes := s.tables.routes + {row})), id, r.(rows := r.rows - {row}))
    case Publish(id) =>
      var r := s.fence.readers[id];
      var to := Recipients(s.broker, r.cls, r.route, r.version);
      s.(log := s.log + [Delivery(r.route, r.cls, r.version, to, Active(s.tables))])
    case Close(id) => s.(fence := Shared(s.fence.readers - {id}))
    case AdmitSession(p) => s.(broker := s.broker + SessionBindings(s.tables, p))
  }

  ghost predicate Run(sc: Scope, s: State, acts: seq<Action>, s': State)
    decreases |acts|
  {
    if acts == [] then s == s'
    else Enabled(sc, s, acts[0]) && Run(sc, Next(sc, s, acts[0]), acts[1..], s')
  }

  /** No mutation of the run, failed ones included, attempts a version that was attempted before. */
  ghost predicate NoReuse(sc: Scope, s: State, acts: seq<Action>, s': State)
    requires Run(sc, s, acts, s')
    decreases |acts|
  {
    acts != [] ==>
      && (acts[0].Begin? ==> acts[0].m.version !in s.ledger)
      && NoReuse(sc, Next(sc, s, acts[0]), acts[1..], s')
  }

  // ----- What every step keeps -----

  /** A binding exists only for someone that some attempt at its version wanted. */
  ghost predicate Covered(broker: set<Binding>, ledger: map<Version, set<Principal>>) {
    forall b | b in broker :: b.principal in Wanted(ledger, b.version)
  }

  /** Active rows and route rows are all at the active version, and only active members have route rows. */
  ghost predicate Consistent(t: Tables, ledger: map<Version, set<Principal>>) {
    && (forall p | p in Active(t) :: t.version == Some(t.members[p].version))
    && (forall r | r in t.routes :: t.version == Some(r.version) && r.principal in Active(t))
    && (t.version.Some? ==> Active(t) <= Wanted(ledger, t.version.value))
  }

  ghost predicate WriterOk(t: Tables, broker: set<Binding>, ledger: map<Version, set<Principal>>, w: Writer) {
    && w.desired == Desired(t, w.m)
    && w.desired <= Wanted(ledger, w.m.version)
    && (w.extra.Some? ==> w.extra.value in w.routes)
    && (forall b | b in w.todo :: b.principal in w.desired && b.version == w.m.version)
    && Bindings(w.routes, w.desired, w.m.version) <= broker + w.todo
  }

  ghost predicate ReaderOk(t: Tables, broker: set<Binding>, r: Reader) {
    && t.version == Some(r.version)
    && r.desired == Active(t)
    && (forall b | b in r.bind :: b.principal in r.desired && b.version == r.version)
    && (forall b | b in r.unbind :: b.principal !in r.desired)
    && (forall row | row in r.rows :: row.principal in r.desired && row.version == r.version)
    && Bindings({r.route}, r.desired, r.version) <= broker + r.bind
  }

  ghost predicate FenceOk(s: State) {
    match s.fence
    case Exclusive(w) => WriterOk(s.tables, s.broker, s.ledger, w)
    case Shared(readers) => forall id | id in readers :: ReaderOk(s.tables, s.broker, readers[id])
  }

  /** Everyone who is a member when a record is published receives it. */
  ghost predicate NobodyMissed(log: seq<Delivery>) {
    forall d | d in log :: d.members <= d.recipients
  }

  ghost predicate Inv(s: State) {
    Covered(s.broker, s.ledger) && Consistent(s.tables, s.ledger) && FenceOk(s) && NobodyMissed(s.log)
  }

  lemma WriterStepKeepsInv(sc: Scope, s: State, a: Action)
    requires Inv(s) && Enabled(sc, s, a)
    requires a.Begin? || a.Bind? || a.Abort? || a.Approve?
    ensures Inv(Next(sc, s, a))
  {
  }

  lemma CommitKeepsInv(sc: Scope, s: State)
    requires Inv(s) && Enabled(sc, s, Commit)
    ensures Inv(Next(sc, s, Commit))
  {
  }

  lemma BoundAreReached(broker: set<Binding>, routes: set<Route>, ps: set<Principal>, r: Route, v: Version, cls: Class)
    requires r in routes && Bindings(routes, ps, v) <= broker
    ensures ps <= Recipients(broker, cls, r, v)
  {
    forall p | p in ps ensures p in Recipients(broker, cls, r, v) {
      assert Binding(p, cls, r, v) in Bindings(routes, ps, v);
    }
  }

  lemma ReachedAreWanted(broker: set<Binding>, ledger: map<Version, set<Principal>>, r: Route, v: Version, cls: Class)
    requires Covered(broker, ledger)
    ensures Recipients(broker, cls, r, v) <= Wanted(ledger, v)
  {
  }

  lemma SendKeepsInv(sc: Scope, s: State, cls: Class)
    requires Inv(s) && Enabled(sc, s, Send(cls))
    ensures Inv(Next(sc, s, Send(cls)))
  {
    var w := s.fence.writer;
    BoundAreReached(s.broker, w.routes, w.desired, w.extra.value, w.m.version, cls);
    hide Bindings, Recipients;
  }

  lemma PublishKeepsInv(sc: Scope, s: State, id: nat)
    requires Inv(s) && Enabled(sc, s, Publish(id))
    ensures Inv(Next(sc, s, Publish(id)))
  {
    var r := s.fence.readers[id];
    BoundAreReached(s.broker, {r.route}, r.desired, r.route, r.version, r.cls);
    hide Bindings, Recipients;
  }

  lemma OpenKeepsInv(sc: Scope, s: State, id: nat, route: Route, cls: Class)
    requires Inv(s) && Enabled(sc, s, Open(id, route, cls))
    ensures Inv(Next(sc, s, Open(id, route, cls)))
  {
  }

  lemma ReconcileKeepsInv(sc: Scope, s: State, id: nat, b: Binding)
    requires Inv(s) && Enabled(sc, s, Reconcile(id, b))
    ensures Inv(Next(sc, s, Reconcile(id, b)))
  {
  }

  lemma UnbindKeepsInv(sc: Scope, s: State, id: nat, b: Binding)
    requires Inv(s) && Enabled(sc, s, Unbind(id, b))
    ensures Inv(Next(sc, s, Unbind(id, b)))
  {
  }

  lemma SessionStepKeepsInv(sc: Scope, s: State, a: Action)
    requires Inv(s) && Enabled(sc, s, a)
    requires a.Close? || a.AdmitSession?
    ensures Inv(Next(sc, s, a))
  {
  }

  lemma RouteStepKeepsInv(sc: Scope, s: State, a: Action)
    requires Inv(s) && Enabled(sc, s, a)
    requires a.Forget? || a.Record?
    ensures Inv(Next(sc, s, a))
  {
  }

  lemma NextKeepsInv(sc: Scope, s: State, a: Action)
    requires Inv(s) && Enabled(sc, s, a)
    ensures Inv(Next(sc, s, a))
  {
    hide Inv, Enabled, Next;
    match a {
      case Approve(_) => WriterStepKeepsInv(sc, s, a);
      case Begin(_, _) => WriterStepKeepsInv(sc, s, a);
      case Bind(_) => WriterStepKeepsInv(sc, s, a);
      case Abort => WriterStepKeepsInv(sc, s, a);
      case Commit => CommitKeepsInv(sc, s);
      case Send(cls) => SendKeepsInv(sc, s, cls);
      case Publish(id) => PublishKeepsInv(sc, s, id);
      case Open(id, route, cls) => OpenKeepsInv(sc, s, id, route, cls);
      case Forget(_) => RouteStepKeepsInv(sc, s, a);
      case Record(_, _) => RouteStepKeepsInv(sc, s, a);
      case Reconcile(id, b) => ReconcileKeepsInv(sc, s, id, b);
      case Unbind(id, b) => UnbindKeepsInv(sc, s, id, b);
      case _ => SessionStepKeepsInv(sc, s, a);
    }
  }

  // ----- Exact fan-out when no version is attempted twice -----

  /** The current version was wanted by exactly its members; so is the one being attempted. */
  ghost predicate Exact(s: State) {
    && (s.tables.version.Some? ==>
          s.tables.version.value in s.ledger && s.ledger[s.tables.version.value] == Active(s.tables))
    && (s.fence.Exclusive? ==>
          && Wanted(s.ledger, s.fence.writer.m.version) == s.fence.writer.desired
          && s.fence.writer.m.version in s.ledger)
    && (forall d | d in s.log :: d.recipients == d.members)
  }

  lemma SendKeepsExact(sc: Scope, s: State, cls: Class)
    requires Inv(s) && Exact(s) && Enabled(sc, s, Send(cls))
    ensures Exact(Next(sc, s, Send(cls)))
  {
    var w := s.fence.writer;
    BoundAreReached(s.broker, w.routes, w.desired, w.extra.value, w.m.version, cls);
    ReachedAreWanted(s.broker, s.ledger, w.extra.value, w.m.version, cls);
    hide Bindings, Recipients;
  }

  lemma PublishKeepsExact(sc: Scope, s: State, id: nat)
    requires Inv(s) && Exact(s) && Enabled(sc, s, Publish(id))
    ensures Exact(Next(sc, s, Publish(id)))
  {
    var r := s.fence.readers[id];
    BoundAreReached(s.broker, {r.route}, r.desired, r.route, r.version, r.cls);
    ReachedAreWanted(s.broker, s.ledger, r.route, r.version, r.cls);
    hide Bindings, Recipients;
  }

  lemma CommitKeepsExact(sc: Scope, s: State)
    requires Inv(s) && Exact(s) && Enabled(sc, s, Commit)
    ensures Exact(Next(sc, s, Commit))
  {
  }

  lemma NextKeepsExact(sc: Scope, s: State, a: Action)
    requires Inv(s) && Exact(s) && Enabled(sc, s, a)
    requires a.Begin? ==> a.m.version !in s.ledger
    ensures Exact(Next(sc, s, a))
  {
    if a.Send? {
      SendKeepsExact(sc, s, a.cls);
    } else if a.Publish? {
      PublishKeepsExact(sc, s, a.id);
    } else if a.Commit? {
      CommitKeepsExact(sc, s);
    } else {
      assert Active(Next(sc, s, a).tables) == Active(s.tables);
    }
  }

  lemma {:induction false} RunKeepsInv(sc: Scope, s: State, acts: seq<Action>, s': State)
    requires Inv(s) && Run(sc, s, acts, s')
    ensures Inv(s')
    ensures Exact(s) && NoReuse(sc, s, acts, s') ==> Exact(s')
    decreases |acts|
  {
    hide Inv, Exact, Enabled, Next;
    if acts != [] {
      NextKeepsInv(sc, s, acts[0]);
      if Exact(s) && NoReuse(sc, s, acts, s') {
        NextKeepsExact(sc, s, acts[0]);
      }
      RunKeepsInv(sc, Next(sc, s, acts[0]), acts[1..], s');
    }
  }

  lemma SeededInv(sc: Scope, v: Version)
    ensures Inv(Seeded(sc, v)) && Exact(Seeded(sc, v))
  {
  }

  /** Whatever versions are used, failed attempts included, no member is ever missed. */
  lemma NoMemberIsMissed(sc: Scope, v: Version, acts: seq<Action>, s: State, d: Delivery)
    requires Run(sc, Seeded(sc, v), acts, s) && d in s.log
    ensures d.members <= d.recipients
  {
    SeededInv(sc, v);
    RunKeepsInv(sc, Seeded(sc, v), acts, s);
  }

  /** When no version is attempted twice, a record reaches exactly the members at its version. */
  lemma FanOutIsExact(sc: Scope, v: Version, acts: seq<Action>, s: State, d: Delivery)
    requires Run(sc, Seeded(sc, v), acts, s) && NoReuse(sc, Seeded(sc, v), acts, s) && d in s.log
    ensures d.recipients == d.members
  {
    SeededInv(sc, v);
    RunKeepsInv(sc, Seeded(sc, v), acts, s);
  }

  // ----- Roles, quorums and the tenant limit over whole runs -----

  /** Who may sign as a Finalizer, told from the committed mutations alone. */
  function Finalizers(sc: Scope, history: seq<Mutation>): set<Principal> {
    if history == [] then {sc.genesis}
    else match history[|history| - 1]
      case Snapshot(_, members) => set p | p in members && Finalizer in members[p]
      case Change(_, _, _) => {}
  }

  function Signers(sc: Scope, history: seq<Mutation>, author: Principal): set<Principal> {
    if author == sc.genesis then {sc.genesis}
    else if author in Finalizers(sc, history) then Finalizers(sc, history)
    else {}
  }

  predicate ActiveFinalizer(t: Tables, p: Principal) {
    p in Active(t) && Finalizer in t.members[p].roles
  }

  /** The tables name as Finalizers exactly those the committed mutations do. */
  ghost predicate RolesFollow(sc: Scope, t: Tables, history: seq<Mutation>) {
    forall p :: ActiveFinalizer(t, p) <==> p in Finalizers(sc, history)
  }

  ghost predicate ApprovalsSound(sc: Scope, approvals: set<Approval>, commits: seq<Mutation>) {
    forall ap | ap in approvals :: Sound(sc, commits, ap)
  }

  ghost predicate CommitsApproved(approvals: set<Approval>, commits: seq<Mutation>) {
    forall i | 0 <= i < |commits| && commits[i].Snapshot? :: exists ap :: ApprovedBy(approvals, commits[i], i, ap)
  }

  ghost predicate WriterGoverned(sc: Scope, s: State) {
    s.fence.Exclusive? ==>
      && s.fence.writer.desired == Desired(s.tables, s.fence.writer.m)
      && |s.fence.writer.desired| <= sc.maxTenants
      && (s.fence.writer.m.Snapshot? ==> exists ap :: ApprovedBy(s.approvals, s.fence.writer.m, |s.commits|, ap))
  }

  ghost predicate Governed(sc: Scope, s: State) {
    && RolesFollow(sc, s.tables, s.commits)
    && |Active(s.tables)| <= sc.maxTenants
    && WriterGoverned(sc, s)
    && ApprovalsSound(sc, s.approvals, s.commits)
    && CommitsApproved(s.approvals, s.commits)
  }

  /** The approval was checked against the signers of the history at its height. */
  predicate Sound(sc: Scope, commits: seq<Mutation>, ap: Approval) {
    && ap.m.Snapshot?
    && ap.height <= |commits|
    && Accepted(sc.verify, Signers(sc, commits[..ap.height], ap.author), ap.m.members, ap.threshold, ap.sigs)
  }

  predicate ApprovedBy(approvals: set<Approval>, m: Mutation, before: nat, ap: Approval) {
    ap in approvals && ap.m == m && ap.height <= before
  }

  lemma TablesAgreeWithHistory(sc: Scope, s: State, author: Principal)
    requires RolesFollow(sc, s.tables, s.commits)
    ensures AllowedSigners(sc, s.tables, author) == Signers(sc, s.commits, author)
  {
  }

  lemma MoreApprovalsKeepCommits(approvals: set<Approval>, more: set<Approval>, commits: seq<Mutation>)
    requires CommitsApproved(approvals, commits) && approvals <= more
    ensures CommitsApproved(more, commits)
  {
    forall i | 0 <= i < |commits| && commits[i].Snapshot?
      ensures exists ap :: ApprovedBy(more, commits[i], i, ap)
    {
      var ap :| ApprovedBy(approvals, commits[i], i, ap);
      assert ApprovedBy(more, commits[i], i, ap);
    }
  }

  lemma CommitKeepsApprovals(sc: Scope, s: State)
    requires Governed(sc, s) && Enabled(sc, s, Commit)
    ensures var commits := s.commits + [s.fence.writer.m];
            ApprovalsSound(sc, s.approvals, commits) && CommitsApproved(s.approvals, commits)
  {
    hide RolesFollow;
    var commits := s.commits + [s.fence.writer.m];
    forall ap | ap in s.approvals
      ensures Sound(sc, commits, ap)
    {
      assert Sound(sc, s.commits, ap);
      assert commits[..ap.height] == s.commits[..ap.height];
    }
    forall i | 0 <= i < |commits| && commits[i].Snapshot?
      ensures exists ap :: ApprovedBy(s.approvals, commits[i], i, ap)
    {
      assert i < |s.commits| ==> commits[i] == s.commits[i];
      var ap :| ApprovedBy(s.approvals, commits[i], i, ap);
    }
  }

  lemma CommitKeepsRoles(sc: Scope, t: Tables, m: Mutation, routes: set<Route>, history: seq<Mutation>)
    ensures RolesFollow(sc, TablesAfter(t, m, routes), history + [m])
  {
  }

  lemma CommitKeepsGoverned(sc: Scope, s: State)
    requires sc.global && Governed(sc, s) && Enabled(sc, s, Commit)
    ensures Governed(sc, Next(sc, s, Commit))
  {
    var w := s.fence.writer;
    ActiveAfter(s.tables, w.m, w.routes);
    CommitKeepsRoles(sc, s.tables, w.m, w.routes, s.commits);
    CommitKeepsApprovals(sc, s);
    hide RolesFollow, ApprovalsSound, CommitsApproved, TablesAfter, Active;
  }

  lemma ApproveKeepsGoverned(sc: Scope, s: State, ap: Approval)
    requires sc.global && Governed(sc, s) && Enabled(sc, s, Approve(ap))
    ensures Governed(sc, Next(sc, s, Approve(ap)))
  {
    var s' := Next(sc, s, Approve(ap));
    TablesAgreeWithHistory(sc, s, ap.author);
    assert s.commits[..|s.commits|] == s.commits;
    MoreApprovalsKeepCommits(s.approvals, s'.approvals, s.commits);
    if s.fence.Exclusive? && s.fence.writer.m.Snapshot? {
      var earlier :| ApprovedBy(s.approvals, s.fence.writer.m, |s.commits|, earlier);
      assert ApprovedBy(s'.approvals, s.fence.writer.m, |s.commits|, earlier);
    }
  }

  lemma NextKeepsGoverned(sc: Scope, s: State, a: Action)
    requires sc.global && Governed(sc, s) && Enabled(sc, s, a)
    ensures Governed(sc, Next(sc, s, a))
  {
    var s' := Next(sc, s, a);
    if a.Commit? {
      CommitKeepsGoverned(sc, s);
    } else if a.Approve? {
      ApproveKeepsGoverned(sc, s, a.approval);
    } else {
      assert Active(s'.tables) == Active(s.tables);
      if a.Begin? && a.m.Snapshot? {
        var ap :| ap in s.approvals && ap.m == a.m;
        assert ApprovedBy(s.approvals, a.m, |s.commits|, ap);
      }
    }
  }

  lemma {:induction false} RunKeepsGoverned(sc: Scope, s: State, acts: seq<Action>, s': State)
    requires sc.global && Governed(sc, s) && Run(sc, s, acts, s')
    ensures Governed(sc, s')
    decreases |acts|
  {
    hide Governed, Enabled, Next;
    if acts != [] {
      NextKeepsGoverned(sc, s, acts[0]);
      RunKeepsGoverned(sc, Next(sc, s, acts[0]), acts[1..], s');
    }
  }

  lemma SeededGoverned(sc: Scope, v: Version)
    requires sc.global && sc.maxTenants >= 1
    ensures Governed(sc, Seeded(sc, v))
  {
    assert Active(Seeded(sc, v).tables) == {sc.genesis};
  }

  /**
    In every run of the Global scope, a principal is a Finalizer only as the seeded Genesis
    authority before any mutation, or because the most recent mutation is a snapshot that names
    it as one; a principal mutation leaves no Finalizer at all.
  */
  lemma FinalizerOnlyBySeedOrLatestSnapshot(sc: Scope, v: Version, acts: seq<Action>, s: State, p: Principal)
    requires sc.global && sc.maxTenants >= 1 && Run(sc, Seeded(sc, v), acts, s)
    ensures ActiveFinalizer(s.tables, p) <==>
              if s.commits == [] then p == sc.genesis
              else var m := s.commits[|s.commits| - 1]; m.Snapshot? && p in m.members && Finalizer in m.members[p]
  {
    SeededGoverned(sc, v);
    RunKeepsGoverned(sc, Seeded(sc, v), acts, s);
  }

  /**
    Every committed snapshot carries valid signatures over exactly its membership by at least one
    and at least the threshold of distinct signers, all of them allowed by the mutations committed
    before it: the Genesis authority alone, or the Finalizers of the snapshot then in force.
  */
  lemma CommittedSnapshotHadQuorum(sc: Scope, v: Version, acts: seq<Action>, s: State, i: nat)
    requires sc.global && sc.maxTenants >= 1 && Run(sc, Seeded(sc, v), acts, s)
    requires i < |s.commits| && s.commits[i].Snapshot?
    ensures exists ap :: ap in s.approvals && ap.height <= i && ap.m == s.commits[i] &&
              var quorum := ValidSigners(sc.verify, Signers(sc, s.commits[..ap.height], ap.author),
                  s.commits[i].members, ap.sigs);
              |quorum| >= ap.threshold >= 1 && quorum <= Signers(sc, s.commits[..ap.height], ap.author)
  {
    SeededGoverned(sc, v);
    RunKeepsGoverned(sc, Seeded(sc, v), acts, s);
    var ap :| ApprovedBy(s.approvals, s.commits[i], i, ap);
    AcceptedMeansQuorum(sc.verify, Signers(sc, s.commits[..ap.height], ap.author), ap.m.members, ap.threshold, ap.sigs);
  }

  /** The Global membership never exceeds the tenant limit. */
  lemma TenantLimitHolds(sc: Scope, v: Version, acts: seq<Action>, s: State)
    requires sc.global && sc.maxTenants >= 1 && Run(sc, Seeded(sc, v), acts, s)
    ensures |Active(s.tables)| <= sc.maxTenants
    ensures s.fence.Exclusive? ==> |s.fence.writer.desired| <= sc.maxTenants
  {
    SeededGoverned(sc, v);
    RunKeepsGoverned(sc, Seeded(sc, v), acts, s);
  }

  // ----- When a version is attempted again -----

  /** The bindings after a publish on `route` has reconciled them with the tables. */
  function Reconciled(t: Tables, broker: set<Binding>, route: Route): set<Binding>
    requires t.version.Some?
  {
    var v := t.version.value;
    broker + Bindings({route}, Current(t), v) - Bindings({route}, Existing(t, route) - Current(t), v)
  }

  /** The bindings after a mutation has bound its desired members on every route. */
  function Extended(t: Tables, broker: set<Binding>, m: Mutation, extra: Option<Route>): set<Binding> {
    broker + Bindings(RoutesFor(t, extra), Desired(t, m), m.version)
  }

  /**
    After a mutation to version `v` succeeds, a publish on any route reaches exactly the
    new members if and only if everyone already bound under (route, v) when it began, by earlier
    attempts at `v`, is wanted now.
  */
  lemma ExactAgainIff(t: Tables, broker: set<Binding>, m: Mutation, extra: Option<Route>, route: Route, cls: Class)
    ensures
      var after := TablesAfter(t, m, RoutesFor(t, extra));
      Recipients(Reconciled(after, Extended(t, broker, m, extra), route), cls, route, m.version) == Active(after)
      <==> Recipients(broker, cls, route, m.version) <= Desired(t, m)
  {
    var after := TablesAfter(t, m, RoutesFor(t, extra));
    ActiveAfter(t, m, RoutesFor(t, extra));
    var bound := Reconciled(after, Extended(t, broker, m, extra), route);
    var before, to := Recipients(broker, cls, route, m.version), Recipients(bound, cls, route, m.version);
    assert Current(after) == Desired(t, m);
    assert Existing(after, route) <= Desired(t, m);
    assert cls == Interactive || cls == Bulk;
    forall p
      ensures p in to <==> p in before || p in Desired(t, m)
    {
      assert p in to <==> Binding(p, cls, route, m.version) in bound;
      assert p in before <==> Binding(p, cls, route, m.version) in broker;
    }
  }
}
