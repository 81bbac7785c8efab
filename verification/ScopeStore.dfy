/**
  The two operations on a scope as the service runs them, loop by loop, and how they relate to
  the step system of `FanOut`: each is a run of it, and a version that is attempted again can
  leave a former member bound.
*/
module ScopeStore {
  import opened Basics
  import opened Quorum
  import opened FanOut

  lemma BindingsAdd(routes: set<Route>, ps: set<Principal>, p: Principal, v: Version)
    ensures Bindings(routes, ps + {p}, v) == Bindings(routes, ps, v) + Bindings(routes, {p}, v)
    ensures Bindings(routes, {}, v) == {}
  {
  }

  lemma BindingsAddRoute(routes: set<Route>, r: Route, ps: set<Principal>, v: Version)
    ensures Bindings(routes + {r}, ps, v) == Bindings(routes, ps, v) + Bindings({r}, ps, v)
    ensures Bindings({}, ps, v) == {}
  {
  }

  lemma BothClasses(r: Route, p: Principal, v: Version)
    ensures Bindings({r}, {p}, v) == {Binding(p, Interactive, r, v), Binding(p, Bulk, r, v)}
  {
  }

  function ReconciledTables(t: Tables, route: Route): Tables
    requires t.version.Some?
  {
    t.(routes := OtherRoutes(t, route) + RoutesAfter({route}, Current(t), t.version.value))
  }

  // ----- The mutation window -----

  datatype Window = Window(started: int, count: nat, last: Version)

  /** The limits of a scope: mutations per window, and its length. */
  datatype Limits = Limits(mutations: nat, window: nat)

  /** The window row as a mutation counts itself in: a repeated version counts once. */
  function Counted(w: Option<Window>, v: Version, now: int, length: nat): Window {
    if w.None? || w.value.started <= now - length then Window(now, 1, v)
    else if w.value.last == v then w.value
    else w.value.(count := w.value.count + 1, last := v)
  }

  /** One upsert per desired principal. */
  method UpsertActive(rows: map<Principal, Row>, desired: set<Principal>, m: Mutation) returns (r: map<Principal, Row>)
    ensures r.Keys == rows.Keys + desired
    ensures forall p | p in r :: r[p] == if p in desired then Row(m.version, true, RolesIn(m, p)) else rows[p]
  {
    hide RolesIn;
    r := rows;
    var done: set<Principal>, todo := {}, desired;
    while todo != {}
      invariant done + todo == desired && done !! todo
      invariant forall p :: p in r <==> p in rows || p in done
      invariant forall p | p in done :: r[p] == Row(m.version, true, RolesIn(m, p))
      invariant forall p | p in rows && p !in done :: r[p] == rows[p]
      decreases todo
    {
      var p :| p in todo;
      r := r[p := Row(m.version, true, RolesIn(m, p))];
      done, todo := done + {p}, todo - {p};
    }
    assert done == desired;
  }

  datatype Mutated = WindowExceeded | TooManyTenants | BindingFailed | LagExceeded | Applied(count: nat)

  datatype Sent = Refused | NoVersion | BrokerFailed | Delivered(to: set<Principal>)

  /**
    The tables of a scope and the broker.  The broker answers so many more calls and then fails,
    or the call times out; what a failed transaction wrote to the tables is gone, what it bound is
    not.
  */
  class Store {
    var tables: Tables
    var window: Option<Window>
    var broker: set<Binding>
    var calls: nat

    constructor (tables: Tables, broker: set<Binding>, calls: nat)
      ensures this.tables == tables && this.window == None && this.broker == broker && this.calls == calls
    {
      this.tables, this.window, this.broker, this.calls := tables, None, broker, calls;
    }

    method Call() returns (ok: bool)
      modifies this`calls
      ensures ok <==> old(calls) > 0
      ensures calls == if ok then old(calls) - 1 else 0
    {
      ok := calls > 0;
      if ok {
        calls := calls - 1;
      }
    }

    /** Binds both queues, one call each. */
    method BindScopeMember(p: Principal, r: Route, v: Version) returns (ok: bool)
      modifies this`broker, this`calls
      ensures old(broker) <= broker <= old(broker) + Bindings({r}, {p}, v)
      ensures ok ==> broker == old(broker) + Bindings({r}, {p}, v) && calls == old(calls) - 2
      ensures !ok ==> calls == 0 && old(calls) < 2
    {
      BothClasses(r, p, v);
      ok := Call();
      if ok {
        broker := broker + {Binding(p, Interactive, r, v)};
        ok := Call();
        if ok {
          broker := broker + {Binding(p, Bulk, r, v)};
        }
      }
    }

    method UnbindScopeMember(p: Principal, r: Route, v: Version) returns (ok: bool)
      modifies this`broker, this`calls
      ensures old(broker) - Bindings({r}, {p}, v) <= broker <= old(broker)
      ensures ok ==> broker == old(broker) - Bindings({r}, {p}, v) && calls == old(calls) - 2
      ensures !ok ==> calls == 0 && old(calls) < 2
    {
      BothClasses(r, p, v);
      ok := Call();
      if ok {
        broker := broker - {Binding(p, Interactive, r, v)};
        ok := Call();
        if ok {
          broker := broker - {Binding(p, Bulk, r, v)};
        }
      }
    }

    method BindEach(ps: set<Principal>, r: Route, v: Version) returns (ok: bool)
      modifies this`broker, this`calls
      ensures old(broker) <= broker <= old(broker) + Bindings({r}, ps, v)
      ensures ok ==> broker == old(broker) + Bindings({r}, ps, v) && calls == old(calls) - 2 * |ps|
      ensures !ok ==> calls == 0 && old(calls) < 2 * |ps|
    {
      hide Bindings;
      BindingsAdd({r}, {}, "", v);
      var done: set<Principal>, todo := {}, ps;
      while todo != {}
        invariant done + todo == ps && done !! todo
        invariant broker == old(broker) + Bindings({r}, done, v) && calls == old(calls) - 2 * |done|
        decreases |todo|
      {
        var p :| p in todo;
        BindingsAdd({r}, done, p, v);
        Includes({r}, done + {p}, ps, v);
        Smaller(done + {p}, ps);
        var bound := BindScopeMember(p, r, v);
        if !bound {
          return false;
        }
        done, todo := done + {p}, todo - {p};
      }
      assert done == ps;
      return true;
    }

    method UnbindEach(ps: set<Principal>, r: Route, v: Version) returns (ok: bool)
      modifies this`broker, this`calls
      ensures old(broker) - Bindings({r}, ps, v) <= broker <= old(broker)
      ensures ok ==> broker == old(broker) - Bindings({r}, ps, v) && calls == old(calls) - 2 * |ps|
      ensures !ok ==> calls == 0 && old(calls) < 2 * |ps|
    {
      hide Bindings;
      BindingsAdd({r}, {}, "", v);
      var done: set<Principal>, todo := {}, ps;
      while todo != {}
        invariant done + todo == ps && done !! todo
        invariant broker == old(broker) - Bindings({r}, done, v) && calls == old(calls) - 2 * |done|
        decreases |todo|
      {
        var p :| p in todo;
        BindingsAdd({r}, done, p, v);
        Includes({r}, done + {p}, ps, v);
        Smaller(done + {p}, ps);
        var unbound := UnbindScopeMember(p, r, v);
        if !unbound {
          return false;
        }
        done, todo := done + {p}, todo - {p};
      }
      assert done == ps;
      return true;
    }

    /** Binds the current members, unbinds the rest of the route, then rewrites its rows. */
    method ReconcileScopeBindings(route: Route) returns (ok: bool)
      modifies this`tables, this`broker, this`calls
      ensures ok ==> old(tables).version.Some?
      ensures ok ==>
                broker == Reconciled(old(tables), old(broker), route)
                && tables == ReconciledTables(old(tables), route)
      ensures ok ==>
                calls == old(calls) - 2 * |Current(old(tables))|
                         - 2 * |Existing(old(tables), route) - Current(old(tables))|
      ensures !ok ==> tables == old(tables)
      ensures !ok && old(tables).version.None? ==> broker == old(broker)
      ensures !ok && old(tables).version.Some? ==>
                && calls == 0
                && broker <= old(broker) + Bindings({route}, Current(old(tables)), old(tables).version.value)
                && old(broker)
                   - Bindings({route}, Existing(old(tables), route) - Current(old(tables)), old(tables).version.value)
                   <= broker
    {
      hide Bindings;
      if tables.version.None? {
        return false;
      }
      var v := tables.version.value;
      var desired := Current(tables);
      var stale := Existing(tables, route) - desired;
      ok := BindEach(desired, route, v);
      if !ok {
        return false;
      }
      ok := UnbindEach(stale, route, v);
      if !ok {
        return false;
      }
      tables := tables.(routes := OtherRoutes(tables, route));
      tables := tables.(routes := tables.routes + RoutesAfter({route}, desired, v));
    }

    /**
      Counts the mutation, binds every desired member on every known route, then rewrites the
      tables.  A refusal leaves everything as it was; a failure on the way leaves only bindings.
    */
    method ApplyMembershipMutation(sc: Scope, limits: Limits, m: Mutation, extra: Option<Route>, now: int,
        lagging: bool) returns (r: Mutated)
      modifies this
      ensures r == WindowExceeded <==> Counted(old(window), m.version, now, limits.window).count > limits.mutations
      ensures r == TooManyTenants <==>
                && Counted(old(window), m.version, now, limits.window).count <= limits.mutations
                && sc.global && |Desired(old(tables), m)| > sc.maxTenants
      ensures r == WindowExceeded || r == TooManyTenants ==> broker == old(broker)
      ensures r == BindingFailed ==> calls == 0 && old(broker) <= broker <= Extended(old(tables), old(broker), m, extra)
      ensures r == LagExceeded ==> lagging && broker == Extended(old(tables), old(broker), m, extra)
      ensures !r.Applied? ==> tables == old(tables) && window == old(window)
      ensures r.Applied? ==>
                && !lagging && r.count == |Desired(old(tables), m)|
                && window == Some(Counted(old(window), m.version, now, limits.window))
                && tables == TablesAfter(old(tables), m, RoutesFor(old(tables), extra))
                && broker == Extended(old(tables), old(broker), m, extra)
    {
      var counted := Counted(window, m.version, now, limits.window);
      if counted.count > limits.mutations {
        return WindowExceeded;
      }
      var desired := Desired(tables, m);
      if sc.global && |desired| > sc.maxTenants {
        return TooManyTenants;
      }
      var routes := RoutesFor(tables, extra);
      var bound := BindAll(routes, desired, m.version);
      if !bound {
        return BindingFailed;
      }
      if lagging {
        return LagExceeded;
      }
      RewriteMembers(m, desired);
      tables := tables.(routes := RoutesAfter(routes, desired, m.version), version := Some(m.version));
      window := Some(counted);
      return Applied(|desired|);
    }

    method BindAll(routes: set<Route>, desired: set<Principal>, v: Version) returns (ok: bool)
      modifies this`broker, this`calls
      ensures old(broker) <= broker <= old(broker) + Bindings(routes, desired, v)
      ensures ok ==> broker == old(broker) + Bindings(routes, desired, v)
      ensures !ok ==> calls == 0
    {
      hide Bindings;
      BindingsAddRoute({}, "", desired, v);
      var done: set<Route>, todo := {}, routes;
      while todo != {}
        invariant done + todo == routes && done !! todo
        invariant broker == old(broker) + Bindings(done, desired, v)
        decreases |todo|
      {
        var r :| r in todo;
        BindingsAddRoute(done, r, desired, v);
        IncludesRoutes(done + {r}, routes, desired, v);
        var bound := BindEach(desired, r, v);
        if !bound {
          return false;
        }
        done, todo := done + {r}, todo - {r};
      }
      assert done == routes;
      return true;
    }

    /** Revokes every row, then upserts the desired principals as active. */
    method RewriteMembers(m: Mutation, desired: set<Principal>)
      requires desired == Desired(tables, m)
      modifies this`tables
      ensures tables == old(tables).(members := MembersAfter(old(tables), m))
    {
      var rows := map p | p in tables.members :: tables.members[p].(version := m.version, active := false);
      rows := UpsertActive(rows, desired, m);
      tables := tables.(members := rows);
    }

    /** Reconciles and publishes, once the payload and the buckets admit the record. */
    method PublishShared(route: Route, cls: Class, admitted: bool) returns (r: Sent)
      modifies this`tables, this`broker, this`calls
      ensures r == Refused <==> !admitted
      ensures r == NoVersion <==> admitted && old(tables).version.None?
      ensures r == Refused || r == NoVersion ==> tables == old(tables) && broker == old(broker)
      ensures r == BrokerFailed ==>
                && calls == 0 && old(tables).version.Some?
                && (tables == old(tables) || tables == ReconciledTables(old(tables), route))
                && broker <= old(broker) + Bindings({route}, Current(old(tables)), old(tables).version.value)
                && old(broker)
                   - Bindings({route}, Existing(old(tables), route) - Current(old(tables)), old(tables).version.value)
                   <= broker
      ensures r.Delivered? ==>
                && broker == Reconciled(old(tables), old(broker), route)
                && tables == ReconciledTables(old(tables), route)
                && r.to == Recipients(broker, cls, route, old(tables).version.value)
    {
      if !admitted {
        return Refused;
      }
      if tables.version.None? {
        return NoVersion;
      }
      var v := tables.version.value;
      var ok := ReconcileScopeBindings(route);
      if ok {
        ok := Call();
      }
      if !ok {
        return BrokerFailed;
      }
      return Delivered(Recipients(broker, cls, route, v));
    }
  }

  lemma Includes(routes: set<Route>, ps: set<Principal>, qs: set<Principal>, v: Version)
    requires ps <= qs
    ensures Bindings(routes, ps, v) <= Bindings(routes, qs, v)
  {
  }

  lemma IncludesRoutes(rs: set<Route>, routes: set<Route>, ps: set<Principal>, v: Version)
    requires rs <= routes
    ensures Bindings(rs, ps, v) <= Bindings(routes, ps, v)
  {
  }

  lemma Smaller(ps: set<Principal>, qs: set<Principal>)
    requires ps <= qs
    ensures |ps| <= |qs|
  {
    assert |qs| == |ps| + |qs - ps|;
  }

  // ----- The operations as runs of the step system -----

  predicate Quiet(s: State) { s.fence == Shared(map[]) }

  /** The state after an undisturbed mutation. */
  function AfterMutation(s: State, m: Mutation, extra: Option<Route>): State {
    s.(tables := TablesAfter(s.tables, m, RoutesFor(s.tables, extra)),
       broker := Extended(s.tables, s.broker, m, extra),
       fence := Shared(map[]),
       commits := s.commits + [m],
       ledger := s.ledger[m.version := Wanted(s.ledger, m.version) + Desired(s.tables, m)])
  }

  /** The state after a mutation that failed once it had made some of its bindings. */
  function AfterFailure(s: State, m: Mutation, made: set<Binding>): State {
    s.(broker := s.broker + made,
       fence := Shared(map[]),
       ledger := s.ledger[m.version := Wanted(s.ledger, m.version) + Desired(s.tables, m)])
  }

  ghost predicate Leads(sc: Scope, s: State, s': State) {
    exists acts :: Run(sc, s, acts, s')
  }

  lemma {:induction false} RunsCompose(sc: Scope, s: State, first: seq<Action>, mid: State, more: seq<Action>,
      s': State)
    requires Run(sc, s, first, mid) && Run(sc, mid, more, s')
    ensures Run(sc, s, first + more, s')
    decreases |first|
  {
    hide Enabled, Next;
    if first == [] {
      assert first + more == more;
    } else {
      RunsCompose(sc, Next(sc, s, first[0]), first[1..], mid, more, s');
      assert (first + more)[1..] == first[1..] + more;
    }
  }

  lemma LeadsOn(sc: Scope, s: State, mid: State, s': State)
    requires Leads(sc, s, mid) && Leads(sc, mid, s')
    ensures Leads(sc, s, s')
  {
    hide Enabled, Next;
    var first :| Run(sc, s, first, mid);
    var more :| Run(sc, mid, more, s');
    RunsCompose(sc, s, first, mid, more, s');
  }

  lemma StepLeads(sc: Scope, s: State, a: Action)
    requires Enabled(sc, s, a)
    ensures Leads(sc, s, Next(sc, s, a))
  {
    hide Enabled, Next;
    var acts := [a];
    assert Run(sc, Next(sc, s, a), acts[1..], Next(sc, s, a));
    assert Run(sc, s, acts, Next(sc, s, a));
  }

  /** Any of the bindings that a mutation still has to make can be made. */
  lemma {:induction false} BindingLeads(sc: Scope, s: State, made: set<Binding>)
    requires s.fence.Exclusive? && made <= s.fence.writer.todo
    ensures var w := s.fence.writer;
            Leads(sc, s, s.(broker := s.broker + made, fence := Exclusive(w.(todo := w.todo - made))))
    decreases |made|
  {
    var w := s.fence.writer;
    var end := s.(broker := s.broker + made, fence := Exclusive(w.(todo := w.todo - made)));
    if made == {} {
      assert end == s;
      assert Run(sc, s, [], s);
    } else {
      var b :| b in made;
      var mid := Next(sc, s, Bind(b));
      StepLeads(sc, s, Bind(b));
      BindingLeads(sc, mid, made - {b});
      assert mid.broker + (made - {b}) == end.broker && (w.todo - {b}) - (made - {b}) == w.todo - made;
      LeadsOn(sc, s, mid, end);
    }
  }

  /** An undisturbed mutation is a run of the step system. */
  lemma MutationIsARun(sc: Scope, s: State, m: Mutation, extra: Option<Route>)
    requires Enabled(sc, s, Begin(m, extra))
    ensures Leads(sc, s, AfterMutation(s, m, extra))
  {
    hide Bindings, Leads, TablesAfter, Desired, RoutesFor, Wanted;
    var a := Next(sc, s, Begin(m, extra));
    StepLeads(sc, s, Begin(m, extra));
    var w := a.fence.writer;
    BindingLeads(sc, a, w.todo);
    var b := a.(broker := a.broker + w.todo, fence := Exclusive(w.(todo := w.todo - w.todo)));
    LeadsOn(sc, s, a, b);
    StepLeads(sc, b, Commit);
    LeadsOn(sc, s, b, Next(sc, b, Commit));
  }

  /** So is one that fails after any part of its bindings. */
  lemma FailedMutationIsARun(sc: Scope, s: State, m: Mutation, extra: Option<Route>, made: set<Binding>)
    requires Enabled(sc, s, Begin(m, extra))
             && made <= Bindings(RoutesFor(s.tables, extra), Desired(s.tables, m), m.version)
    ensures Leads(sc, s, AfterFailure(s, m, made))
  {
    hide Bindings, Leads, TablesAfter, Desired, RoutesFor, Wanted;
    var a := Next(sc, s, Begin(m, extra));
    StepLeads(sc, s, Begin(m, extra));
    var w := a.fence.writer;
    BindingLeads(sc, a, made);
    var b := a.(broker := a.broker + made, fence := Exclusive(w.(todo := w.todo - made)));
    LeadsOn(sc, s, a, b);
    StepLeads(sc, b, Abort);
    LeadsOn(sc, s, b, Next(sc, b, Abort));
  }

  function WithOne(s: State, r: Reader): State {
    s.(fence := Shared(map[0 := r]))
  }

  lemma OneReader(s: State, r: Reader, r1: Reader)
    ensures WithReader(WithOne(s, r), 0, r1) == WithOne(s, r1)
  {
    assert map[0 := r][0 := r1] == map[0 := r1];
  }

  lemma {:induction false} ReconcileLeads(sc: Scope, s: State, r: Reader)
    ensures Leads(sc, WithOne(s, r), WithOne(s.(broker := s.broker + r.bind), r.(bind := {})))
    decreases |r.bind|
  {
    var start, end := WithOne(s, r), WithOne(s.(broker := s.broker + r.bind), r.(bind := {}));
    if r.bind == {} {
      assert end == start;
      assert Run(sc, start, [], start);
    } else {
      var b :| b in r.bind;
      var s1, r1 := s.(broker := s.broker + {b}), r.(bind := r.bind - {b});
      StepLeads(sc, start, Reconcile(0, b));
      OneReader(s1, r, r1);
      ReconcileLeads(sc, s1, r1);
      assert s1.broker + r1.bind == s.broker + r.bind;
      LeadsOn(sc, start, WithOne(s1, r1), end);
    }
  }

  lemma {:induction false} UnbindLeads(sc: Scope, s: State, r: Reader)
    ensures Leads(sc, WithOne(s, r), WithOne(s.(broker := s.broker - r.unbind), r.(unbind := {})))
    decreases |r.unbind|
  {
    var start, end := WithOne(s, r), WithOne(s.(broker := s.broker - r.unbind), r.(unbind := {}));
    if r.unbind == {} {
      assert end == start;
      assert Run(sc, start, [], start);
    } else {
      var b :| b in r.unbind;
      var s1, r1 := s.(broker := s.broker - {b}), r.(unbind := r.unbind - {b});
      StepLeads(sc, start, Unbind(0, b));
      OneReader(s1, r, r1);
      UnbindLeads(sc, s1, r1);
      assert s1.broker - r1.unbind == s.broker - r.unbind;
      LeadsOn(sc, start, WithOne(s1, r1), end);
    }
  }

  function WithRoutes(s: State, routes: set<RouteRow>): State { s.(tables := s.tables.(routes := routes)) }

  lemma {:induction false} RecordLeads(sc: Scope, s: State, r: Reader)
    ensures Leads(sc, WithOne(s, r), WithOne(WithRoutes(s, s.tables.routes + r.rows), r.(rows := {})))
    decreases |r.rows|
  {
    var start, end := WithOne(s, r), WithOne(WithRoutes(s, s.tables.routes + r.rows), r.(rows := {}));
    if r.rows == {} {
      assert end == start;
      assert Run(sc, start, [], start);
    } else {
      var row :| row in r.rows;
      var s1, r1 := WithRoutes(s, s.tables.routes + {row}), r.(rows := r.rows - {row});
      StepLeads(sc, start, Record(0, row));
      OneReader(s1, r, r1);
      RecordLeads(sc, s1, r1);
      assert s1.tables.routes + r1.rows == s.tables.routes + r.rows;
      LeadsOn(sc, start, WithOne(s1, r1), end);
    }
  }

  /** The state after an undisturbed publish: bindings and rows reconciled, the record delivered. */
  function AfterPublish(s: State, route: Route, cls: Class): State
    requires s.tables.version.Some?
  {
    var v, broker := s.tables.version.value, Reconciled(s.tables, s.broker, route);
    s.(tables := ReconciledTables(s.tables, route),
       broker := broker,
       fence := Shared(map[]),
       log := s.log + [Delivery(route, cls, v, Recipients(broker, cls, route, v), Active(s.tables))])
  }

  lemma BrokerLeads(sc: Scope, s: State, r: Reader)
    ensures Leads(sc, WithOne(s, r), WithOne(s.(broker := s.broker + r.bind - r.unbind), r.(bind := {}, unbind := {})))
  {
    hide Leads;
    var s1, r1 := s.(broker := s.broker + r.bind), r.(bind := {});
    ReconcileLeads(sc, s, r);
    UnbindLeads(sc, s1, r1);
    LeadsOn(sc, WithOne(s, r), WithOne(s1, r1), WithOne(s1.(broker := s1.broker - r.unbind), r1.(unbind := {})));
  }

  lemma RowsLead(sc: Scope, s: State, r: Reader)
    ensures Leads(sc, WithOne(s, r), WithOne(WithRoutes(s, OtherRoutes(s.tables, r.route) + r.rows), r.(rows := {})))
  {
    var s1 := WithRoutes(s, OtherRoutes(s.tables, r.route));
    StepLeads(sc, WithOne(s, r), Forget(0));
    assert Next(sc, WithOne(s, r), Forget(0)) == WithOne(s1, r);
    hide Leads;
    RecordLeads(sc, s1, r);
    LeadsOn(sc, WithOne(s, r), WithOne(s1, r), WithOne(WithRoutes(s1, s1.tables.routes + r.rows), r.(rows := {})));
  }

  /** An undisturbed publish is a run of the step system. */
  lemma PublishIsARun(sc: Scope, s: State, route: Route, cls: Class)
    requires Quiet(s) && s.tables.version.Some?
    ensures Leads(sc, s, AfterPublish(s, route, cls))
  {
    hide Bindings, Recipients, RoutesAfter;
    var r := OpenReader(s.tables, route, cls);
    StepLeads(sc, s, Open(0, route, cls));
    assert Next(sc, s, Open(0, route, cls)) == WithOne(s, r) by {
      assert map[][0 := r] == map[0 := r];
    }
    hide Leads;
    var s1, r1 := s.(broker := s.broker + r.bind - r.unbind), r.(bind := {}, unbind := {});
    BrokerLeads(sc, s, r);
    LeadsOn(sc, s, WithOne(s, r), WithOne(s1, r1));
    var s2, r2 := WithRoutes(s1, OtherRoutes(s.tables, route) + r.rows), r1.(rows := {});
    RowsLead(sc, s1, r1);
    LeadsOn(sc, s, WithOne(s1, r1), WithOne(s2, r2));
    PublishAndClose(sc, s2, r2);
    assert Active(s2.tables) == Active(s.tables);
    LeadsOn(sc, s, WithOne(s2, r2), AfterPublish(s, route, cls));
  }

  lemma PublishAndClose(sc: Scope, s: State, r: Reader)
    requires r.bind == {} && r.unbind == {}
    ensures
      var d := Delivery(r.route, r.cls, r.version, Recipients(s.broker, r.cls, r.route, r.version), Active(s.tables));
      Leads(sc, WithOne(s, r), s.(log := s.log + [d], fence := Shared(map[])))
  {
    var a := WithOne(s, r);
    var b := Next(sc, a, Publish(0));
    StepLeads(sc, a, Publish(0));
    StepLeads(sc, b, Close(0));
    assert map[0 := r] - {0} == map[];
    LeadsOn(sc, a, b, Next(sc, b, Close(0)));
  }

  // ----- A version that recurs can reach a former member -----

  lemma ApproveLeads(sc: Scope, s: State, m: Mutation, hex: string)
    requires sc.global && m.Snapshot? && sc.verify(sc.genesis, m.members, hex)
    ensures
      var ap := Approval(m, sc.genesis, 1, [Envelope(sc.genesis, hex)], |s.commits|);
      Leads(sc, s, s.(approvals := s.approvals + {ap}))
  {
    var e := Envelope(sc.genesis, hex);
    var ap := Approval(m, sc.genesis, 1, [e], |s.commits|);
    assert FirstBySigner([e], 0) && Good(sc.verify, {sc.genesis}, m.members, [e][0]);
    assert Endorsers(sc.verify, {sc.genesis}, m.members, [e]) == {sc.genesis};
    StepLeads(sc, s, Approve(ap));
  }

  /** A snapshot authored and signed by the Genesis authority goes through from a quiet state. */
  lemma GenesisSnapshotLeads(sc: Scope, s: State, m: Mutation, hex: string, route: Route) returns (s': State)
    requires Quiet(s) && sc.global && m.Snapshot? && sc.verify(sc.genesis, m.members, hex)
             && |m.members.Keys| <= sc.maxTenants
    ensures Leads(sc, s, s') && Quiet(s')
    ensures s'.tables == TablesAfter(s.tables, m, RoutesFor(s.tables, Some(route)))
    ensures s'.broker == Extended(s.tables, s.broker, m, Some(route))
  {
    hide Leads;
    var ap := Approval(m, sc.genesis, 1, [Envelope(sc.genesis, hex)], |s.commits|);
    var a := s.(approvals := s.approvals + {ap});
    ApproveLeads(sc, s, m, hex);
    assert ap in a.approvals && ap.m == m;
    MutationIsARun(sc, a, m, Some(route));
    s' := AfterMutation(a, m, Some(route));
    LeadsOn(sc, s, a, s');
  }

  /** A grant admission has no route of its own; it binds on the routes the table knows. */
  lemma GrantLeads(sc: Scope, s: State, m: Mutation, members: set<Principal>) returns (s': State)
    requires Quiet(s) && sc.global && m.Change? && m.active && Active(s.tables) == members && |members| < sc.maxTenants
    ensures Leads(sc, s, s') && Quiet(s')
    ensures s'.tables == TablesAfter(s.tables, m, RoutesFor(s.tables, None))
    ensures s'.broker == Extended(s.tables, s.broker, m, None)
  {
    hide Leads;
    assert |members + {m.principal}| <= |members| + 1;
    MutationIsARun(sc, s, m, None);
    s' := AfterMutation(s, m, None);
  }

  lemma ExtendedBinds(t: Tables, broker: set<Binding>, m: Mutation, extra: Option<Route>, r: Route, p: Principal)
    requires r in RoutesFor(t, extra) && p in Desired(t, m)
    ensures Binding(p, Bulk, r, m.version) in Extended(t, broker, m, extra)
    ensures RouteRow(r, p, Bulk, m.version) in TablesAfter(t, m, RoutesFor(t, extra)).routes
  {
  }

  lemma KnownAfter(t: Tables, m: Mutation, extra: Option<Route>, r: Route, p: Principal)
    requires r in RoutesFor(t, extra) && p in Desired(t, m)
    ensures r in KnownRoutes(TablesAfter(t, m, RoutesFor(t, extra)))
  {
    assert RouteRow(r, p, Bulk, m.version) in TablesAfter(t, m, RoutesFor(t, extra)).routes;
  }

  const BOTH: Mutation := Snapshot("one", map["g" := {}, "b" := {}])
  const GRANT: Mutation := Change("grant:a", "a", true)
  const ALONE: Mutation := Snapshot("two", map["g" := {}])

  lemma FirstGrant(sc: Scope, hex: string) returns (s: State)
    requires sc.global && sc.genesis == "g" && sc.maxTenants >= 3 && sc.verify("g", BOTH.members, hex)
    ensures Leads(sc, Seeded(sc, "seed"), s) && Quiet(s) && Binding("b", Bulk, "r", "grant:a") in s.broker
  {
    hide Leads, Extended, TablesAfter, KnownRoutes, Active;
    var s0 := Seeded(sc, "seed");
    assert BOTH.members.Keys == {"g", "b"};
    var s1 := GenesisSnapshotLeads(sc, s0, BOTH, hex, "r");
    ActiveAfter(s0.tables, BOTH, RoutesFor(s0.tables, Some("r")));
    KnownAfter(s0.tables, BOTH, Some("r"), "r", "g");
    s := GrantLeads(sc, s1, GRANT, {"g", "b"});
    LeadsOn(sc, s0, s1, s);
    ExtendedBinds(s1.tables, s1.broker, GRANT, None, "r", "b");
  }

  lemma OnlyGenesisLeft(sc: Scope, s: State, hex: string) returns (s': State)
    requires sc.global && sc.genesis == "g" && sc.maxTenants >= 3 && sc.verify("g", ALONE.members, hex)
    requires Quiet(s) && Binding("b", Bulk, "r", "grant:a") in s.broker
    ensures Leads(sc, s, s') && Quiet(s') && Binding("b", Bulk, "r", "grant:a") in s'.broker
    ensures Active(s'.tables) == {"g"} && "r" in KnownRoutes(s'.tables)
  {
    hide Leads, Extended, TablesAfter, KnownRoutes, Active;
    assert ALONE.members.Keys == {"g"};
    s' := GenesisSnapshotLeads(sc, s, ALONE, hex, "r");
    ExtendedKeeps(s.tables, s.broker, ALONE, Some("r"));
    ActiveAfter(s.tables, ALONE, RoutesFor(s.tables, Some("r")));
    KnownAfter(s.tables, ALONE, Some("r"), "r", "g");
  }

  /**
    Exact fan-out fails without the no-reuse assumption: a member admitted by a grant is removed
    by a snapshot together with another one, and is admitted again by the same grant; the record
    published under the recurring version still reaches the other, former member.
  */
  lemma ReusedVersionReachesFormerMember(sc: Scope, hex1: string, hex2: string)
    requires sc.global && sc.genesis == "g" && sc.maxTenants >= 3
    requires sc.verify("g", BOTH.members, hex1) && sc.verify("g", ALONE.members, hex2)
    ensures exists s :: Leads(sc, Seeded(sc, "seed"), s) && s.log != [] &&
              var d := s.log[|s.log| - 1]; "b" in d.recipients && "b" !in d.members
  {
    hide Leads, Extended, TablesAfter, KnownRoutes, Active, Recipients, Reconciled;
    var s0 := Seeded(sc, "seed");
    var s2 := FirstGrant(sc, hex1);
    var s3 := OnlyGenesisLeft(sc, s2, hex2);
    LeadsOn(sc, s0, s2, s3);
    var s4 := GrantLeads(sc, s3, GRANT, {"g"});
    LeadsOn(sc, s0, s3, s4);
    VersionAfter(s3.tables, GRANT, RoutesFor(s3.tables, None));
    PublishIsARun(sc, s4, "r", Bulk);
    LeadsOn(sc, s0, s4, AfterPublish(s4, "r", Bulk));
    StaleBindingStillReaches(s3.tables, s3.broker, GRANT, None, "r", "b");
  }

  lemma VersionAfter(t: Tables, m: Mutation, routes: set<Route>)
    ensures TablesAfter(t, m, routes).version == Some(m.version)
  {
  }

  lemma ExtendedKeeps(t: Tables, broker: set<Binding>, m: Mutation, extra: Option<Route>)
    ensures broker <= Extended(t, broker, m, extra)
  {
  }

  lemma StaleBindingStillReaches(t: Tables, broker: set<Binding>, m: Mutation, extra: Option<Route>, r: Route,
      p: Principal)
    requires r in RoutesFor(t, extra) && p !in Desired(t, m) && Binding(p, Bulk, r, m.version) in broker
    ensures
      var after := TablesAfter(t, m, RoutesFor(t, extra));
      && p !in Active(after)
      && p in Recipients(Reconciled(after, Extended(t, broker, m, extra), r), Bulk, r, m.version)
  {
  }
}
