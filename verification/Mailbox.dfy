/**
  Mailbox pages across gateway instances: the lease row of a mailbox, the channel on which a page
  is collected, the page that waits for its commit, and the copies in the broker queue.

  The broker hands copies to an open channel ahead of the pull that takes them from it.  A channel
  that closes gives its unacknowledged copies back, taken or not.  Page ids, consumer epochs
  and channels are fresh, as the source's UUIDs are.  Instances may stop between any two steps.
*/
module Mailbox {
  import opened Basics

  type Copy = nat
  type Chan = nat
  type Epoch = nat
  type PageId = nat
  type Instance = string

  datatype Box = Box(network: string, principal: string, cls: Class)

  datatype Message = Message(box: Box, source: string)

  datatype Cause = SelfFilter | Committed(page: PageId)

  /** Where the broker has a copy. */
  datatype Place = Ready | Unacked(chan: Chan) | Acked(cause: Cause) | Dead

  datatype Lease = Lease(instance: Instance, epoch: Epoch, expires: int)

  /** A pull that holds its lease; the channel comes with its opening time, the copies with the taking. */
  datatype Pull = Pull(instance: Instance, box: Box, epoch: Epoch, chan: Option<Chan>, since: int, taken: set<Copy>)

  datatype Page = Page(instance: Instance, box: Box, epoch: Epoch, chan: Chan, since: int, tags: set<Copy>)

  /** What a commit token vouches for. */
  datatype Claims = Claims(page: PageId, box: Box, instance: Instance, epoch: Epoch)

  datatype State = State(
    now: int,
    copies: map<Copy, Message>,
    place: map<Copy, Place>,
    leases: map<Box, Lease>,
    pulls: map<PageId, Pull>,
    pages: map<PageId, Page>,
    issued: set<Claims>,
    checked: set<Claims>,
    committed: set<PageId>,
    epochs: set<Epoch>,
    ids: set<PageId>,
    chans: nat)

  const INIT: State := State(0, map[], map[], map[], map[], map[], {}, {}, {}, {}, {}, 0)

  function OnChannel(place: map<Copy, Place>, ch: Chan): set<Copy> {
    set c | c in place && place[c] == Unacked(ch)
  }

  /** A closed channel requeues what it still holds. */
  function Requeued(place: map<Copy, Place>, ch: Chan): map<Copy, Place> {
    map c | c in place :: if place[c] == Unacked(ch) then Ready else place[c]
  }

  function AckedBy(place: map<Copy, Place>, tags: set<Copy>, cause: Cause): map<Copy, Place> {
    map c | c in place :: if c in tags then Acked(cause) else place[c]
  }

  predicate Live(s: State, b: Box) { b in s.leases && s.leases[b].expires > s.now }

  /** The owner check of a commit. */
  predicate Passes(s: State, cl: Claims) {
    Live(s, cl.box) && s.leases[cl.box].instance == cl.instance && s.leases[cl.box].epoch == cl.epoch
  }

  predicate Matches(p: Page, cl: Claims) {
    p.box.principal == cl.box.principal && p.box.cls == cl.box.cls && p.epoch == cl.epoch
  }

  function ClaimsOf(id: PageId, p: Pull): Claims { Claims(id, p.box, p.instance, p.epoch) }

  datatype Action =
    | Tick(seconds: nat)
    | Enqueue(copy: Copy, message: Message)
    | DeadLetter(copy: Copy)
    | Acquire(id: PageId, instance: Instance, box: Box, epoch: Epoch)
    | Open(id: PageId)
    | Deliver(id: PageId, copy: Copy)
    | Take(id: PageId, copy: Copy)
    | FilterSelf(id: PageId, copy: Copy)
    | Finish(id: PageId)
    | Fail(id: PageId)
    | Check(claims: Claims)
    | Commit(claims: Claims, acked: set<Copy>)
    | Release(claims: Claims)
    | Reap(id: PageId)
    | Abandon(id: PageId)
    | Cleanup(box: Box)

  predicate Pulling(s: State, id: PageId) { id in s.pulls && s.pulls[id].chan.Some? }

  predicate Enabled(lease: nat, s: State, a: Action) {
    match a
    case Tick(_) => true
    case Enqueue(c, _) => c !in s.copies
    case DeadLetter(c) => c in s.place && s.place[c] == Ready
    case Acquire(id, _, b, e) => id !in s.ids && e !in s.epochs && !Live(s, b)
    case Open(id) => id in s.pulls && s.pulls[id].chan.None?
    case Deliver(id, c) =>
      Pulling(s, id) && c in s.place && s.place[c] == Ready && c in s.copies && s.copies[c].box == s.pulls[id].box
    case Take(id, c) => Pulling(s, id) && c in s.place && s.place[c] == Unacked(s.pulls[id].chan.value)
    case FilterSelf(id, c) =>
      && Pulling(s, id) && c in s.pulls[id].taken && c in s.place && s.place[c] == Unacked(s.pulls[id].chan.value)
      && c in s.copies && s.copies[c].source == s.pulls[id].box.principal
    case Finish(id) =>
      && Pulling(s, id)
      && forall c | c in s.pulls[id].taken && c in s.copies :: s.copies[c].source != s.pulls[id].box.principal
    case Fail(id) => id in s.pulls
    case Check(cl) => cl in s.issued && Passes(s, cl)
    case Commit(cl, acked) => cl in s.checked && (cl.page in s.pages ==> acked <= s.pages[cl.page].tags)
    case Release(cl) => cl.box in s.leases && s.leases[cl.box].instance == cl.instance
        && s.leases[cl.box].epoch == cl.epoch
    case Reap(id) => id in s.pages && s.pages[id].since + lease <= s.now
    case Abandon(id) => id in s.pages
    case Cleanup(b) => b in s.leases && s.leases[b].expires <= s.now
  }

  function ClosePage(s: State, id: PageId): State
    requires id in s.pages
  {
    s.(place := Requeued(s.place, s.pages[id].chan), pages := s.pages - {id})
  }

  /** A commit finds its page on the instance it names. */
  predicate Finds(s: State, cl: Claims) { cl.page in s.pages && s.pages[cl.page].instance == cl.instance }

  /** A pull starts, opens its channel, takes and filters copies, and ends. */
  function PullsAfter(s: State, a: Action): map<PageId, Pull> {
    match a
    case Acquire(id, i, b, e) => s.pulls[id := Pull(i, b, e, None, s.now, {})]
    case Open(id) =>
      if id in s.pulls then s.pulls[id := s.pulls[id].(chan := Some(s.chans), since := s.now)] else s.pulls
    case Take(id, c) => if id in s.pulls then s.pulls[id := s.pulls[id].(taken := s.pulls[id].taken + {c})] else s.pulls
    case FilterSelf(id, c) =>
      if id in s.pulls then s.pulls[id := s.pulls[id].(taken := s.pulls[id].taken - {c})] else s.pulls
    case Finish(id) => s.pulls - {id}
    case Fail(id) => s.pulls - {id}
    case _ => s.pulls
  }

  /** What a pull has taken becomes a page; a commit, a reap or an abandon ends it. */
  function PagesAfter(s: State, a: Action): map<PageId, Page> {
    match a
    case Finish(id) =>
      if Pulling(s, id) && s.pulls[id].taken != {} then
        var p := s.pulls[id];
        s.pages[id := Page(p.instance, p.box, p.epoch, p.chan.value, p.since, p.taken)]
      else s.pages
    case Commit(cl, _) => if Finds(s, cl) then s.pages - {cl.page} else s.pages
    case Reap(id) => s.pages - {id}
    case Abandon(id) => s.pages - {id}
    case _ => s.pages
  }

  /** The channel that a step closes; a pull without anything taken closes its channel when it ends. */
  function Closed(s: State, a: Action): Option<Chan> {
    match a
    case Finish(id) => if id in s.pulls && s.pulls[id].taken == {} then s.pulls[id].chan else None
    case Fail(id) => if id in s.pulls then s.pulls[id].chan else None
    case Commit(cl, _) => if Finds(s, cl) then Some(s.pages[cl.page].chan) else None
    case Reap(id) => if id in s.pages then Some(s.pages[id].chan) else None
    case Abandon(id) => if id in s.pages then Some(s.pages[id].chan) else None
    case _ => None
  }

  predicate Commits(s: State, a: Action) {
    a.Commit? && Finds(s, a.claims) && Matches(s.pages[a.claims.page], a.claims)
  }

  /** The acks of a commit may stop early; closing the channel returns the rest. */
  function PlaceAfter(s: State, a: Action): map<Copy, Place> {
    match a
    case Enqueue(c, _) => s.place[c := Ready]
    case DeadLetter(c) => s.place[c := Dead]
    case Deliver(id, c) => if Pulling(s, id) then s.place[c := Unacked(s.pulls[id].chan.value)] else s.place
    case FilterSelf(_, c) => s.place[c := Acked(SelfFilter)]
    case _ =>
      var place := if Commits(s, a) then AckedBy(s.place, a.acked, Committed(a.claims.page)) else s.place;
      if Closed(s, a).Some? then Requeued(place, Closed(s, a).value) else place
  }

  function Next(lease: nat, s: State, a: Action): State
    requires Enabled(lease, s, a)
  {
    var t := s.(place := PlaceAfter(s, a), pulls := PullsAfter(s, a), pages := PagesAfter(s, a));
    match a
    case Tick(d) => t.(now := s.now + d)
    case Enqueue(c, m) => t.(copies := s.copies[c := m])
    case Acquire(id, i, b, e) =>
      t.(leases := s.leases[b := Lease(i, e, s.now + lease)], epochs := s.epochs + {e}, ids := s.ids + {id})
    case Open(_) => t.(chans := s.chans + 1)
    case Finish(id) => t.(issued := s.issued + {ClaimsOf(id, s.pulls[id])})
    case Check(cl) => t.(checked := s.checked + {cl})
    case Commit(cl, _) => if Commits(s, a) then t.(committed := s.committed + {cl.page}) else t
    case Release(cl) => t.(leases := s.leases - {cl.box})
    case Cleanup(b) => t.(leases := s.leases - {b})
    case _ => t
  }

  ghost predicate Run(lease: nat, s: State, acts: seq<Action>, s': State)
    decreases |acts|
  {
    if acts == [] then s == s'
    else Enabled(lease, s, acts[0]) && Run(lease, Next(lease, s, acts[0]), acts[1..], s')
  }

  ghost predicate Reachable(lease: nat, s: State) { exists acts :: Run(lease, INIT, acts, s) }

  // ----- What every step keeps -----

  predicate PullHolds(s: State, id: PageId, ch: Chan) { id in s.pulls && s.pulls[id].chan == Some(ch) }

  predicate PageHolds(s: State, id: PageId, ch: Chan) { id in s.pages && s.pages[id].chan == ch }

  predicate Holds(s: State, id: PageId, ch: Chan) { PullHolds(s, id, ch) || PageHolds(s, id, ch) }

  function BoxOf(s: State, id: PageId): Box
    requires id in s.pulls || id in s.pages
  {
    if id in s.pulls then s.pulls[id].box else s.pages[id].box
  }

  /** Every channel in use belongs to one pull or page. */
  ghost predicate Channels(s: State) {
    && s.pulls.Keys !! s.pages.Keys
    && (forall id: PageId, ch: Chan | Holds(s, id, ch) :: ch < s.chans)
    && (forall id, id', ch | Holds(s, id, ch) && Holds(s, id', ch) :: id == id')
  }

  /** An unacknowledged copy is on the channel of a pull or page of its own mailbox. */
  ghost predicate Copies(s: State) {
    && s.place.Keys == s.copies.Keys
    && (forall c | c in s.place && s.place[c].Unacked? :: exists id :: Holds(s, id, s.place[c].chan))
    && (forall c, id | c in s.place && s.place[c].Unacked? && Holds(s, id, s.place[c].chan) ::
          BoxOf(s, id) == s.copies[c].box)
  }

  /** What a pull has taken, and what a page lists, is on its channel. */
  ghost predicate Tags(s: State) {
    && (forall id | id in s.pages :: s.pages[id].tags <= OnChannel(s.place, s.pages[id].chan))
    && (forall id | id in s.pulls ::
          s.pulls[id].taken <= if s.pulls[id].chan.Some? then OnChannel(s.place, s.pulls[id].chan.value) else {})
  }

  /** Ids are used once: as a pull, then possibly as a page, then never again. */
  ghost predicate Used(s: State) {
    && (forall id | id in s.pulls || id in s.pages || id in s.committed :: id in s.ids)
    && (forall id | id in s.committed :: id !in s.pulls && id !in s.pages)
  }

  ghost predicate Epochs(s: State) {
    && (forall id | id in s.pulls :: s.pulls[id].epoch in s.epochs)
    && (forall id | id in s.pages :: s.pages[id].epoch in s.epochs)
  }

  /** Tokens name what they came from. */
  ghost predicate Tokens(s: State) {
    && s.checked <= s.issued
    && forall cl | cl in s.issued ::
         && cl.page in s.ids && cl.page !in s.pulls && cl.epoch in s.epochs
         && (cl.page in s.pages ==>
               s.pages[cl.page].box == cl.box && s.pages[cl.page].instance == cl.instance
               && s.pages[cl.page].epoch == cl.epoch)
  }

  ghost predicate Ids(s: State) { Used(s) && Epochs(s) && Tokens(s) }

  predicate TokenFor(s: State, id: PageId, b: Box, cl: Claims) { cl in s.issued && cl.page == id && cl.box == b }

  /** Why a copy was acknowledged. */
  ghost predicate Causes(s: State) {
    forall c | c in s.place && s.place[c].Acked? && c in s.copies ::
      match s.place[c].cause
      case SelfFilter => s.copies[c].source == s.copies[c].box.principal
      case Committed(id) => id in s.committed && exists cl :: TokenFor(s, id, s.copies[c].box, cl)
  }

  /** A page of the epoch in the lease row is not older than the lease. */
  ghost predicate Times(lease: nat, s: State) {
    && (forall b | b in s.leases :: s.leases[b].epoch in s.epochs && s.leases[b].expires <= s.now + lease)
    && (forall b, b' | b in s.leases && b' in s.leases && s.leases[b].epoch == s.leases[b'].epoch :: b == b')
    && (forall id, b | id in s.pages && b in s.leases && s.pages[id].epoch == s.leases[b].epoch ::
          s.leases[b].expires <= s.pages[id].since + lease)
    && (forall id, b | id in s.pulls && b in s.leases && s.pulls[id].epoch == s.leases[b].epoch
          && s.pulls[id].chan.Some? ::
          s.leases[b].expires <= s.pulls[id].since + lease)
  }

  ghost predicate Inv(lease: nat, s: State) {
    Channels(s) && Copies(s) && Tags(s) && Ids(s) && Causes(s) && Times(lease, s)
  }

  /** What a step can do to a copy. */
  predicate Moves(s: State, a: Action, c: Copy, was: Place, to: Place) {
    || to == was
    || (a.DeadLetter? && a.copy == c && was == Ready && to == Dead)
    || (a.Deliver? && a.copy == c && was == Ready && to.Unacked? && PullHolds(s, a.id, to.chan))
    || (a.FilterSelf? && a.copy == c && was.Unacked? && PullHolds(s, a.id, was.chan) && to == Acked(SelfFilter))
    || (was.Unacked? && Closed(s, a) == Some(was.chan)
        && (to == Ready || (Commits(s, a) && c in a.acked && to == Acked(Committed(a.claims.page)))))
  }

  lemma PlaceStep(lease: nat, s: State, a: Action, c: Copy)
    requires s.place.Keys == s.copies.Keys && Tags(s) && Enabled(lease, s, a) && c in s.place
    ensures c in Next(lease, s, a).place && Moves(s, a, c, s.place[c], Next(lease, s, a).place[c])
    ensures Closed(s, a).Some? ==> Next(lease, s, a).place[c] != Unacked(Closed(s, a).value)
  {
    Fields(lease, s, a);
    assert a.Commit? && a.claims.page in s.pages && c in a.acked ==> c in s.pages[a.claims.page].tags;
    assert a.Commit? && a.claims.page in s.pages && c in a.acked ==>
           c in OnChannel(s.place, s.pages[a.claims.page].chan);
    hide Next, PullsAfter, PagesAfter, Tags;
  }

  lemma NewCopies(lease: nat, s: State, a: Action)
    requires s.place.Keys == s.copies.Keys && Enabled(lease, s, a)
    ensures var s' := Next(lease, s, a);
            && s'.place.Keys == s'.copies.Keys
            && (forall c | c in s'.place && c !in s.place :: s'.place[c] == Ready)
            && (forall c | c in s.copies :: c in s'.copies && s'.copies[c] == s.copies[c])
  {
    Fields(lease, s, a);
    CopiesAfter(lease, s, a);
    hide Next, PullsAfter, PagesAfter;
  }

  lemma CopiesAfter(lease: nat, s: State, a: Action)
    requires Enabled(lease, s, a)
    ensures Next(lease, s, a).copies == if a.Enqueue? then s.copies[a.copy := a.message] else s.copies
  {
  }

  lemma Structures(lease: nat, s: State, a: Action)
    requires Enabled(lease, s, a)
    ensures var s' := Next(lease, s, a);
            s'.place == PlaceAfter(s, a) && s'.pulls == PullsAfter(s, a) && s'.pages == PagesAfter(s, a)
  {
    hide PlaceAfter, PullsAfter, PagesAfter, Commits;
  }

  /** The fields that a step leaves alone or adds to. */
  lemma Fields(lease: nat, s: State, a: Action)
    requires Enabled(lease, s, a)
    ensures var s' := Next(lease, s, a);
            && s'.place == PlaceAfter(s, a) && s'.pulls == PullsAfter(s, a) && s'.pages == PagesAfter(s, a)
            && s'.ids == s.ids + (if a.Acquire? then {a.id} else {})
            && s'.epochs == s.epochs + (if a.Acquire? then {a.epoch} else {})
            && s'.issued == s.issued + (if a.Finish? then {ClaimsOf(a.id, s.pulls[a.id])} else {})
            && s'.checked == s.checked + (if a.Check? then {a.claims} else {})
            && s'.committed == s.committed + (if Commits(s, a) then {a.claims.page} else {})
            && s'.chans == s.chans + (if a.Open? then 1 else 0)
  {
    Structures(lease, s, a);
    hide PlaceAfter, PullsAfter, PagesAfter, Commits, ClaimsOf;
  }

  /** What enables the steps that start and end pulls and pages. */
  lemma Guards(lease: nat, s: State, a: Action)
    requires Enabled(lease, s, a)
    ensures a.Acquire? ==> a.id !in s.ids && a.epoch !in s.epochs
    ensures a.Open? ==> a.id in s.pulls && s.pulls[a.id].chan.None?
    ensures a.Take? || a.FilterSelf? || a.Finish? || a.Deliver? ==> Pulling(s, a.id)
    ensures a.FilterSelf? ==> a.copy in s.copies && s.copies[a.copy].source == s.pulls[a.id].box.principal
    ensures a.Fail? ==> a.id in s.pulls
    ensures a.Check? ==> a.claims in s.issued
    ensures a.Commit? ==> a.claims in s.checked
    ensures a.Reap? || a.Abandon? ==> a.id in s.pages
  {
  }

  lemma NextKeepsChannels(lease: nat, s: State, a: Action)
    requires Channels(s) && Ids(s) && Enabled(lease, s, a)
    ensures Channels(Next(lease, s, a))
  {
    Fields(lease, s, a);
    Guards(lease, s, a);
    hide Next, Enabled, PlaceAfter;
    var s' := Next(lease, s, a);
    if a.Open? {
      assert forall id, ch | Holds(s', id, ch) :: Holds(s, id, ch) || (id == a.id && ch == s.chans);
    } else {
      assert forall id, ch | Holds(s', id, ch) :: Holds(s, id, ch);
    }
  }

  lemma NextKeepsUsed(lease: nat, s: State, a: Action)
    requires Channels(s) && Used(s) && Enabled(lease, s, a)
    ensures Used(Next(lease, s, a))
  {
    Fields(lease, s, a);
    Guards(lease, s, a);
    hide Next, Enabled, PlaceAfter;
  }

  lemma NextKeepsEpochs(lease: nat, s: State, a: Action)
    requires Epochs(s) && Enabled(lease, s, a)
    ensures Epochs(Next(lease, s, a))
  {
    Fields(lease, s, a);
    Guards(lease, s, a);
    hide Next, Enabled, PlaceAfter;
  }

  lemma NextKeepsTokens(lease: nat, s: State, a: Action)
    requires Channels(s) && Used(s) && Epochs(s) && Tokens(s) && Enabled(lease, s, a)
    ensures Tokens(Next(lease, s, a))
  {
    Fields(lease, s, a);
    Guards(lease, s, a);
    hide Next, Enabled, PlaceAfter;
  }

  lemma NextKeepsIds(lease: nat, s: State, a: Action)
    requires Channels(s) && Ids(s) && Enabled(lease, s, a)
    ensures Ids(Next(lease, s, a))
  {
    hide Used, Epochs, Tokens, Enabled, Next;
    NextKeepsUsed(lease, s, a);
    NextKeepsEpochs(lease, s, a);
    NextKeepsTokens(lease, s, a);
  }

  predicate Shrinks(s: State, s': State) {
    && s.now <= s'.now && s.epochs <= s'.epochs
    && (forall b | b in s'.leases :: b in s.leases && s'.leases[b] == s.leases[b])
    && (forall id | id in s'.pulls :: id in s.pulls && s'.pulls[id].(taken := {}) == s.pulls[id].(taken := {}))
    && (forall id | id in s'.pages :: id in s.pages && s'.pages[id] == s.pages[id])
  }

  lemma MostStepsShrink(lease: nat, s: State, a: Action)
    requires Enabled(lease, s, a) && !a.Acquire? && !a.Open? && !a.Finish?
    ensures Shrinks(s, Next(lease, s, a))
  {
  }

  lemma ShrinkingKeepsTimes(lease: nat, s: State, s': State)
    requires Times(lease, s) && Shrinks(s, s')
    ensures Times(lease, s')
  {
  }

  lemma AcquireKeepsTimes(lease: nat, s: State, a: Action)
    requires Ids(s) && Times(lease, s) && a.Acquire? && Enabled(lease, s, a)
    ensures Times(lease, Next(lease, s, a))
  {
  }

  lemma NextKeepsTimes(lease: nat, s: State, a: Action)
    requires Ids(s) && Times(lease, s) && Enabled(lease, s, a)
    ensures Times(lease, Next(lease, s, a))
  {
    hide Times, Shrinks, Ids, Enabled, Next;
    if !a.Acquire? && !a.Open? && !a.Finish? {
      MostStepsShrink(lease, s, a);
      ShrinkingKeepsTimes(lease, s, Next(lease, s, a));
    } else if a.Acquire? {
      AcquireKeepsTimes(lease, s, a);
    } else {
      PullKeepsTimes(lease, s, a);
    }
  }

  lemma PullKeepsTimes(lease: nat, s: State, a: Action)
    requires Ids(s) && Times(lease, s) && (a.Open? || a.Finish?) && Enabled(lease, s, a)
    ensures Times(lease, Next(lease, s, a))
  {
    assert Next(lease, s, a).leases == s.leases;
  }

  /** A cause that a step adds is the commit it makes. */
  lemma NewCommits(lease: nat, s: State, a: Action, c: Copy)
    requires s.place.Keys == s.copies.Keys && Tags(s) && Enabled(lease, s, a) && c in s.place
    requires var to := Next(lease, s, a).place[c]; to.Acked? && to.cause.Committed? && s.place[c] != to
    ensures Commits(s, a) && c in a.acked && Next(lease, s, a).place[c].cause.page == a.claims.page
    ensures a.claims.page in Next(lease, s, a).committed && s.place[c] == Unacked(s.pages[a.claims.page].chan)
  {
    PlaceStep(lease, s, a, c);
    Fields(lease, s, a);
    hide Next, Enabled, Tags, PlaceAfter, PullsAfter, PagesAfter;
  }

  lemma FilteredWasOwn(lease: nat, s: State, a: Action, c: Copy)
    requires Channels(s) && Copies(s) && Tags(s) && Causes(s) && Enabled(lease, s, a)
    requires var s' := Next(lease, s, a); c in s'.place && s'.place[c] == Acked(SelfFilter) && c in s'.copies
    ensures var s' := Next(lease, s, a); s'.copies[c].source == s'.copies[c].box.principal
  {
    hide Next, Enabled, Tags, Closed;
    NewCopies(lease, s, a);
    Guards(lease, s, a);
    PlaceStep(lease, s, a, c);
    if s.place[c] != Acked(SelfFilter) {
      assert Holds(s, a.id, s.place[c].chan) && BoxOf(s, a.id) == s.copies[c].box;
    }
  }

  lemma CommittedHadToken(lease: nat, s: State, a: Action, c: Copy)
    requires Channels(s) && Copies(s) && Tags(s) && Ids(s) && Causes(s) && Enabled(lease, s, a)
    requires var s' := Next(lease, s, a);
             c in s'.place && s'.place[c].Acked? && c in s'.copies && s'.place[c].cause.Committed?
    ensures var s' := Next(lease, s, a);
            s'.place[c].cause.page in s'.committed
            && exists cl :: TokenFor(s', s'.place[c].cause.page, s'.copies[c].box, cl)
  {
    hide Next, Enabled, PlaceAfter, PullsAfter, PagesAfter, Closed;
    NewCopies(lease, s, a);
    Fields(lease, s, a);
    Guards(lease, s, a);
    var s' := Next(lease, s, a);
    var id, b := s'.place[c].cause.page, s'.copies[c].box;
    if s.place[c] == s'.place[c] {
      var cl :| TokenFor(s, id, b, cl);
      assert TokenFor(s', id, b, cl);
    } else {
      NewCommits(lease, s, a, c);
      assert Holds(s, id, s.place[c].chan) && id !in s.pulls;
      assert BoxOf(s, id) == s.copies[c].box;
      assert TokenFor(s', id, b, a.claims);
    }
  }

  lemma NextKeepsCauses(lease: nat, s: State, a: Action)
    requires Channels(s) && Copies(s) && Tags(s) && Ids(s) && Causes(s) && Enabled(lease, s, a)
    ensures Causes(Next(lease, s, a))
  {
    hide Channels, Copies, Tags, Ids, Enabled, Next, TokenFor;
    var s' := Next(lease, s, a);
    forall c | c in s'.place && s'.place[c].Acked? && c in s'.copies
      ensures match s'.place[c].cause
              case SelfFilter => s'.copies[c].source == s'.copies[c].box.principal
              case Committed(id) => id in s'.committed && exists cl :: TokenFor(s', id, s'.copies[c].box, cl)
    {
      if s'.place[c].cause.SelfFilter? {
        FilteredWasOwn(lease, s, a, c);
      } else {
        CommittedHadToken(lease, s, a, c);
      }
    }
  }

  lemma CloserHolds(s: State, a: Action)
    ensures Closed(s, a).Some? ==> Holds(s, if a.Commit? then a.claims.page else a.id, Closed(s, a).value)
  {
  }

  /** A copy leaves a channel only by the channel's closing or by the self filter. */
  lemma StaysOnChannel(lease: nat, s: State, a: Action, ch: Chan, c: Copy)
    requires s.place.Keys == s.copies.Keys && Tags(s) && Enabled(lease, s, a) && c in s.place
             && s.place[c] == Unacked(ch)
    requires Closed(s, a) != Some(ch) && !(a.FilterSelf? && a.copy == c)
    ensures c in Next(lease, s, a).place && Next(lease, s, a).place[c] == Unacked(ch)
  {
    hide Enabled, Next, Tags, Closed;
    PlaceStep(lease, s, a, c);
  }

  lemma PageStays(lease: nat, s: State, a: Action, id: PageId)
    requires Channels(s) && Used(s) && Enabled(lease, s, a) && id in s.pages && id in Next(lease, s, a).pages
    ensures Next(lease, s, a).pages[id] == s.pages[id] && Closed(s, a) != Some(s.pages[id].chan)
    ensures a.FilterSelf? ==> s.pulls[a.id].chan != Some(s.pages[id].chan)
  {
    Fields(lease, s, a);
    Guards(lease, s, a);
    hide Next, Enabled, PlaceAfter;
    assert Holds(s, id, s.pages[id].chan);
    CloserHolds(s, a);
    assert a.FilterSelf? ==> Holds(s, a.id, s.pulls[a.id].chan.value);
  }

  lemma PageTagsStay(lease: nat, s: State, a: Action, id: PageId)
    requires Channels(s) && s.place.Keys == s.copies.Keys && Tags(s) && Used(s) && Enabled(lease, s, a)
    requires id in s.pages && id in Next(lease, s, a).pages
    ensures var p := Next(lease, s, a).pages[id]; p.tags <= OnChannel(Next(lease, s, a).place, p.chan)
  {
    PageStays(lease, s, a, id);
    assert a.FilterSelf? ==> s.place[a.copy] == Unacked(s.pulls[a.id].chan.value);
    hide Channels, Used, Enabled, Next, Closed;
    forall c | c in s.pages[id].tags
      ensures c in OnChannel(Next(lease, s, a).place, s.pages[id].chan)
    {
      assert c in OnChannel(s.place, s.pages[id].chan);
      StaysOnChannel(lease, s, a, s.pages[id].chan, c);
    }
  }

  lemma NewPages(lease: nat, s: State, a: Action, id: PageId)
    requires Tags(s) && Enabled(lease, s, a) && id in Next(lease, s, a).pages && id !in s.pages
    ensures var p := Next(lease, s, a).pages[id]; p.tags <= OnChannel(Next(lease, s, a).place, p.chan)
  {
    assert a.Finish? && a.id == id && Next(lease, s, a).place == s.place;
  }

  /** A pull keeps its channel, gains what it takes and loses what it filters. */
  lemma PullStays(lease: nat, s: State, a: Action, id: PageId)
    requires Channels(s) && Tags(s) && Enabled(lease, s, a) && id in Next(lease, s, a).pulls
             && !(a.Acquire? && a.id == id)
    ensures id in s.pulls
    ensures var p, p' := s.pulls[id], Next(lease, s, a).pulls[id];
            if a.Open? && a.id == id then p.taken == {} == p'.taken && p'.chan.Some?
            else
              && p'.chan == p.chan
              && p'.taken == (if a.Take? && a.id == id then p.taken + {a.copy}
                              else if a.FilterSelf? && a.id == id then p.taken - {a.copy} else p.taken)
              && (p.chan.Some? ==> Closed(s, a) != p.chan)
  {
    Fields(lease, s, a);
    Guards(lease, s, a);
    hide Next, Enabled, PlaceAfter;
    CloserHolds(s, a);
    if id in s.pulls && s.pulls[id].chan.Some? {
      assert Holds(s, id, s.pulls[id].chan.value);
    }
  }

  lemma FiltersItsOwn(lease: nat, s: State, a: Action, id: PageId, c: Copy)
    requires Channels(s) && Tags(s) && Enabled(lease, s, a) && a.FilterSelf? && id in s.pulls && a.copy == c
    requires s.pulls[id].chan.Some? && c in s.place && s.place[c] == Unacked(s.pulls[id].chan.value)
    ensures a.id == id
  {
    assert Holds(s, id, s.pulls[id].chan.value) && Holds(s, a.id, s.pulls[a.id].chan.value);
  }

  lemma PullTagsStay(lease: nat, s: State, a: Action, id: PageId)
    requires Channels(s) && s.place.Keys == s.copies.Keys && Tags(s) && Enabled(lease, s, a)
    requires id in Next(lease, s, a).pulls && !(a.Acquire? && a.id == id)
    ensures var p := Next(lease, s, a).pulls[id];
            p.taken <= if p.chan.Some? then OnChannel(Next(lease, s, a).place, p.chan.value) else {}
  {
    PullStays(lease, s, a, id);
    var p, p', place' := s.pulls[id], Next(lease, s, a).pulls[id], Next(lease, s, a).place;
    assert a.Take? && a.id == id ==> a.copy in OnChannel(s.place, p.chan.value);
    if p.chan.Some? && !(a.Open? && a.id == id) {
      hide Enabled, Next, Closed, Channels;
      forall c | c in p'.taken
        ensures c in OnChannel(place', p.chan.value)
      {
        assert c in OnChannel(s.place, p.chan.value);
        if a.FilterSelf? && a.copy == c {
          FiltersItsOwn(lease, s, a, id, c);
        } else {
          StaysOnChannel(lease, s, a, p.chan.value, c);
        }
      }
    }
  }

  lemma NewPulls(lease: nat, s: State, a: Action)
    requires Enabled(lease, s, a) && a.Acquire?
    ensures a.id in Next(lease, s, a).pulls && Next(lease, s, a).pulls[a.id].taken == {}
  {
  }

  lemma NextKeepsTags(lease: nat, s: State, a: Action)
    requires Channels(s) && Copies(s) && Tags(s) && Ids(s) && Enabled(lease, s, a)
    ensures Tags(Next(lease, s, a))
  {
    hide Channels, Enabled, Next, OnChannel, Closed, Used;
    var s' := Next(lease, s, a);
    forall id | id in s'.pages
      ensures s'.pages[id].tags <= OnChannel(s'.place, s'.pages[id].chan)
    {
      if id in s.pages {
        PageTagsStay(lease, s, a, id);
      } else {
        NewPages(lease, s, a, id);
      }
    }
    forall id | id in s'.pulls
      ensures s'.pulls[id].taken <= if s'.pulls[id].chan.Some? then OnChannel(s'.place, s'.pulls[id].chan.value) else {}
    {
      if a.Acquire? && a.id == id {
        NewPulls(lease, s, a);
      } else {
        PullTagsStay(lease, s, a, id);
      }
    }
  }

  lemma UnackedBefore(lease: nat, s: State, a: Action, c: Copy)
    requires s.place.Keys == s.copies.Keys && Tags(s) && Enabled(lease, s, a)
    requires c in Next(lease, s, a).place && Next(lease, s, a).place[c].Unacked? && !(a.Deliver? && a.copy == c)
    ensures c in s.place && s.place[c] == Next(lease, s, a).place[c]
    ensures c in s.copies && c in Next(lease, s, a).copies && s.copies[c] == Next(lease, s, a).copies[c]
  {
    hide Enabled, Next, Tags, Closed;
    NewCopies(lease, s, a);
    PlaceStep(lease, s, a, c);
  }

  lemma HeldBefore(lease: nat, s: State, a: Action, id: PageId, ch: Chan)
    requires s.pulls.Keys !! s.pages.Keys && Used(s) && Enabled(lease, s, a) && Holds(Next(lease, s, a), id, ch)
    ensures (a.Open? && a.id == id && ch == s.chans)
            || (Holds(s, id, ch) && BoxOf(Next(lease, s, a), id) == BoxOf(s, id))
  {
    Fields(lease, s, a);
    Guards(lease, s, a);
    hide Next, Enabled, PlaceAfter;
  }

  lemma HeldAfter(lease: nat, s: State, a: Action, id: PageId, ch: Chan, c: Copy)
    requires s.pulls.Keys !! s.pages.Keys && Used(s) && Enabled(lease, s, a) && Closed(s, a) != Some(ch)
    requires Holds(s, id, ch) && c in s.place && s.place[c] == Unacked(ch)
    ensures Holds(Next(lease, s, a), id, ch)
  {
    Fields(lease, s, a);
    Guards(lease, s, a);
    hide Next, Enabled, PlaceAfter;
  }

  lemma StillHeld(lease: nat, s: State, a: Action, c: Copy)
    requires Channels(s) && Copies(s) && Tags(s) && Ids(s) && Enabled(lease, s, a)
    requires c in Next(lease, s, a).place && Next(lease, s, a).place[c].Unacked?
    ensures var s' := Next(lease, s, a); exists id :: Holds(s', id, s'.place[c].chan)
  {
    var s' := Next(lease, s, a);
    var ch := s'.place[c].chan;
    if a.Deliver? && a.copy == c {
      assert Holds(s', a.id, ch);
    } else {
      hide Enabled, Next, Used, Tokens, Holds, Tags, Closed, Moves;
      UnackedBefore(lease, s, a, c);
      PlaceStep(lease, s, a, c);
      var id :| Holds(s, id, ch);
      HeldAfter(lease, s, a, id, ch, c);
    }
  }

  lemma StillOfItsBox(lease: nat, s: State, a: Action, c: Copy, id: PageId)
    requires Channels(s) && Copies(s) && Tags(s) && Ids(s) && Enabled(lease, s, a)
    requires var s' := Next(lease, s, a); c in s'.place && s'.place[c].Unacked? && Holds(s', id, s'.place[c].chan)
    ensures var s' := Next(lease, s, a); c in s'.copies && BoxOf(s', id) == s'.copies[c].box
  {
    var s' := Next(lease, s, a);
    var ch := s'.place[c].chan;
    HeldBefore(lease, s, a, id, ch);
    if a.Deliver? && a.copy == c {
      assert Holds(s, a.id, ch);
    } else {
      hide Enabled, Next, Used, Tokens, Holds, BoxOf;
      UnackedBefore(lease, s, a, c);
      var held :| Holds(s, held, ch);
    }
  }

  lemma NextKeepsCopies(lease: nat, s: State, a: Action)
    requires Channels(s) && Copies(s) && Tags(s) && Ids(s) && Enabled(lease, s, a)
    ensures Copies(Next(lease, s, a))
  {
    var s' := Next(lease, s, a);
    NewCopies(lease, s, a);
    hide Next, Enabled, Channels, Tags, Ids, Holds, BoxOf;
    forall c | c in s'.place && s'.place[c].Unacked?
      ensures exists id :: Holds(s', id, s'.place[c].chan)
    {
      StillHeld(lease, s, a, c);
    }
    forall c, id | c in s'.place && s'.place[c].Unacked? && Holds(s', id, s'.place[c].chan)
      ensures BoxOf(s', id) == s'.copies[c].box
    {
      StillOfItsBox(lease, s, a, c, id);
    }
  }

  lemma NextKeepsInv(lease: nat, s: State, a: Action)
    requires Inv(lease, s) && Enabled(lease, s, a)
    ensures Inv(lease, Next(lease, s, a))
  {
    hide Channels, Copies, Tags, Ids, Causes, Times, Enabled, Next;
    NextKeepsChannels(lease, s, a);
    NextKeepsIds(lease, s, a);
    NextKeepsTimes(lease, s, a);
    NextKeepsCauses(lease, s, a);
    NextKeepsTags(lease, s, a);
    NextKeepsCopies(lease, s, a);
  }

  lemma {:induction false} RunKeepsInv(lease: nat, s: State, acts: seq<Action>, s': State)
    requires Inv(lease, s) && Run(lease, s, acts, s')
    ensures Inv(lease, s')
    decreases |acts|
  {
    hide Inv, Enabled, Next;
    if acts != [] {
      NextKeepsInv(lease, s, acts[0]);
      RunKeepsInv(lease, Next(lease, s, acts[0]), acts[1..], s');
    }
  }

  lemma ReachableInv(lease: nat, s: State)
    requires Reachable(lease, s)
    ensures Inv(lease, s)
  {
    var acts :| Run(lease, INIT, acts, s);
    assert Inv(lease, INIT);
    RunKeepsInv(lease, INIT, acts, s);
  }

  // ----- Conservation -----

  /** Each copy is ready, dead, acknowledged, or held by exactly one pull or page, of its own mailbox. */
  lemma EveryCopyInOnePlace(lease: nat, s: State, c: Copy)
    requires Reachable(lease, s) && c in s.copies
    ensures c in s.place
    ensures s.place[c].Unacked? ==>
              exists id ::
                  (id in s.pulls || id in s.pages) && Holds(s, id, s.place[c].chan) && BoxOf(s, id) == s.copies[c].box
    ensures s.place[c].Unacked? ==>
              forall id, id' | Holds(s, id, s.place[c].chan) && Holds(s, id', s.place[c].chan) :: id == id'
    ensures forall id, id' | id in s.pages && id' in s.pages && c in s.pages[id].tags && c in s.pages[id'].tags ::
            id == id'
    ensures forall id | id in s.pages && c in s.pages[id].tags :: s.place[c] == Unacked(s.pages[id].chan)
  {
    ReachableInv(lease, s);
    if s.place[c].Unacked? {
      var id :| Holds(s, id, s.place[c].chan);
    }
    forall id, id' | id in s.pages && id' in s.pages && c in s.pages[id].tags && c in s.pages[id'].tags
      ensures id == id'
    {
      assert Holds(s, id, s.place[c].chan) && Holds(s, id', s.place[c].chan);
    }
  }

  /** A copy is acknowledged only because its recipient wrote it, or through a token for a page of its mailbox. */
  lemma AckedForAReason(lease: nat, s: State, c: Copy)
    requires Reachable(lease, s) && c in s.copies && c in s.place && s.place[c].Acked?
    ensures match s.place[c].cause
            case SelfFilter => s.copies[c].source == s.copies[c].box.principal
            case Committed(id) =>
              id in s.committed && exists cl :: cl in s.issued && cl.page == id && cl.box == s.copies[c].box
  {
    ReachableInv(lease, s);
    if s.place[c].cause.Committed? {
      var cl :| TokenFor(s, s.place[c].cause.page, s.copies[c].box, cl);
    }
  }

  /** The step that acknowledges a copy is its recipient's own filter, or the one commit of the page that holds it. */
  lemma AckStep(lease: nat, s: State, a: Action, c: Copy)
    requires Reachable(lease, s) && Enabled(lease, s, a) && c in s.place && !s.place[c].Acked?
             && Next(lease, s, a).place[c].Acked?
    ensures c in s.copies && s.place[c].Unacked?
    ensures if a.FilterSelf? then
              && a.copy == c && PullHolds(s, a.id, s.place[c].chan) && s.copies[c].source == s.copies[c].box.principal
            else
              && a.Commit? && a.claims in s.checked && a.claims.page !in s.committed
              && PageHolds(s, a.claims.page, s.place[c].chan) && c in s.pages[a.claims.page].tags
              && Matches(s.pages[a.claims.page], a.claims) && s.pages[a.claims.page].box == s.copies[c].box
  {
    ReachableInv(lease, s);
    Guards(lease, s, a);
    assert a.FilterSelf? ==> a.copy in s.copies && s.copies[a.copy].source == s.pulls[a.id].box.principal;
    hide Causes, Times, Next, Enabled, Tags, Closed;
    PlaceStep(lease, s, a, c);
    if a.FilterSelf? {
      assert a.copy == c && Holds(s, a.id, s.place[c].chan) && BoxOf(s, a.id) == s.copies[c].box;
    } else {
      NewCommits(lease, s, a, c);
      AckedWasListed(lease, s, a, c);
      assert Holds(s, a.claims.page, s.place[c].chan) && BoxOf(s, a.claims.page) == s.copies[c].box;
    }
  }

  lemma AckedWasListed(lease: nat, s: State, a: Action, c: Copy)
    requires Enabled(lease, s, a) && a.Commit? && a.claims.page in s.pages && c in a.acked
    ensures c in s.pages[a.claims.page].tags
  {
  }

  /** A genuine token never meets a page that it does not match. */
  lemma TokensMatchTheirPages(lease: nat, s: State, cl: Claims)
    requires Reachable(lease, s) && cl in s.issued && cl.page in s.pages
    ensures Matches(s.pages[cl.page], cl) && s.pages[cl.page].instance == cl.instance && s.pages[cl.page].box == cl.box
  {
    ReachableInv(lease, s);
  }

  /** What is over stays over: acknowledged and dead copies, and committed pages. */
  lemma NextKeepsTheEnd(lease: nat, s: State, a: Action)
    requires Inv(lease, s) && Enabled(lease, s, a)
    ensures var s' := Next(lease, s, a);
            && (forall c | c in s.place && (s.place[c].Acked? || s.place[c].Dead?) ::
                  c in s'.place && s'.place[c] == s.place[c])
            && (forall id | id in s.committed :: id in s'.committed && id !in s'.pages && id !in s'.pulls)
  {
    Fields(lease, s, a);
    NextKeepsUsed(lease, s, a);
    hide PlaceAfter, PullsAfter, PagesAfter, Commits, Channels, Causes, Times, Used, Tokens, Next, Enabled, Closed;
    forall c | c in s.place && (s.place[c].Acked? || s.place[c].Dead?)
      ensures c in Next(lease, s, a).place && Next(lease, s, a).place[c] == s.place[c]
    {
      PlaceStep(lease, s, a, c);
    }
    UsedOnce(Next(lease, s, a));
  }

  lemma UsedOnce(s: State)
    requires Used(s)
    ensures forall id | id in s.committed :: id !in s.pages && id !in s.pulls
  {
  }

  lemma {:induction false} TheEndIsFinal(lease: nat, s: State, acts: seq<Action>, s': State)
    requires Inv(lease, s) && Run(lease, s, acts, s')
    ensures forall c | c in s.place && (s.place[c].Acked? || s.place[c].Dead?) ::
            c in s'.place && s'.place[c] == s.place[c]
    ensures forall id | id in s.committed :: id in s'.committed && id !in s'.pages && id !in s'.pulls
    decreases |acts|
  {
    hide Enabled, Next;
    if acts == [] {
    } else {
      hide Inv;
      NextKeepsTheEnd(lease, s, acts[0]);
      NextKeepsInv(lease, s, acts[0]);
      TheEndIsFinal(lease, Next(lease, s, acts[0]), acts[1..], s');
    }
  }

  // ----- Leases -----

  /** At most one epoch, of one instance, passes the owner check of a mailbox. */
  lemma OneOwner(s: State, a: Claims, b: Claims)
    requires a.box == b.box && Passes(s, a) && Passes(s, b)
    ensures a.epoch == b.epoch && a.instance == b.instance
  {
  }

  /** A live lease changes only by its own release. */
  lemma LiveLeaseIsNotReplaced(lease: nat, s: State, a: Action, b: Box)
    requires Enabled(lease, s, a) && Live(s, b)
    ensures var s' := Next(lease, s, a);
            if a.Release? && a.claims.box == b
            then a.claims.epoch == s.leases[b].epoch && b !in s'.leases
            else b in s'.leases && s'.leases[b] == s.leases[b]
  {
  }

  /** A token of an epoch that was ever handed out and does not pass will not pass after any step. */
  lemma StaleTokenStaysStale(lease: nat, s: State, a: Action, cl: Claims)
    requires Enabled(lease, s, a) && cl.epoch in s.epochs && !Passes(s, cl)
    ensures cl.epoch in Next(lease, s, a).epochs && !Passes(Next(lease, s, a), cl)
  {
  }

  lemma {:induction false} SupersededNeverPassesAgain(lease: nat, s: State, acts: seq<Action>, s': State, cl: Claims)
    requires Run(lease, s, acts, s') && cl.epoch in s.epochs && !Passes(s, cl)
    ensures !Passes(s', cl)
    decreases |acts|
  {
    hide Enabled, Next, Passes;
    if acts != [] {
      StaleTokenStaysStale(lease, s, acts[0], cl);
      SupersededNeverPassesAgain(lease, Next(lease, s, acts[0]), acts[1..], s', cl);
    }
  }

  /** The reaper takes a page only when its token cannot pass any more, then or ever after. */
  lemma ReapedPageCannotCommit(lease: nat, s: State, id: PageId, acts: seq<Action>, s': State, cl: Claims)
    requires Reachable(lease, s) && Enabled(lease, s, Reap(id)) && Run(lease, s, acts, s')
    requires cl.page == id && cl in s.issued
    ensures !Passes(s', cl)
  {
    ReachableInv(lease, s);
    assert !Passes(s, cl);
    SupersededNeverPassesAgain(lease, s, acts, s', cl);
  }
}
