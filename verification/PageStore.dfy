/**
  The pages that one gateway instance keeps open, and its loops over them: sorting out the
  messages of a pull, acknowledging a page, closing expired pages.  Each loop is specified on the
  broker's places and shown to be a run of the steps in module Mailbox.
*/
module PageStore {
  import opened Basics
  import opened Mailbox

  datatype Pending = Pending(box: Box, epoch: Epoch, chan: Chan, since: int, tags: seq<Copy>)

  /** An envelope that the broker handed out; a control has no source. */
  datatype Envelope =
    | Record(copy: Copy, network: string, cls: Class, source: string)
    | Control(copy: Copy, network: string, target: string)

  datatype Sorted = Mismatch | Kept(tags: seq<Copy>)

  datatype Outcome = Gone | Refused | Done(count: nat)

  function Elements(s: seq<Copy>): set<Copy> { set c | c in s }

  predicate Binds(b: Box, e: Envelope) {
    match e
    case Record(_, n, k, _) => n == b.network && k == b.cls
    case Control(_, n, t) => n == b.network && t == b.principal && b.cls == Interactive
  }

  predicate Own(b: Box, e: Envelope) { e.Record? && e.source == b.principal }

  /** The tags of a page, in the order of the messages. */
  function Foreign(b: Box, es: seq<Envelope>): seq<Copy> {
    if es == [] then []
    else
      var last := es[|es| - 1];
      if Own(b, last) then Foreign(b, es[..|es| - 1]) else Foreign(b, es[..|es| - 1]) + [last.copy]
  }

  function OwnCopies(b: Box, es: seq<Envelope>): set<Copy> { set e | e in es && Own(b, e) :: e.copy }

  predicate AllBind(b: Box, es: seq<Envelope>) { forall e | e in es :: Binds(b, e) }

  predicate IsExpired(p: Pending, only: Option<Box>, now: int, lease: nat) {
    p.since + lease <= now && (only.Some? ==> p.box == only.value)
  }

  function Expired(pending: map<PageId, Pending>, only: Option<Box>, now: int, lease: nat): set<PageId> {
    set id | id in pending && IsExpired(pending[id], only, now, lease)
  }

  function Chans(pending: map<PageId, Pending>, ids: set<PageId>): set<Chan>
    requires ids <= pending.Keys
  {
    set id | id in ids :: pending[id].chan
  }

  function RequeuedAll(place: map<Copy, Place>, chs: set<Chan>): map<Copy, Place> {
    map c | c in place :: if place[c].Unacked? && place[c].chan in chs then Ready else place[c]
  }

  lemma CloseOneMore(place: map<Copy, Place>, chs: set<Chan>, ch: Chan)
    ensures Requeued(RequeuedAll(place, chs), ch) == RequeuedAll(place, chs + {ch})
    ensures RequeuedAll(Requeued(place, ch), chs) == RequeuedAll(place, {ch} + chs)
  {
  }

  lemma NoneClosed(place: map<Copy, Place>)
    ensures RequeuedAll(place, {}) == place
  {
  }

  lemma CloseAnother(place: map<Copy, Place>, pending: map<PageId, Pending>, ids: set<PageId>, id: PageId)
    requires ids <= pending.Keys && id in pending
    ensures Requeued(RequeuedAll(place, Chans(pending, ids)), pending[id].chan)
            == RequeuedAll(place, Chans(pending, ids + {id}))
  {
  }

  class Pages {
    var pending: map<PageId, Pending>
    var place: map<Copy, Place>

    constructor ()
      ensures pending == map[] && place == map[]
    {
      pending, place := map[], map[];
    }

    method Acknowledge(c: Copy, cause: Cause)
      modifies this`place
      ensures place == AckedBy(old(place), {c}, cause)
    {
      if c in place {
        place := place[c := Acked(cause)];
      }
      assert place == AckedBy(old(place), {c}, cause);
    }

    /** Own records are acknowledged, the rest become the page; a foreign binding drops the channel. */
    method SortMessages(b: Box, ch: Chan, es: seq<Envelope>) returns (r: Sorted)
      modifies this`place
      ensures r == Mismatch <==> !AllBind(b, es)
      ensures AllBind(b, es) ==> r == Kept(Foreign(b, es)) && place == AckedBy(old(place), OwnCopies(b, es), SelfFilter)
      ensures !AllBind(b, es) ==>
                exists k :: 0 <= k < |es| && AllBind(b, es[..k]) && !Binds(b, es[k])
                  && place == Requeued(AckedBy(old(place), OwnCopies(b, es[..k]), SelfFilter), ch)
    {
      var i, tags := 0, [];
      assert place == AckedBy(old(place), OwnCopies(b, es[..0]), SelfFilter);
      while i < |es|
        invariant 0 <= i <= |es|
        invariant AllBind(b, es[..i]) && tags == Foreign(b, es[..i])
        invariant place == AckedBy(old(place), OwnCopies(b, es[..i]), SelfFilter)
      {
        if !Binds(b, es[i]) {
          place := Requeued(place, ch);
          return Mismatch;
        }
        assert es[..i + 1] == es[..i] + [es[i]];
        if Own(b, es[i]) {
          Acknowledge(es[i].copy, SelfFilter);
          assert OwnCopies(b, es[..i + 1]) == OwnCopies(b, es[..i]) + {es[i].copy};
        } else {
          tags := tags + [es[i].copy];
          assert OwnCopies(b, es[..i + 1]) == OwnCopies(b, es[..i]);
        }
        i := i + 1;
      }
      assert es[..i] == es;
      return Kept(tags);
    }

    /** The page is taken out first; whatever happens then, it is over. */
    method CommitPage(id: PageId, principal: string, cls: Class, epoch: Epoch) returns (r: Outcome)
      modifies this
      ensures pending == old(pending) - {id}
      ensures r.Gone? <==> id !in old(pending)
      ensures id !in old(pending) ==> place == old(place)
      ensures id in old(pending) ==>
                var p := old(pending)[id];
                if p.box.principal == principal && p.box.cls == cls && p.epoch == epoch then
                  && r == Done(|p.tags|)
                  && place == Requeued(AckedBy(old(place), Elements(p.tags), Committed(id)), p.chan)
                else r == Refused && place == Requeued(old(place), p.chan)
    {
      if id !in pending {
        return Gone;
      }
      var p := pending[id];
      pending := pending - {id};
      if p.box.principal != principal || p.box.cls != cls || p.epoch != epoch {
        place := Requeued(place, p.chan);
        return Refused;
      }
      var i := 0;
      while i < |p.tags|
        invariant 0 <= i <= |p.tags|
        invariant place == AckedBy(old(place), Elements(p.tags[..i]), Committed(id))
        invariant pending == old(pending) - {id}
      {
        Acknowledge(p.tags[i], Committed(id));
        assert Elements(p.tags[..i + 1]) == Elements(p.tags[..i]) + {p.tags[i]};
        i := i + 1;
      }
      assert p.tags[..i] == p.tags;
      place := Requeued(place, p.chan);
      return Done(|p.tags|);
    }

    /** Expired pages, of one mailbox or of all, are removed and their channels closed. */
    method CloseExpired(only: Option<Box>, now: int, lease: nat) returns (count: nat)
      modifies this
      ensures pending == old(pending) - Expired(old(pending), only, now, lease)
      ensures place == RequeuedAll(old(place), Chans(old(pending), Expired(old(pending), only, now, lease)))
      ensures count == |Expired(old(pending), only, now, lease)|
    {
      hide RequeuedAll, Requeued, IsExpired;
      var ids := Expired(pending, only, now, lease);
      count := |ids|;
      ghost var closed: set<PageId> := {};
      NoneClosed(place);
      assert Chans(old(pending), closed) == {};
      while ids != {}
        invariant closed + ids == Expired(old(pending), only, now, lease) && closed !! ids
        invariant pending == old(pending) - closed
        invariant place == RequeuedAll(old(place), Chans(old(pending), closed))
        decreases ids
      {
        var id :| id in ids;
        ids := ids - {id};
        place := Requeued(place, pending[id].chan);
        pending := pending - {id};
        CloseAnother(old(place), old(pending), closed, id);
        closed := closed + {id};
      }
    }
  }

  /** The lease rows. */
  class DeliveryOwners {
    var rows: map<Box, Lease>

    method TryAcquire(instance: Instance, b: Box, epoch: Epoch, now: int, lease: nat) returns (acquired: bool)
      modifies this
      ensures acquired <==> (b in old(rows) ==> old(rows)[b].expires <= now || old(rows)[b].epoch == epoch)
      ensures rows == if acquired then old(rows)[b := Lease(instance, epoch, now + lease)] else old(rows)
    {
      if b in rows && rows[b].expires > now && rows[b].epoch != epoch {
        return false;
      }
      rows := rows[b := Lease(instance, epoch, now + lease)];
      return true;
    }

    method Load(b: Box, now: int) returns (owner: Option<Lease>)
      ensures owner == if b in rows && rows[b].expires > now then Some(rows[b]) else None
    {
      if b in rows && rows[b].expires > now {
        return Some(rows[b]);
      }
      return None;
    }

    method Release(b: Box, instance: Instance, epoch: Epoch) returns (removed: bool)
      modifies this
      ensures removed <==> b in old(rows) && old(rows)[b].instance == instance && old(rows)[b].epoch == epoch
      ensures rows == if removed then old(rows) - {b} else old(rows)
    {
      removed := b in rows && rows[b].instance == instance && rows[b].epoch == epoch;
      if removed {
        rows := rows - {b};
      }
    }
  }

  datatype Answer = LeaseGone | EpochChanged | Mismatched | Answered(count: Option<nat>)

  predicate IsOwner(rows: map<Box, Lease>, cl: Claims, me: Instance) {
    cl.box in rows && rows[cl.box].instance == cl.instance && rows[cl.box].epoch == cl.epoch && cl.instance == me
  }

  /** The commit handler: owner check, commit, and release of the lease after a commit. */
  method CommitLocalDeliveries(pages: Pages, owners: DeliveryOwners, me: Instance, cl: Claims, now: int)
      returns (r: Answer)
    modifies pages, owners
    ensures r == LeaseGone <==> (cl.box in old(owners.rows) ==> old(owners.rows)[cl.box].expires <= now)
    ensures r == EpochChanged <==>
              cl.box in old(owners.rows) && old(owners.rows)[cl.box].expires > now && !IsOwner(old(owners.rows), cl, me)
    ensures r == LeaseGone || r == EpochChanged ==> unchanged(pages) && unchanged(owners)
    ensures r == Mismatched || r.Answered? ==>
              && pages.pending == old(pages.pending) - {cl.page}
              && (r == Answered(None) <==> cl.page !in old(pages.pending))
              && (cl.page in old(pages.pending) ==>
                    var p := old(pages.pending)[cl.page];
                    if p.box.principal == cl.box.principal && p.box.cls == cl.box.cls && p.epoch == cl.epoch then
                      && r == Answered(Some(|p.tags|))
                      && pages.place
                         == Requeued(AckedBy(old(pages.place), Elements(p.tags), Committed(cl.page)), p.chan)
                      && owners.rows == old(owners.rows) - {cl.box}
                    else r == Mismatched && pages.place == Requeued(old(pages.place), p.chan) && unchanged(owners))
  {
    var owner := owners.Load(cl.box, now);
    if owner.None? {
      return LeaseGone;
    }
    if owner.value.instance != cl.instance || owner.value.epoch != cl.epoch || owner.value.instance != me {
      return EpochChanged;
    }
    var outcome := pages.CommitPage(cl.page, cl.box.principal, cl.box.cls, cl.epoch);
    match outcome
    case Gone => r := Answered(None);
    case Refused => r := Mismatched;
    case Done(n) =>
      var _ := owners.Release(cl.box, cl.instance, cl.epoch);
      r := Answered(Some(n));
  }

  /**
    For the fresh epoch of a pull, acquiring succeeds exactly when no lease is live, and is the step of module
    Mailbox.
  */
  lemma AcquireIsAStep(lease: nat, s: State, instance: Instance, b: Box, epoch: Epoch, id: PageId)
    requires Reachable(lease, s) && epoch !in s.epochs && id !in s.ids
    ensures (b in s.leases ==> s.leases[b].expires <= s.now || s.leases[b].epoch == epoch) <==>
            Enabled(lease, s, Acquire(id, instance, b, epoch))
    ensures Enabled(lease, s, Acquire(id, instance, b, epoch)) ==>
              Next(lease, s, Acquire(id, instance, b, epoch)).leases
                  == s.leases[b := Lease(instance, epoch, s.now + lease)]
  {
    ReachableInv(lease, s);
  }

  /** The places after a full commit: listed copies are acknowledged, the channel's other copies go back. */
  predicate CommitsAndReturns(place: map<Copy, Place>, place': map<Copy, Place>, tags: set<Copy>, ch: Chan,
      cause: Cause) {
    && place'.Keys == place.Keys
    && forall c | c in place ::
         place'[c] == if c in tags then Acked(cause) else if c in OnChannel(place, ch) then Ready else place[c]
  }

  /**
    Acknowledging listed copies and closing the channel returns exactly the copies that were not taken, none
    if all were.
  */
  lemma CommitReturnsUntaken(place: map<Copy, Place>, tags: set<Copy>, ch: Chan, cause: Cause)
    requires tags <= OnChannel(place, ch)
    ensures CommitsAndReturns(place, Requeued(AckedBy(place, tags, cause), ch), tags, ch, cause)
    ensures Requeued(AckedBy(place, tags, cause), ch) == AckedBy(place, tags, cause) <==> tags == OnChannel(place, ch)
  {
    var acked := AckedBy(place, tags, cause);
    if c :| c in OnChannel(place, ch) && c !in tags {
      assert c in place && Requeued(acked, ch)[c] == Ready && acked[c] == Unacked(ch);
    }
  }

  /**
    A token that passes and whose page is still there commits it: its copies are acknowledged, the
    copies on its channel that the pull had not taken go back, and the lease is released.
  */
  lemma CommitSucceeds(lease: nat, s: State, cl: Claims)
    requires Reachable(lease, s) && cl in s.issued && Passes(s, cl) && cl.page in s.pages
    ensures var p := s.pages[cl.page];
            exists s' ::
              && Run(lease, s, [Check(cl), Commit(cl, p.tags), Release(cl)], s')
              && p.tags <= OnChannel(s.place, p.chan)
              && CommitsAndReturns(s.place, s'.place, p.tags, p.chan, Committed(cl.page))
              && s'.pages == s.pages - {cl.page} && s'.leases == s.leases - {cl.box} && cl.page in s'.committed
  {
    ReachableInv(lease, s);
    TokensMatchTheirPages(lease, s, cl);
    var p := s.pages[cl.page];
    CommitReturnsUntaken(s.place, p.tags, p.chan, Committed(cl.page));
    assert p.tags <= OnChannel(s.place, p.chan);
    hide Inv, AckedBy, Requeued, Run, Reachable, CommitsAndReturns, OnChannel;
    var s1 := s.(checked := s.checked + {cl});
    Checked(lease, s, cl);
    CommittedAndReleased(lease, s1, cl);
    RunOfThree(lease, s, Check(cl), Commit(cl, p.tags), Release(cl));
  }

  lemma Checked(lease: nat, s: State, cl: Claims)
    requires cl in s.issued && Passes(s, cl)
    ensures Enabled(lease, s, Check(cl)) && Next(lease, s, Check(cl)) == s.(checked := s.checked + {cl})
  {
  }

  lemma CommittedAndReleased(lease: nat, s: State, cl: Claims)
    requires cl in s.checked && Passes(s, cl) && Finds(s, cl) && Matches(s.pages[cl.page], cl)
    ensures var p := s.pages[cl.page];
            && Enabled(lease, s, Commit(cl, p.tags))
            && var s2 := Next(lease, s, Commit(cl, p.tags));
               && Enabled(lease, s2, Release(cl))
               && var s3 := Next(lease, s2, Release(cl));
                  && s3.place == Requeued(AckedBy(s.place, p.tags, Committed(cl.page)), p.chan)
                  && s3.pages == s.pages - {cl.page} && s3.leases == s.leases - {cl.box} && cl.page in s3.committed
  {
    hide AckedBy, Requeued;
  }

  lemma RunOfThree(lease: nat, s: State, a: Action, b: Action, c: Action)
    requires Enabled(lease, s, a) && Enabled(lease, Next(lease, s, a), b)
             && Enabled(lease, Next(lease, Next(lease, s, a), b), c)
    ensures Run(lease, s, [a, b, c], Next(lease, Next(lease, Next(lease, s, a), b), c))
  {
    hide Enabled, Next;
    var s1 := Next(lease, s, a);
    var s2 := Next(lease, s1, b);
    var s3 := Next(lease, s2, c);
    assert Run(lease, s3, [], s3);
    assert [c][1..] == [] && Run(lease, s2, [c], s3);
    assert [b, c][1..] == [c] && Run(lease, s1, [b, c], s3);
    assert [a, b, c][1..] == [b, c];
  }

  // ----- A commit that returns a copy -----

  const ALICE: Box := Box("n", "alice", Bulk)

  lemma ReachesNext(lease: nat, s: State, a: Action)
    requires Reachable(lease, s) && Enabled(lease, s, a)
    ensures Reachable(lease, Next(lease, s, a))
  {
    hide Enabled, Next;
    var acts :| Run(lease, INIT, acts, s);
    RunExtends(lease, INIT, acts, s, a);
  }

  lemma {:induction false} RunExtends(lease: nat, s: State, acts: seq<Action>, s': State, a: Action)
    requires Run(lease, s, acts, s') && Enabled(lease, s', a)
    ensures Run(lease, s, acts + [a], Next(lease, s', a))
    decreases |acts|
  {
    hide Enabled, Next;
    if acts == [] {
      assert [a][1..] == [] && Run(lease, Next(lease, s, a), [], Next(lease, s, a));
      assert Run(lease, s, [a], Next(lease, s, a)) && acts + [a] == [a];
    } else {
      RunExtends(lease, Next(lease, s, acts[0]), acts[1..], s', a);
      assert (acts + [a])[1..] == acts[1..] + [a];
    }
  }

  /** Two copies of others are queued for a mailbox, and a pull of it begins. */
  lemma TwoQueued(lease: nat) returns (s: State)
    ensures Reachable(lease, s) && s.now == 0 && s.pages == map[] && s.chans == 0
    ensures s.copies == map[0 := Message(ALICE, "bob"), 1 := Message(ALICE, "bob")]
    ensures s.place == map[0 := Ready, 1 := Ready]
    ensures s.leases == map[ALICE := Lease("i", 0, lease)] && s.pulls == map[0 := Pull("i", ALICE, 0, None, 0, {})]
  {
    assert Run(lease, INIT, [], INIT);
    hide Reachable;
    ReachesNext(lease, INIT, Enqueue(0, Message(ALICE, "bob")));
    var s1 := Next(lease, INIT, Enqueue(0, Message(ALICE, "bob")));
    ReachesNext(lease, s1, Enqueue(1, Message(ALICE, "bob")));
    var s2 := Next(lease, s1, Enqueue(1, Message(ALICE, "bob")));
    ReachesNext(lease, s2, Acquire(0, "i", ALICE, 0));
    s := Next(lease, s2, Acquire(0, "i", ALICE, 0));
  }

  /** The pull takes the first copy; the broker hands it the second too late. */
  lemma OneTaken(lease: nat) returns (s: State)
    ensures Reachable(lease, s) && s.now == 0 && s.pages == map[]
    ensures s.copies == map[0 := Message(ALICE, "bob"), 1 := Message(ALICE, "bob")]
    ensures s.place == map[0 := Unacked(0), 1 := Unacked(0)]
    ensures s.leases == map[ALICE := Lease("i", 0, lease)] && s.pulls == map[0 := Pull("i", ALICE, 0, Some(0), 0, {0})]
  {
    hide Reachable;
    var s0 := TwoQueued(lease);
    ReachesNext(lease, s0, Open(0));
    var s1 := Next(lease, s0, Open(0));
    ReachesNext(lease, s1, Deliver(0, 0));
    var s2 := Next(lease, s1, Deliver(0, 0));
    ReachesNext(lease, s2, Take(0, 0));
    var s3 := Next(lease, s2, Take(0, 0));
    assert s3.pulls[0].taken == {0};
    ReachesNext(lease, s3, Deliver(0, 1));
    s := Next(lease, s3, Deliver(0, 1));
  }

  /** A reachable page that does not list a copy on its channel: its commit returns that copy to the queue. */
  lemma CommitReturnsACopy(lease: nat) returns (s: State, cl: Claims, s': State)
    requires lease > 0
    ensures Reachable(lease, s) && cl in s.issued && Passes(s, cl) && cl.page in s.pages
    ensures s.pages[cl.page].tags == {0} && OnChannel(s.place, s.pages[cl.page].chan) == {0, 1}
    ensures Run(lease, s, [Check(cl), Commit(cl, {0}), Release(cl)], s')
    ensures s'.place == map[0 := Acked(Committed(cl.page)), 1 := Ready]
  {
    hide Reachable, Run;
    var s0 := OneTaken(lease);
    ReachesNext(lease, s0, Finish(0));
    s, cl := Next(lease, s0, Finish(0)), Claims(0, ALICE, "i", 0);
    CommitSucceeds(lease, s, cl);
    var p := s.pages[0];
    s' :| Run(lease, s, [Check(cl), Commit(cl, p.tags), Release(cl)], s')
          && CommitsAndReturns(s.place, s'.place, p.tags, p.chan, Committed(cl.page));
  }

  /** The sorted page is the messages without the own ones. */
  lemma {:induction false} ForeignExact(b: Box, es: seq<Envelope>)
    ensures forall c :: c in Foreign(b, es) <==> exists e :: e in es && !Own(b, e) && e.copy == c
    ensures |Foreign(b, es)| <= |es|
  {
    if es != [] {
      var front, last := es[..|es| - 1], es[|es| - 1];
      ForeignExact(b, front);
      assert es == front + [last];
      assert forall e :: e in es <==> e in front || e == last;
    }
  }

  // ----- The loops as runs -----

  predicate Shows(s: State, id: PageId, e: Envelope)
    requires Pulling(s, id)
  {
    && e.copy in s.pulls[id].taken && e.copy in s.place && s.place[e.copy] == Unacked(s.pulls[id].chan.value)
    && e.copy in s.copies && (e.Record? ==> s.copies[e.copy].source == e.source)
  }

  predicate Distinct(es: seq<Envelope>) { forall i, j | 0 <= i < j < |es| :: es[i].copy != es[j].copy }

  function FilterActs(id: PageId, b: Box, es: seq<Envelope>): seq<Action> {
    if es == [] then []
    else if Own(b, es[0]) then [FilterSelf(id, es[0].copy)] + FilterActs(id, b, es[1..])
    else FilterActs(id, b, es[1..])
  }

  /** A pull whose own records are acknowledged. */
  function Filtered(s: State, id: PageId, own: set<Copy>): State
    requires id in s.pulls
  {
    s.(place := AckedBy(s.place, own, SelfFilter),
       pulls := s.pulls[id := s.pulls[id].(taken := s.pulls[id].taken - own)])
  }

  lemma FilterOneMore(lease: nat, s: State, id: PageId, c: Copy, own: set<Copy>)
    requires Enabled(lease, s, FilterSelf(id, c))
    ensures Filtered(Next(lease, s, FilterSelf(id, c)), id, own) == Filtered(s, id, {c} + own)
  {
    var s1 := Next(lease, s, FilterSelf(id, c));
    assert AckedBy(s1.place, own, SelfFilter) == AckedBy(s.place, {c} + own, SelfFilter);
    assert s1.pulls[id].taken - own == s.pulls[id].taken - ({c} + own);
  }

  lemma FilteredNone(s: State, id: PageId)
    requires id in s.pulls
    ensures Filtered(s, id, {}) == s
  {
    assert s.pulls[id].taken - {} == s.pulls[id].taken;
  }

  /** Sorting the messages of a pull is a run of filter steps; the rest stays taken. */
  lemma {:induction false} SortingIsARun(lease: nat, s: State, id: PageId, es: seq<Envelope>)
    requires Pulling(s, id) && Distinct(es) && forall e | e in es :: Shows(s, id, e)
    ensures var b := s.pulls[id].box; Run(lease, s, FilterActs(id, b, es), Filtered(s, id, OwnCopies(b, es)))
    decreases |es|
  {
    var b := s.pulls[id].box;
    if es == [] {
      assert OwnCopies(b, es) == {};
      FilteredNone(s, id);
    } else if Own(b, es[0]) {
      assert Shows(s, id, es[0]);
      var a := FilterSelf(id, es[0].copy);
      var s1 := Next(lease, s, a);
      forall e | e in es[1..]
        ensures Shows(s1, id, e)
      {
        var j :| 0 < j < |es| && es[j] == e;
        assert Shows(s, id, es[j]);
      }
      SortingIsARun(lease, s1, id, es[1..]);
      FilterOneMore(lease, s, id, es[0].copy, OwnCopies(b, es[1..]));
      hide Filtered;
      assert OwnCopies(b, es) == {es[0].copy} + OwnCopies(b, es[1..]);
      assert FilterActs(id, b, es)[1..] == FilterActs(id, b, es[1..]);
    } else {
      hide Filtered;
      SortingIsARun(lease, s, id, es[1..]);
      assert OwnCopies(b, es) == OwnCopies(b, es[1..]);
    }
  }

  function ReapActs(ids: seq<PageId>): seq<Action> {
    if ids == [] then [] else [Reap(ids[0])] + ReapActs(ids[1..])
  }

  function PageChans(s: State, ids: seq<PageId>): set<Chan>
    requires forall id | id in ids :: id in s.pages
  {
    set id | id in ids :: s.pages[id].chan
  }

  function Reaped(s: State, ids: seq<PageId>): State
    requires forall id | id in ids :: id in s.pages
  {
    s.(place := RequeuedAll(s.place, PageChans(s, ids)), pages := s.pages - set id | id in ids)
  }

  lemma ReapOneMore(lease: nat, s: State, ids: seq<PageId>)
    requires ids != [] && ids[0] !in ids[1..]
    requires forall id | id in ids :: id in s.pages && s.pages[id].since + lease <= s.now
    ensures var s1 := ClosePage(s, ids[0]);
            (forall id | id in ids[1..] :: id in s1.pages && s1.pages[id].since + lease <= s1.now)
            && Reaped(s, ids) == Reaped(s1, ids[1..])
  {
    var s1 := ClosePage(s, ids[0]);
    assert ids == [ids[0]] + ids[1..];
    assert forall id | id in ids[1..] :: id in ids;
    assert PageChans(s, ids) == {s.pages[ids[0]].chan} + PageChans(s1, ids[1..]);
    CloseOneMore(s.place, PageChans(s1, ids[1..]), s.pages[ids[0]].chan);
    hide RequeuedAll, Requeued, PageChans;
    assert (set id | id in ids) == {ids[0]} + set id | id in ids[1..];
    assert Reaped(s, ids).pages == Reaped(s1, ids[1..]).pages;
  }

  /** Closing a list of expired pages is a run of reaper steps. */
  lemma {:induction false} ReapingIsARun(lease: nat, s: State, ids: seq<PageId>)
    requires forall i, j | 0 <= i < j < |ids| :: ids[i] != ids[j]
    requires forall id | id in ids :: id in s.pages && s.pages[id].since + lease <= s.now
    ensures Run(lease, s, ReapActs(ids), Reaped(s, ids))
    decreases |ids|
  {
    if ids == [] {
      assert Reaped(s, ids) == s;
    } else {
      ReapOneMore(lease, s, ids);
      hide Reaped, ClosePage;
      var s1 := ClosePage(s, ids[0]);
      assert Enabled(lease, s, Reap(ids[0])) && Next(lease, s, Reap(ids[0])) == s1;
      ReapingIsARun(lease, s1, ids[1..]);
      assert ReapActs(ids)[1..] == ReapActs(ids[1..]);
    }
  }
}
