/**
  The quorum check on a signed Global membership snapshot.  Signature verification is a
  parameter: the results hold for every verifier.
*/
module Quorum {

  type Principal = string
  type u32 = x: nat | x <= U32_MAX

  const U32_MAX: nat := 0xFFFF_FFFF

  datatype Role = Proposer | Verifier | Committer | Finalizer

  type Membership = map<Principal, set<Role>>

  datatype Envelope = Envelope(signer: Principal, hex: string)

  type Verify = (Principal, Membership, string) -> bool

  /** Only the first envelope of each signer is looked at. */
  predicate FirstBySigner(sigs: seq<Envelope>, i: nat) {
    i < |sigs| && forall j | 0 <= j < i :: sigs[j].signer != sigs[i].signer
  }

  predicate Good(verify: Verify, allowed: set<Principal>, membership: Membership, e: Envelope) {
    e.signer in allowed && verify(e.signer, membership, e.hex)
  }

  /** The allowed signers whose first envelope is among the first `n` and verifies. */
  function EndorsersAmong(verify: Verify, allowed: set<Principal>, membership: Membership, sigs: seq<Envelope>,
      n: nat): set<Principal>
    requires n <= |sigs|
  {
    set i: nat | i < n && FirstBySigner(sigs, i) && Good(verify, allowed, membership, sigs[i]) :: sigs[i].signer
  }

  /** The allowed signers whose first envelope verifies. */
  function Endorsers(verify: Verify, allowed: set<Principal>, membership: Membership,
      sigs: seq<Envelope>): set<Principal> {
    EndorsersAmong(verify, allowed, membership, sigs, |sigs|)
  }

  /** The allowed signers with some envelope that verifies. */
  function ValidSigners(verify: Verify, allowed: set<Principal>, membership: Membership,
      sigs: seq<Envelope>): set<Principal> {
    set i: nat | i < |sigs| && Good(verify, allowed, membership, sigs[i]) :: sigs[i].signer
  }

  predicate Accepted(verify: Verify, allowed: set<Principal>, membership: Membership, threshold: nat,
      sigs: seq<Envelope>) {
    threshold >= 1 && |sigs| >= threshold && |Endorsers(verify, allowed, membership, sigs)| >= threshold
  }

  lemma EndorsersGrow(verify: Verify, allowed: set<Principal>, membership: Membership, sigs: seq<Envelope>, n: nat)
    requires n < |sigs|
    ensures
      var before := EndorsersAmong(verify, allowed, membership, sigs, n);
      && EndorsersAmong(verify, allowed, membership, sigs, n + 1)
         == before
            + (if FirstBySigner(sigs, n) && Good(verify, allowed, membership, sigs[n]) then {sigs[n].signer} else {})
      && (FirstBySigner(sigs, n) ==> sigs[n].signer !in before)
  {
  }

  function Saturated(count: nat): u32 {
    if count > U32_MAX then U32_MAX else count
  }

  lemma NobodyYet(verify: Verify, allowed: set<Principal>, membership: Membership)
    ensures forall sigs :: EndorsersAmong(verify, allowed, membership, sigs, 0) == {}
  {
  }

  /** The loop of the check: a set of signers seen so far and a saturating counter. */
  method ValidateQuorum(verify: Verify, allowed: set<Principal>, membership: Membership, threshold: u32,
      sigs: seq<Envelope>)
      returns (ok: bool)
    ensures ok <==> Accepted(verify, allowed, membership, threshold, sigs)
  {
    hide EndorsersAmong;
    NobodyYet(verify, allowed, membership);
    if threshold == 0 || |sigs| < threshold {
      return false;
    }
    var unique: set<Principal> := {};
    var valid: u32 := 0;
    for n := 0 to |sigs|
      invariant forall p :: p in unique <==> exists j | 0 <= j < n :: sigs[j].signer == p
      invariant valid == Saturated(|EndorsersAmong(verify, allowed, membership, sigs, n)|)
    {
      EndorsersGrow(verify, allowed, membership, sigs, n);
      var e := sigs[n];
      var isNew := e.signer !in unique;
      assert isNew == FirstBySigner(sigs, n);
      unique := unique + {e.signer};
      if isNew && e.signer in allowed {
        if verify(e.signer, membership, e.hex) {
          valid := if valid == U32_MAX then U32_MAX else valid + 1;
        }
      }
    }
    return valid >= threshold;
  }

  /** An accepted snapshot carries valid signatures of at least `threshold >= 1` distinct allowed signers. */
  lemma AcceptedMeansQuorum(verify: Verify, allowed: set<Principal>, membership: Membership, threshold: nat,
      sigs: seq<Envelope>)
    requires Accepted(verify, allowed, membership, threshold, sigs)
    ensures
      var quorum := ValidSigners(verify, allowed, membership, sigs);
      && quorum <= allowed && |quorum| >= threshold >= 1
      && forall p | p in quorum :: exists e | e in sigs :: e.signer == p && verify(p, membership, e.hex)
  {
    var quorum := ValidSigners(verify, allowed, membership, sigs);
    var endorsers := Endorsers(verify, allowed, membership, sigs);
    assert endorsers <= quorum;
    assert quorum == endorsers + (quorum - endorsers);
    forall p | p in quorum
      ensures exists e | e in sigs :: e.signer == p && verify(p, membership, e.hex)
    {
      var i: nat :| i < |sigs| && Good(verify, allowed, membership, sigs[i]) && sigs[i].signer == p;
      assert sigs[i] in sigs;
    }
  }

  lemma {:induction false} MoreEnvelopes(verify: Verify, allowed: set<Principal>, membership: Membership,
      sigs: seq<Envelope>, e: Envelope, n: nat)
    requires n <= |sigs|
    ensures EndorsersAmong(verify, allowed, membership, sigs + [e], n)
            == EndorsersAmong(verify, allowed, membership, sigs, n)
  {
    NobodyYet(verify, allowed, membership);
    hide EndorsersAmong;
    if n > 0 {
      MoreEnvelopes(verify, allowed, membership, sigs, e, n - 1);
      EndorsersGrow(verify, allowed, membership, sigs, n - 1);
      EndorsersGrow(verify, allowed, membership, sigs + [e], n - 1);
      assert forall i | 0 <= i < n :: (sigs + [e])[i] == sigs[i];
    }
  }

  /** A later envelope of a signer already seen changes nothing. */
  lemma RepeatedSignerIsIgnored(verify: Verify, allowed: set<Principal>, membership: Membership, sigs: seq<Envelope>,
      e: Envelope)
    requires exists j | 0 <= j < |sigs| :: sigs[j].signer == e.signer
    ensures Endorsers(verify, allowed, membership, sigs + [e]) == Endorsers(verify, allowed, membership, sigs)
  {
    var all := sigs + [e];
    hide EndorsersAmong;
    MoreEnvelopes(verify, allowed, membership, sigs, e, |sigs|);
    assert !FirstBySigner(all, |sigs|) by {
      var j :| 0 <= j < |sigs| && sigs[j].signer == e.signer;
      assert all[j].signer == all[|sigs|].signer;
    }
    EndorsersGrow(verify, allowed, membership, all, |sigs|);
  }

  /**
    Not every signer with a valid signature is counted: a bad first envelope hides a good later
    one.  The count is complete exactly when no allowed signer is hidden that way.
  */
  predicate Hidden(verify: Verify, allowed: set<Principal>, membership: Membership, sigs: seq<Envelope>, i: nat) {
    && i < |sigs| && FirstBySigner(sigs, i) && !Good(verify, allowed, membership, sigs[i])
    && exists k | i < k < |sigs| :: sigs[k].signer == sigs[i].signer && Good(verify, allowed, membership, sigs[k])
  }

  lemma FirstIndex(sigs: seq<Envelope>, k: nat) returns (i: nat)
    requires k < |sigs|
    ensures i <= k && FirstBySigner(sigs, i) && sigs[i].signer == sigs[k].signer
  {
    i := 0;
    while sigs[i].signer != sigs[k].signer
      invariant i <= k && forall j | 0 <= j < i :: sigs[j].signer != sigs[k].signer
      decreases k - i
    {
      i := i + 1;
    }
  }

  lemma AllValidSignersCountIff(verify: Verify, allowed: set<Principal>, membership: Membership, sigs: seq<Envelope>)
    ensures Endorsers(verify, allowed, membership, sigs) == ValidSigners(verify, allowed, membership, sigs)
            <==> forall i: nat :: !Hidden(verify, allowed, membership, sigs, i)
  {
    var endorsers := Endorsers(verify, allowed, membership, sigs);
    var signers := ValidSigners(verify, allowed, membership, sigs);
    if i: nat :| Hidden(verify, allowed, membership, sigs, i) {
      var k :| i < k < |sigs| && sigs[k].signer == sigs[i].signer && Good(verify, allowed, membership, sigs[k]);
      assert sigs[k].signer in signers;
      assert forall j: nat | FirstBySigner(sigs, j) && sigs[j].signer == sigs[i].signer :: j == i;
    } else {
      forall p | p in signers
        ensures p in endorsers
      {
        var k: nat :| k < |sigs| && Good(verify, allowed, membership, sigs[k]) && sigs[k].signer == p;
        var i := FirstIndex(sigs, k);
        assert !Hidden(verify, allowed, membership, sigs, i);
      }
      assert endorsers <= signers;
    }
  }

  /** The signers whose good envelope comes after a bad one of theirs. */
  function HiddenSigners(verify: Verify, allowed: set<Principal>, membership: Membership,
      sigs: seq<Envelope>): set<Principal> {
    set i: nat | i < |sigs| && Hidden(verify, allowed, membership, sigs, i) :: sigs[i].signer
  }

  /** A snapshot is accepted exactly when enough valid signers are left once the hidden ones are taken away. */
  lemma AcceptedIff(verify: Verify, allowed: set<Principal>, membership: Membership, threshold: nat,
      sigs: seq<Envelope>)
    ensures Accepted(verify, allowed, membership, threshold, sigs) <==>
              && threshold >= 1 && |sigs| >= threshold
              && |ValidSigners(verify, allowed, membership, sigs)
                  - HiddenSigners(verify, allowed, membership, sigs)| >= threshold
  {
    var signers := ValidSigners(verify, allowed, membership, sigs);
    var hidden := HiddenSigners(verify, allowed, membership, sigs);
    var endorsers := Endorsers(verify, allowed, membership, sigs);
    forall p
      ensures p in endorsers <==> p in signers && p !in hidden
    {
      EndorsesIff(verify, allowed, membership, sigs, p);
    }
    assert endorsers == signers - hidden;
  }

  lemma EndorsesIff(verify: Verify, allowed: set<Principal>, membership: Membership, sigs: seq<Envelope>, p: Principal)
    ensures p in Endorsers(verify, allowed, membership, sigs) <==>
              && p in ValidSigners(verify, allowed, membership, sigs)
              && p !in HiddenSigners(verify, allowed, membership, sigs)
  {
    if k: nat :| k < |sigs| && sigs[k].signer == p {
      var i := FirstIndex(sigs, k);
      assert forall j: nat | FirstBySigner(sigs, j) && sigs[j].signer == p :: j == i;
      if Good(verify, allowed, membership, sigs[i]) {
        assert p in Endorsers(verify, allowed, membership, sigs);
      } else if p in ValidSigners(verify, allowed, membership, sigs) {
        var g: nat :| g < |sigs| && Good(verify, allowed, membership, sigs[g]) && sigs[g].signer == p;
        assert i < g;
        assert Hidden(verify, allowed, membership, sigs, i);
      }
    }
  }

  /** A garbled envelope before a good one of the only signer has the snapshot refused. */
  lemma GarbledFirstEnvelopeRefuses(verify: Verify, membership: Membership, signer: Principal, bad: string,
      good: string)
    requires !verify(signer, membership, bad) && verify(signer, membership, good)
    ensures
      var sigs := [Envelope(signer, bad), Envelope(signer, good)];
      && ValidSigners(verify, {signer}, membership, sigs) == {signer}
      && !Accepted(verify, {signer}, membership, 1, sigs)
      && Accepted(verify, {signer}, membership, 1, [sigs[1]])
  {
    var sigs := [Envelope(signer, bad), Envelope(signer, good)];
    assert sigs[1].signer == signer && Good(verify, {signer}, membership, sigs[1]);
    assert sigs[0].signer == sigs[1].signer;
    assert Endorsers(verify, {signer}, membership, sigs) == {};
    assert FirstBySigner([sigs[1]], 0) && [sigs[1]][0].signer == signer;
    assert Endorsers(verify, {signer}, membership, [sigs[1]]) == {signer};
  }
}
