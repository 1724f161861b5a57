// lease/manager.go: fenced leases. A call carries the clock reading it was
// made with; successive readings may go backwards.
module Leases {
  import opened Prelude

  datatype Lease = Lease(resource: string, owner: string, fence: nat, acquired: int, expiresAt: int)
  {
    // !now.Before(l.ExpiresAt)
    predicate Expired(now: int) { !(now < expiresAt) }
  }

  datatype LeaseError = Unnamed | BadTtl | Busy | NotFound | OwnerMismatch | FenceMismatch | LeaseExpired

  datatype Ledger = Ledger(next: nat, leases: map<string, Lease>)

  datatype Call =
    | Acquire(resource: string, owner: string, ttl: int, now: int)
    | Renew(resource: string, owner: string, fence: nat, ttl: int, now: int)
    | Release(resource: string, owner: string, fence: nat)
    | Sweep(now: int)

  // ---------- The calls as functions of the ledger ----------

  function Acquired(s: Ledger, c: Call): Result<Lease, LeaseError>
    requires c.Acquire?
  {
    if c.resource == "" || c.owner == "" then Failure(Unnamed)
    else if c.ttl <= 0 then Failure(BadTtl)
    else if c.resource in s.leases && !s.leases[c.resource].Expired(c.now) then Failure(Busy)
    else Success(Lease(c.resource, c.owner, s.next + 1, c.now, c.now + c.ttl))
  }

  function Renewed(s: Ledger, c: Call): Result<Lease, LeaseError>
    requires c.Renew?
  {
    if c.ttl <= 0 then Failure(BadTtl)
    else if c.resource !in s.leases then Failure(NotFound)
    else
      var current := s.leases[c.resource];
      if current.owner != c.owner then Failure(OwnerMismatch)
      else if current.fence != c.fence then Failure(FenceMismatch)
      else if current.Expired(c.now) then Failure(LeaseExpired)
      else Success(current.(expiresAt := c.now + c.ttl))
  }

  function ReleaseError(s: Ledger, c: Call): Option<LeaseError>
    requires c.Release?
  {
    if c.resource !in s.leases then None
    else if s.leases[c.resource].owner != c.owner then Some(OwnerMismatch)
    else if s.leases[c.resource].fence != c.fence then Some(FenceMismatch)
    else None
  }

  function After(s: Ledger, c: Call): Ledger {
    match c
    case Acquire(r, _, _, _) =>
      var granted := Acquired(s, c);
      if granted.Failure? then s else Ledger(s.next + 1, s.leases[r := granted.value])
    case Renew(r, _, _, _, _) =>
      var renewed := Renewed(s, c);
      if renewed.Success? then s.(leases := s.leases[r := renewed.value])
      else if renewed.error == LeaseExpired then s.(leases := s.leases - {r})
      else s
    case Release(r, _, _) =>
      if ReleaseError(s, c).Some? then s else s.(leases := s.leases - {r})
    case Sweep(now) =>
      s.(leases := map r | r in s.leases && !s.leases[r].Expired(now) :: s.leases[r])
  }

  // ---------- The manager ----------

  class Manager {
    var next: nat
    var leases: map<string, Lease>

    function State(): Ledger
      reads this
    {
      Ledger(next, leases)
    }

    constructor ()
      ensures State() == Ledger(0, map[])
    {
      next, leases := 0, map[];
    }

    method AcquireLease(resource: string, owner: string, ttl: int, now: int) returns (r: Result<Lease, LeaseError>)
      modifies this
      ensures r == Acquired(old(State()), Acquire(resource, owner, ttl, now))
      ensures State() == After(old(State()), Acquire(resource, owner, ttl, now))
      ensures r.Success? <==>
        && resource != "" && owner != "" && ttl > 0
        && (resource in old(leases) ==> old(leases)[resource].expiresAt <= now)
      ensures r.Success? ==>
        && r.value == Lease(resource, owner, old(next) + 1, now, now + ttl)
        && next == r.value.fence && leases == old(leases)[resource := r.value]
      ensures r.Failure? ==> next == old(next) && leases == old(leases)
      ensures r == Failure(Busy) ==> resource in leases && now < leases[resource].expiresAt
    {
      if resource == "" || owner == "" {
        return Failure(Unnamed);
      }
      if ttl <= 0 {
        return Failure(BadTtl);
      }
      if resource in leases && !leases[resource].Expired(now) {
        return Failure(Busy);
      }
      next := next + 1;
      var created := Lease(resource, owner, next, now, now + ttl);
      leases := leases[resource := created];
      return Success(created);
    }

    method RenewLease(resource: string, owner: string, fence: nat, ttl: int, now: int)
      returns (r: Result<Lease, LeaseError>)
      modifies this
      ensures r == Renewed(old(State()), Renew(resource, owner, fence, ttl, now))
      ensures State() == After(old(State()), Renew(resource, owner, fence, ttl, now))
      ensures next == old(next)
      ensures var held := ttl > 0 && resource in old(leases)
          && old(leases)[resource].owner == owner && old(leases)[resource].fence == fence;
        && (r.Success? <==> held && now < old(leases)[resource].expiresAt)
        && (r == Failure(LeaseExpired) <==> held && old(leases)[resource].expiresAt <= now)
      ensures r.Success? ==>
        && r.value == old(leases)[resource].(expiresAt := now + ttl)
        && leases == old(leases)[resource := r.value]
      ensures r.Failure? ==> leases == if r.error == LeaseExpired then old(leases) - {resource} else old(leases)
    {
      if ttl <= 0 {
        return Failure(BadTtl);
      }
      if resource !in leases {
        return Failure(NotFound);
      }
      var current := leases[resource];
      if current.owner != owner {
        return Failure(OwnerMismatch);
      }
      if current.fence != fence {
        return Failure(FenceMismatch);
      }
      if current.Expired(now) {
        leases := leases - {resource};
        return Failure(LeaseExpired);
      }
      current := current.(expiresAt := now + ttl);
      leases := leases[resource := current];
      return Success(current);
    }

    method ReleaseLease(resource: string, owner: string, fence: nat) returns (e: Option<LeaseError>)
      modifies this
      ensures e == ReleaseError(old(State()), Release(resource, owner, fence))
      ensures State() == After(old(State()), Release(resource, owner, fence))
      ensures next == old(next)
      ensures e.None? <==> resource in old(leases) ==>
        old(leases)[resource].owner == owner && old(leases)[resource].fence == fence
      ensures leases == if e.None? then old(leases) - {resource} else old(leases)
    {
      if resource !in leases {
        assert leases - {resource} == leases;
        return None;
      }
      var current := leases[resource];
      if current.owner != owner {
        return Some(OwnerMismatch);
      }
      if current.fence != fence {
        return Some(FenceMismatch);
      }
      leases := leases - {resource};
      return None;
    }

    // The leases taken out are exactly the expired ones, each once.
    method SweepExpired(now: int) returns (removed: seq<Lease>)
      modifies this
      ensures State() == After(old(State()), Sweep(now)) && next == old(next)
      ensures leases == map r | r in old(leases) && now < old(leases)[r].expiresAt :: old(leases)[r]
      ensures |removed| == |set r | r in old(leases) && old(leases)[r].Expired(now)|
      ensures forall l :: l in removed <==> exists r :: r in old(leases) && old(leases)[r] == l && l.Expired(now)
    {
      removed := [];
      var unseen := leases.Keys;
      ghost var before, gone: set<string> := leases, {};
      while unseen != {}
        invariant unseen <= before.Keys && next == old(next)
        invariant leases == map r | r in before && (r in unseen || !before[r].Expired(now)) :: before[r]
        invariant gone == set r | r in before && r !in unseen && before[r].Expired(now)
        invariant |removed| == |gone|
        invariant forall l :: l in removed <==> exists r :: r in gone && before[r] == l
        decreases |unseen|
      {
        var resource :| resource in unseen;
        var current := leases[resource];
        if current.Expired(now) {
          removed := removed + [current];
          leases := leases - {resource};
          gone := gone + {resource};
        }
        unseen := unseen - {resource};
      }
      assert gone == set r | r in before && before[r].Expired(now);
    }
  }

  // ---------- Whole histories ----------

  ghost predicate Sound(s: Ledger) {
    && (forall r :: r in s.leases ==> s.leases[r].resource == r && 1 <= s.leases[r].fence <= s.next)
    && (forall q, r :: q in s.leases && r in s.leases && q != r ==> s.leases[q].fence != s.leases[r].fence)
  }

  ghost predicate IsHistory(calls: seq<Call>, h: seq<Ledger>) {
    && |h| == |calls| + 1 && h[0] == Ledger(0, map[])
    && forall k :: 0 <= k < |calls| ==> h[k + 1] == After(h[k], calls[k])
  }

  lemma CallKeepsSound(s: Ledger, c: Call)
    requires Sound(s)
    ensures Sound(After(s, c)) && s.next <= After(s, c).next
  {
  }

  lemma {:induction false} AlwaysSound(calls: seq<Call>, h: seq<Ledger>, i: nat)
    requires IsHistory(calls, h) && i < |h|
    ensures Sound(h[i])
  {
    if i == 0 {
    } else {
      AlwaysSound(calls, h, i - 1);
      CallKeepsSound(h[i - 1], calls[i - 1]);
    }
  }

  lemma {:induction false} FencesNeverGoBack(calls: seq<Call>, h: seq<Ledger>, i: nat, j: nat)
    requires IsHistory(calls, h) && i <= j < |h|
    ensures h[i].next <= h[j].next
  {
    if i == j {
    } else {
      FencesNeverGoBack(calls, h, i, j - 1);
      assert h[j] == After(h[j - 1], calls[j - 1]);
    }
  }

  // Call k is an Acquire that was granted this lease.
  ghost predicate Grants(calls: seq<Call>, h: seq<Ledger>, k: nat, lease: Lease)
    requires IsHistory(calls, h)
  {
    k < |calls| && calls[k].Acquire? && Acquired(h[k], calls[k]) == Success(lease)
  }

  // Fences are strictly increasing over all resources, so none is ever reused.
  lemma GrantedFencesIncrease(calls: seq<Call>, h: seq<Ledger>, i: nat, j: nat, early: Lease, late: Lease)
    requires IsHistory(calls, h) && i < j && Grants(calls, h, i, early) && Grants(calls, h, j, late)
    ensures early.fence < late.fence
  {
    assert h[i + 1] == After(h[i], calls[i]);
    FencesNeverGoBack(calls, h, i + 1, j);
  }

  // The fence was issued and is not the one stored for the resource.
  ghost predicate Dead(s: Ledger, resource: string, fence: nat) {
    fence <= s.next && (resource in s.leases ==> s.leases[resource].fence != fence)
  }

  lemma DeadStaysDead(s: Ledger, c: Call, resource: string, fence: nat)
    requires Dead(s, resource, fence)
    ensures Dead(After(s, c), resource, fence)
  {
  }

  lemma {:induction false} DeadForGood(
    calls: seq<Call>, h: seq<Ledger>, i: nat, j: nat, resource: string, fence: nat)
    requires IsHistory(calls, h) && i <= j < |h| && Dead(h[i], resource, fence)
    ensures Dead(h[j], resource, fence)
  {
    if i == j {
    } else {
      DeadForGood(calls, h, i, j - 1, resource, fence);
      DeadStaysDead(h[j - 1], calls[j - 1], resource, fence);
    }
  }

  // Renew or Release under a dead fence, by whatever owner, changes nothing.
  lemma DeadFenceIsPowerless(s: Ledger, c: Call)
    requires c.Renew? || c.Release?
    requires Dead(s, c.resource, c.fence)
    ensures After(s, c) == s && (c.Renew? ==> Renewed(s, c).Failure?)
  {
    if c.Renew? && c.resource in s.leases {
      assert Renewed(s, c).error != LeaseExpired;
    }
  }

  // Once a later Acquire of the same resource was granted, every Renew and
  // Release under the earlier fence has no effect, for the rest of the history.
  lemma SupersededHolderIsPowerless(
    calls: seq<Call>, h: seq<Ledger>, i: nat, j: nat, k: nat, early: Lease, late: Lease)
    requires IsHistory(calls, h) && i < j < k < |calls|
    requires Grants(calls, h, i, early) && Grants(calls, h, j, late) && early.resource == late.resource
    requires calls[k].Renew? || calls[k].Release?
    requires calls[k].resource == early.resource && calls[k].fence == early.fence
    ensures h[k + 1] == h[k] && (calls[k].Renew? ==> Renewed(h[k], calls[k]).Failure?)
  {
    GrantedFencesIncrease(calls, h, i, j, early, late);
    assert h[j + 1] == After(h[j], calls[j]);
    DeadForGood(calls, h, j + 1, k, early.resource, early.fence);
    DeadFenceIsPowerless(h[k], calls[k]);
  }

  // ---------- What a holder can rely on ----------

  // The stored lease has not expired at the clock reading of a call that would act on it.
  predicate TimelyFor(held: Lease, c: Call) {
    match c
    case Release(_, _, _) => true
    case Renew(r, owner, fence, ttl, now) =>
      ttl > 0 && r == held.resource && owner == held.owner && fence == held.fence ==> !held.Expired(now)
    case Acquire(r, owner, ttl, now) =>
      r == held.resource && r != "" && owner != "" && ttl > 0 ==> !held.Expired(now)
    case Sweep(now) => !held.Expired(now)
  }

  predicate GivenUpBy(held: Lease, c: Call) {
    c == Release(held.resource, held.owner, held.fence)
  }

  // A stored lease leaves the table in exactly these cases.
  lemma LeaseLostIff(s: Ledger, c: Call, resource: string)
    requires Sound(s) && resource in s.leases
    ensures var held, t := s.leases[resource], After(s, c);
      (resource in t.leases && t.leases[resource].fence == held.fence && t.leases[resource].owner == held.owner)
      <==> TimelyFor(held, c) && !GivenUpBy(held, c)
  {
  }

  // While no clock reading reaches its expiry and it is not given back, a lease
  // stays its holder's: no other owner is granted the resource.
  lemma {:induction false} HolderIsUndisturbed(
    calls: seq<Call>, h: seq<Ledger>, i: nat, j: nat, resource: string)
    requires IsHistory(calls, h) && i <= j < |h| && resource in h[i].leases
    requires forall k :: i <= k < j && resource in h[k].leases ==>
      TimelyFor(h[k].leases[resource], calls[k]) && !GivenUpBy(h[k].leases[resource], calls[k])
    ensures resource in h[j].leases
    ensures h[j].leases[resource].fence == h[i].leases[resource].fence
    ensures h[j].leases[resource].owner == h[i].leases[resource].owner
  {
    if i == j {
    } else {
      HolderIsUndisturbed(calls, h, i, j - 1, resource);
      AlwaysSound(calls, h, j - 1);
      LeaseLostIff(h[j - 1], calls[j - 1], resource);
    }
  }

  // Call k takes the lease out of the table: given back, or found expired.
  ghost predicate EndsAt(calls: seq<Call>, h: seq<Ledger>, k: nat, lease: Lease)
    requires IsHistory(calls, h) && k < |calls|
  {
    var r := lease.resource;
    && r in h[k].leases && h[k].leases[r].fence == lease.fence
    && (GivenUpBy(h[k].leases[r], calls[k]) || !TimelyFor(h[k].leases[r], calls[k]))
  }

  // Two grants of one resource: the earlier lease was given back, or some call
  // in between, or the second Acquire itself, read a clock at or past its expiry.
  lemma RegrantHasReason(calls: seq<Call>, h: seq<Ledger>, i: nat, j: nat, early: Lease, late: Lease)
    requires IsHistory(calls, h) && i < j
    requires Grants(calls, h, i, early) && Grants(calls, h, j, late) && early.resource == late.resource
    ensures exists k :: i < k <= j && EndsAt(calls, h, k, early)
  {
    var r := early.resource;
    assert h[i + 1] == After(h[i], calls[i]);
    var k := LastHeld(calls, h, i + 1, j, r, early.fence);
    AlwaysSound(calls, h, k);
    if k < j {
      LeaseLostIff(h[k], calls[k], r);
    }
    assert EndsAt(calls, h, k, early);
  }

  // The last state up to j in which the fence is still the stored one.
  lemma {:induction false} LastHeld(
    calls: seq<Call>, h: seq<Ledger>, i: nat, j: nat, resource: string, fence: nat) returns (k: nat)
    requires IsHistory(calls, h) && i <= j < |h|
    requires resource in h[i].leases && h[i].leases[resource].fence == fence
    ensures i <= k <= j && resource in h[k].leases && h[k].leases[resource].fence == fence
    ensures k < j ==> !(resource in h[k + 1].leases && h[k + 1].leases[resource].fence == fence)
    decreases j - i
  {
    if i == j || !(resource in h[i + 1].leases && h[i + 1].leases[resource].fence == fence) {
      k := i;
    } else {
      k := LastHeld(calls, h, i + 1, j, resource, fence);
    }
  }
}
