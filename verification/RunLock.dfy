/** The run lease: one row per run, whose expiry is compared as text. */
module RunLocks {
  import opened Wrappers
  import opened TextOrder
  import opened IsoTime

  datatype Lease = Lease(token: string, expires: Instant)

  datatype LockError = HeldBy(owner: string) | NotOwner

  /** A request on the lock at some time. */
  datatype Request =
    | Acquiring(token: string, expires: Instant)
    | Renewing(token: string, expires: Instant)
    | Releasing(token: string)

  /** `token` passes `assert_lock_owner` at this time. */
  predicate Live(lease: Option<Lease>, token: string, now: Instant) {
    lease.Some? && lease.value.token == token && Earlier(now, lease.value.expires)
  }

  predicate Expired(lease: Option<Lease>, now: Instant) {
    lease.Some? && !Earlier(now, lease.value.expires)
  }

  /** The lease after a request; requests that raise leave it alone, but an expired one is cleared by `acquire`. */
  function After(lease: Option<Lease>, now: Instant, q: Request): Option<Lease> {
    match q
    case Acquiring(token, expires) =>
      if lease.None? || Expired(lease, now) then Some(Lease(token, expires)) else lease
    case Renewing(token, expires) => if Live(lease, token, now) then Some(Lease(token, expires)) else lease
    case Releasing(token) => if lease.Some? && lease.value.token == token then None else lease
  }

  datatype Timed = Timed(at: Instant, request: Request)

  function End(lease: Option<Lease>, h: seq<Timed>): Option<Lease> {
    if h == [] then lease else After(End(lease, h[..|h| - 1]), h[|h| - 1].at, h[|h| - 1].request)
  }

  /** Time does not run backwards, from `start` through the requests to `now`. */
  ghost predicate Ascending(start: Instant, h: seq<Timed>, now: Instant) {
    && (forall i | 0 <= i < |h| :: !Earlier(h[i].at, start) && !Earlier(now, h[i].at))
    && (forall i, j | 0 <= i < j < |h| :: !Earlier(h[j].at, h[i].at))
  }

  /** At any time at most one token passes. */
  lemma AtMostOneLive(lease: Option<Lease>, now: Instant, a: string, b: string)
    requires Live(lease, a, now) && Live(lease, b, now)
    ensures a == b
  {
  }

  /**
   A token that has lost its lease, or let it expire, never passes again: whatever is
   acquired, renewed or released afterwards, no renewal revives it.
   */
  lemma {:induction false} NeverRevived(lease: Option<Lease>, start: Instant, h: seq<Timed>, now: Instant,
                                        token: string)
    requires !Live(lease, token, start) && Ascending(start, h, now) && !Earlier(now, start)
    requires forall i | 0 <= i < |h| && h[i].request.Acquiring? :: h[i].request.token != token
    ensures !Live(End(lease, h), token, now)
  {
    if h == [] {
      if lease.Some? && Earlier(now, lease.value.expires) {
        LaterStillLive(start, now, lease.value.expires);
      }
    } else {
      var before, last := h[..|h| - 1], h[|h| - 1];
      NeverRevived(lease, start, before, last.at, token);
      var held := End(lease, before);
      if Live(After(held, last.at, last.request), token, now) {
        LaterStillLive(last.at, now, held.value.expires);
      }
    }
  }

  lemma LaterStillLive(a: Instant, b: Instant, expires: Instant)
    requires !Earlier(b, a) && Earlier(b, expires)
    ensures Earlier(a, expires)
  {
    EarlierTotal(a, b);
    if a != b { EarlierTransitive(a, b, expires); }
  }

  /** While a token is live, nobody else's request touches the lease. */
  lemma OthersWait(lease: Option<Lease>, now: Instant, token: string, q: Request)
    requires Live(lease, token, now) && q.token != token
    ensures After(lease, now, q) == lease
  {
  }

  /** The `run_locks` row of one run, with its expiry as text. */
  class RunLock {
    var row: Option<(string, string)>
    ghost var lease: Option<Lease>

    ghost predicate Valid()
      reads this
    {
      && (row.Some? <==> lease.Some?)
      && (row.Some? ==> row.value == (lease.value.token, Iso(lease.value.expires)) && ValidInstant(lease.value.expires))
    }

    constructor ()
      ensures Valid() && lease == None
    {
      row, lease := None, None;
    }

    method Acquire(token: string, now: Instant, expires: Instant) returns (r: Result<(), LockError>)
      requires Valid() && ValidInstant(now) && ValidInstant(expires)
      modifies this
      ensures Valid() && lease == After(old(lease), now, Acquiring(token, expires))
      ensures r.Ok? <==> old(lease).None? || !Earlier(now, old(lease).value.expires)
      ensures r.Ok? ==> lease == Some(Lease(token, expires))
      ensures r.Ok? ==> forall t :: Live(lease, token, t) <==> Earlier(t, expires)
      ensures r.Err? ==> lease == old(lease)
      ensures r.Err? ==> r.error == HeldBy(old(lease).value.token)
    {
      if row.Some? {
        IsoOrder(now, lease.value.expires);
        EarlierTotal(now, lease.value.expires);
        IsoOrder(lease.value.expires, now);
        if row.value.1 == Iso(now) || Less(row.value.1, Iso(now)) {
          row, lease := None, None;
        }
      }
      if row.Some? {
        return Err(HeldBy(row.value.0));
      }
      row, lease := Some((token, Iso(expires))), Some(Lease(token, expires));
      return Ok(());
    }

    /** It extends a live lease only. */
    method Renew(token: string, now: Instant, expires: Instant) returns (r: Result<(), LockError>)
      requires Valid() && ValidInstant(now) && ValidInstant(expires)
      modifies this
      ensures Valid() && lease == After(old(lease), now, Renewing(token, expires))
      ensures r.Ok? <==>
        old(lease).Some? && old(lease).value.token == token && Earlier(now, old(lease).value.expires)
      ensures r.Ok? ==> lease == Some(Lease(token, expires))
      ensures r.Ok? ==> forall t :: Live(lease, token, t) <==> Earlier(t, expires)
      ensures r.Err? ==> r.error == NotOwner && lease == old(lease)
    {
      if row.Some? {
        IsoOrder(now, lease.value.expires);
      }
      if row.None? || row.value.0 != token || !Less(Iso(now), row.value.1) {
        return Err(NotOwner);
      }
      row, lease := Some((token, Iso(expires))), Some(Lease(token, expires));
      return Ok(());
    }

    method AssertOwner(token: string, now: Instant) returns (r: Result<(), LockError>)
      requires Valid() && ValidInstant(now)
      ensures r.Ok? <==> lease.Some? && lease.value.token == token && Earlier(now, lease.value.expires)
      ensures r.Err? ==> r.error == NotOwner
    {
      if row.Some? {
        IsoOrder(now, lease.value.expires);
      }
      return if row.Some? && row.value.0 == token && Less(Iso(now), row.value.1) then Ok(()) else Err(NotOwner);
    }

    method Release(token: string) returns (r: Result<(), LockError>)
      requires Valid()
      modifies this
      ensures Valid() && lease == After(old(lease), ANY_TIME, Releasing(token))
      ensures r == if old(lease).Some? && old(lease).value.token == token then Ok(()) else Err(NotOwner)
      ensures lease == if r.Ok? then None else old(lease)
    {
      if row.None? || row.value.0 != token {
        return Err(NotOwner);
      }
      row, lease := None, None;
      return Ok(());
    }
  }

  /** A release does not look at the clock. */
  const ANY_TIME := Instant(1, 1, 1, 0, 0, 0, 0)
}
