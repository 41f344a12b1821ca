/** What every history of the worker queue satisfies, wherever crashes fall. */
module QueueTheorems {
  import opened Wrappers
  import opened QueueProtocol

  // ---------- Attempts ----------

  lemma {:induction false} IssuedGrows(h: seq<Event>, i: nat)
    requires IsHistory(h) && i <= |h|
    ensures IsHistory(h[..i]) && End(h[..i]).issued <= End(h).issued
  {
    PrefixValid(h, i);
    if i < |h| {
      var p := h[..|h| - 1];
      assert p[..i] == h[..i];
      IssuedGrows(p, i);
    } else {
      assert h[..i] == h;
    }
  }

  lemma {:induction false} IncreasingBelow(issued: seq<JobClaim>, max: nat)
    requires AttemptsIncrease(issued) && forall i | 0 <= i < |issued| :: issued[i].attempt < max
    ensures |issued| <= max
  {
    if issued != [] {
      IncreasingBelow(issued[..|issued| - 1], issued[|issued| - 1].attempt);
    }
  }

  /**
   The claims returned for a job carry strictly increasing attempts below its
   `max_attempts`, so no more than `max_attempts` claims are ever handed out.
   */
  lemma ClaimsAreBounded(h: seq<Event>)
    requires IsHistory(h) && Orderly(h)
    ensures AttemptsIncrease(End(h).issued)
    ensures forall c | c in End(h).issued ::
      End(h).job == Some(c.job) && c.attempt < c.job.maxAttempts && |End(h).issued| <= c.job.maxAttempts
  {
    InvHolds(h);
    var s := End(h);
    if s.job.Some? { IncreasingBelow(s.issued, s.job.value.maxAttempts); }
  }

  lemma Extend(h: seq<Event>, e: Event)
    requires IsHistory(h) && Enabled(End(h), e)
    ensures IsHistory(h + [e]) && End(h + [e]) == After(End(h), e)
  {
    var g := h + [e];
    assert g[..|g| - 1] == h && g[|g| - 1] == e;
  }

  /** What a returned claim leaves behind. */
  lemma GrantEffect(s: System, e: Event)
    requires Enabled(s, e) && e.Act? && e.action.Claiming?
    requires Grants(s.files, e.at, e.action) && e.done == 5 && e.returned
    ensures var f, f', q := s.files, After(s, e).files, s.files.queued[e.action.resource];
      && f'.queued == f.queued - {e.action.resource}
      && f'.running == Some(RunningRecord(q.job, q.attempt, e.action.token))
      && f'.lease == Some(LeaseRecord(e.action.owner, e.action.token, q.attempt, e.at + e.action.ttl))
      && (f'.completed, f'.failed, f'.blocked, f'.checkpoint) == (f.completed, f.failed, f.blocked, f.checkpoint)
      && After(s, e).issued == s.issued + [GrantedClaim(f, e.action)]
  {
    var f, ws := s.files, Writes(s.files, e.at, e.action);
    var f3 := ApplyFirst(f, ws, 3);
    assert ApplyFirst(f, ws, 1) == Apply(f, ws[0]) by { assert ApplyFirst(f, ws, 0) == f; }
    assert f3 == Apply(Apply(Apply(f, ws[0]), ws[1]), ws[2]) by {
      assert ApplyFirst(f, ws, 2) == Apply(ApplyFirst(f, ws, 1), ws[1]);
    }
    assert After(s, e).files == Apply(Apply(f3, ws[3]), ws[4]) by { assert ApplyFirst(f, ws, 4) == Apply(f3, ws[3]); }
  }

  // ---------- Stale listings ----------

  /** `c` are operations of the queue that can follow `h`, and lead to attempts out of order. */
  ghost predicate Disorders(h: seq<Event>, c: seq<Event>) {
    && (forall i | 0 <= i < |c| :: c[i].Act?)
    && IsHistory(h + c) && !AttemptsIncrease(End(h + c).issued)
  }

  /** Once the lease has run out, a claim hands the old attempt out again. */
  lemma StaleRecordDisorders(h: seq<Event>, e: Event) returns (c: seq<Event>)
    requires IsHistory(h) && Inv(End(h)) && OwnRecord(End(h), e) && !Harmless(End(h), e)
    ensures Disorders(h + [e], c)
  {
    var s := End(h);
    Extend(h, e);
    var at := if s.files.lease.Some? && s.files.lease.value.expires > s.now then s.files.lease.value.expires else s.now;
    var token := FreshToken(s.used);
    var claim := Act(Claiming(e.resource, "", token, 1), at, 5, true);
    var s' := After(s, e);
    assert Grants(s'.files, at, claim.action);
    GrantEffect(s', claim);
    Extend(h + [e], claim);
    c := [claim];
    var issued := End(h + [e] + c).issued;
    assert issued == s.issued + [GrantedClaim(s'.files, claim.action)];
    assert issued[|issued| - 2].attempt >= issued[|issued| - 1].attempt;
  }

  lemma {:induction false} FreshToken(used: set<nat>) returns (token: nat)
    ensures forall t | t in used :: t < token
    decreases |used|
  {
    token := 0;
    if used != {} {
      var t :| t in used;
      var below := FreshToken(used - {t});
      assert forall u | u in used :: u == t || u in used - {t};
      token := if t < below then below else t + 1;
    }
  }

  lemma HarmlessStaysOrderly(h: seq<Event>, e: Event, c: seq<Event>)
    requires Orderly(h) && IsHistory(h) && Harmless(End(h), e) && forall i | 0 <= i < |c| :: c[i].Act?
    ensures Orderly(h + [e] + c)
  {
    hide IsHistory, End, Harmless;
    var all := h + [e] + c;
    assert all[|h|] == e && all[..|h|] == h;
    assert forall i | 0 <= i < |c| :: all[|h| + 1 + i] == c[i];
    forall i | 0 <= i < |h| ensures all[i] == h[i] && all[..i] == h[..i] {
    }
    forall i | |h| < i < |all| ensures all[i].Act? {
      assert all[|h| + 1 + (i - |h| - 1)].Act?;
    }
  }

  /**
   Which stale listings harm: an old queued record of the job that reappears can make
   later claims repeat or fall behind an attempt exactly when it is no newer than the
   last claim handed out and the job has no terminal record.
   */
  lemma ReappearanceHarmsIff(h: seq<Event>, e: Event)
    requires IsHistory(h) && Orderly(h) && OwnRecord(End(h), e)
    ensures (exists c :: Disorders(h + [e], c)) <==>
      !HasTerminal(End(h).files) && e.record.attempt <= LastAttempt(End(h).issued)
  {
    InvHolds(h);
    if Harmless(End(h), e) {
      forall c ensures !Disorders(h + [e], c) {
        if Disorders(h + [e], c) {
          HarmlessStaysOrderly(h, e, c);
          InvHolds(h + [e] + c);
          InvOrdersAttempts(End(h + [e] + c));
        }
      }
    } else {
      var c := StaleRecordDisorders(h, e);
    }
  }

  lemma InvOrdersAttempts(s: System)
    requires Inv(s)
    ensures AttemptsIncrease(s.issued)
  {
  }

  // ---------- Fencing ----------

  ghost predicate FenceInv(s: System) {
    && (forall i | 0 <= i < |s.issued| :: s.issued[i].token in s.used)
    && (forall i, j | 0 <= i < j < |s.issued| :: s.issued[i].token != s.issued[j].token)
    && (s.files.lease.Some? ==> s.files.lease.value.token in s.used)
  }

  /** Cutting a write list leaves the old lease, no lease, or one the list puts. */
  lemma {:induction false} LeaseSource(f: JobFiles, ws: seq<Write>, k: nat)
    requires k <= |ws|
    ensures var l := ApplyFirst(f, ws, k).lease;
      l == f.lease || l.None? || exists i :: 0 <= i < k && ws[i].PutLease? && l == Some(ws[i].leaseRecord)
  {
    if k > 0 { LeaseSource(f, ws, k - 1); }
  }

  /** The lease changes hands only by a fresh token; a heartbeat extends only its own live lease. */
  lemma LeaseAfter(s: System, e: Event)
    requires Enabled(s, e)
    ensures var l, l' := s.files.lease, After(s, e).files.lease;
      || l' == l
      || l'.None?
      || (e.Act? && e.action.Claiming? && l'.value.token == e.action.token)
      || (e.Act? && e.action.Beating? && Owns(s.files, e.at, e.action.claim)
          && l'.value.token == l.value.token && l'.value.owner == l.value.owner)
  {
    if e.Act? {
      LeaseSource(s.files, Writes(s.files, e.at, e.action), e.done);
    }
  }

  lemma {:induction false} FenceHolds(h: seq<Event>)
    requires IsHistory(h)
    ensures FenceInv(End(h))
  {
    if h != [] {
      var p, e := h[..|h| - 1], h[|h| - 1];
      FenceHolds(p);
      LeaseAfter(End(p), e);
    }
  }

  /** At any instant at most one returned claim passes `assert_ownership`. */
  lemma AtMostOneOwner(h: seq<Event>, at: int, c: JobClaim, d: JobClaim)
    requires IsHistory(h) && c in End(h).issued && d in End(h).issued
    requires Owns(End(h).files, at, c) && Owns(End(h).files, at, d)
    ensures c == d
  {
    FenceHolds(h);
    var s := End(h);
    var i :| 0 <= i < |s.issued| && s.issued[i] == c;
    var j :| 0 <= j < |s.issued| && s.issued[j] == d;
    assert i == j;
  }

  /** `at` lies after the first `i` events and not after any later operation. */
  ghost predicate Between(h: seq<Event>, i: nat, at: int) {
    forall j | i <= j < |h| && h[j].Act? :: at <= h[j].at
  }

  lemma LostOnce(s: System, e: Event, c: JobClaim, at: int)
    requires FenceInv(s) && Enabled(s, e) && c in s.issued
    requires !Owns(s.files, at, c) && (e.Act? ==> at <= e.at)
    ensures !Owns(After(s, e).files, at, c)
  {
    LeaseAfter(s, e);
    var i :| 0 <= i < |s.issued| && s.issued[i] == c;
  }

  /**
   A returned claim that fails `assert_ownership` at some instant fails it at every
   later one, whatever happens in between, heartbeats included.
   */
  lemma {:induction false} LostForever(h: seq<Event>, i: nat, c: JobClaim, at: int, later: int)
    requires IsHistory(h) && i <= |h| && IsHistory(h[..i]) && c in End(h[..i]).issued
    requires Between(h, i, at) && at <= later
    requires !Owns(End(h[..i]).files, at, c)
    ensures !Owns(End(h).files, later, c)
    decreases |h| - i
  {
    if i < |h| {
      FenceHolds(h[..i]);
      EndStep(h, i);
      LostOnce(End(h[..i]), h[i], c, at);
      LostForever(h, i + 1, c, at, later);
    } else {
      assert h[..i] == h;
    }
  }

  // ---------- Checkpoints ----------

  lemma {:induction false} CheckpointSource(f: JobFiles, ws: seq<Write>, k: nat)
    requires k <= |ws| && forall i | 0 <= i < |ws| :: !ws[i].PutCheckpoint?
    ensures ApplyFirst(f, ws, k).checkpoint == f.checkpoint
  {
    if k > 0 { CheckpointSource(f, ws, k - 1); }
  }

  /** The checkpoint is accepted: it is written. */
  ghost predicate Accepted(s: System, e: Event) {
    && Enabled(s, e) && e.Act? && e.action.Saving? && e.done > 0
  }

  /** Only an accepted checkpoint of the lease owner moves the stored sequence, and it moves it up. */
  lemma CheckpointAfter(s: System, e: Event)
    requires Enabled(s, e)
    ensures Accepted(s, e) ==>
      && Owns(s.files, e.at, e.action.claim)
      && StoredSequence(s.files) < StoredSequence(After(s, e).files) == e.action.sequence
    ensures !Accepted(s, e) ==> After(s, e).files.checkpoint == s.files.checkpoint
  {
    if e.Act? {
      var ws := Writes(s.files, e.at, e.action);
      if e.action.Saving? {
        if e.done > 0 { assert ApplyFirst(s.files, ws, 0) == s.files; }
      } else {
        CheckpointSource(s.files, ws, e.done);
      }
    }
  }

  /** Across owners and crashes, accepted checkpoint sequences strictly increase. */
  lemma {:induction false} AcceptedSequencesIncrease(h: seq<Event>, i: nat, j: nat)
    requires IsHistory(h) && i < j < |h| && IsHistory(h[..i]) && IsHistory(h[..j])
    requires Accepted(End(h[..i]), h[i]) && Accepted(End(h[..j]), h[j])
    ensures h[i].action.sequence < h[j].action.sequence
  {
    EndStep(h, i);
    CheckpointAfter(End(h[..i]), h[i]);
    StoredSequenceGrows(h, i + 1, j);
    CheckpointAfter(End(h[..j]), h[j]);
  }

  lemma {:induction false} StoredSequenceGrows(h: seq<Event>, i: nat, j: nat)
    requires IsHistory(h) && i <= j <= |h| && IsHistory(h[..i]) && IsHistory(h[..j])
    ensures StoredSequence(End(h[..i]).files) <= StoredSequence(End(h[..j]).files)
    decreases j - i
  {
    if i < j {
      EndStep(h, i);
      CheckpointAfter(End(h[..i]), h[i]);
      StoredSequenceGrows(h, i + 1, j);
    }
  }

  /** `c` itself saves no checkpoint from event `i` on. */
  ghost predicate SilentSince(h: seq<Event>, i: nat, c: JobClaim) {
    forall j | i <= j < |h| && h[j].Act? && h[j].action.Saving? :: h[j].action.claim != c
  }

  /**
   While a returned claim still owns its lease nobody else has moved the checkpoint, so
   the next number of the counter a runner loaded after its claim is never refused.
   */
  lemma {:induction false} NextSequenceAccepted(h: seq<Event>, i: nat, c: JobClaim, at: int)
    requires IsHistory(h) && i <= |h| && IsHistory(h[..i]) && c in End(h[..i]).issued
    requires SilentSince(h, i, c) && End(h).now <= at && Owns(End(h).files, at, c)
    ensures StoredSequence(End(h).files) == StoredSequence(End(h[..i]).files)
    ensures var next := StoredSequence(End(h[..i]).files) + 1;
      Writes(End(h).files, at, Saving(c, next)) == [PutCheckpoint(CheckpointRecord(next, c.owner, c.token))]
    decreases |h|
  {
    if i == |h| {
      assert h[..i] == h;
    } else {
      var p, e := h[..|h| - 1], h[|h| - 1];
      assert p[..i] == h[..i];
      var s := End(p);
      IssuedGrows(p, i);
      FenceHolds(p);
      var at' := if e.Act? then e.at else at;
      if !Owns(s.files, at', c) { LostOnce(s, e, c, at'); }
      CheckpointAfter(s, e);
      if Accepted(s, e) { AtMostOneOwner(p, at', c, e.action.claim); }
      NextSequenceAccepted(p, i, c, at');
    }
  }

  // ---------- Terminal records ----------

  lemma {:induction false} TerminalKept(f: JobFiles, ws: seq<Write>, k: nat)
    requires k <= |ws|
    ensures f.completed.Some? ==> ApplyFirst(f, ws, k).completed.Some?
    ensures f.failed.Some? ==> ApplyFirst(f, ws, k).failed.Some?
  {
    if k > 0 { TerminalKept(f, ws, k - 1); }
  }

  /**
   Once a COMPLETED record exists every later state reports COMPLETED, and once a
   COMPLETED or FAILED record exists no later `claim` returns the job - even with leftover
   running, queued or blocked records, and even if a stale listing shows it queued again.
   */
  lemma {:induction false} TerminalForever(h: seq<Event>, i: nat)
    requires IsHistory(h) && i <= |h| && IsHistory(h[..i])
    ensures End(h[..i]).files.completed.Some? ==> JobStatus(End(h).files) == IsCompleted
    ensures End(h[..i]).files.failed.Some? ==> JobStatus(End(h).files) in {IsCompleted, IsFailed}
    ensures End(h[..i]).files.completed.Some? || End(h[..i]).files.failed.Some? ==>
      End(h).issued == End(h[..i]).issued
    decreases |h| - i
  {
    if i < |h| {
      EndStep(h, i);
      var s, e := End(h[..i]), h[i];
      if e.Act? { TerminalKept(s.files, Writes(s.files, e.at, e.action), e.done); }
      TerminalForever(h, i + 1);
    } else {
      assert h[..i] == h;
    }
  }

  // ---------- Conservation ----------

  lemma {:induction false} JobFixed(h: seq<Event>, i: nat)
    requires IsHistory(h) && Orderly(h) && i <= |h| && IsHistory(h[..i]) && End(h[..i]).job.Some?
    ensures End(h).job == End(h[..i]).job
    decreases |h| - i
  {
    if i < |h| {
      EndStep(h, i);
      OrderlyPrefix(h, i);
      InvHolds(h[..i]);
      JobFixed(h, i + 1);
    } else {
      assert h[..i] == h;
    }
  }

  /**
   After `submit` the job is never lost: every later state, inside any operation
   included, holds a queued, running or terminal record of that same job, and the job
   never sits in a queue other than that of its own resource class.
   */
  lemma SubmittedJobConserved(h: seq<Event>, i: nat, job: WorkerJob)
    requires IsHistory(h) && Orderly(h) && i < |h| && IsHistory(h[..i])
    requires h[i].Act? && h[i].action == Submitting(job) && h[i].done > 0
    ensures Present(End(h).files) && RecordsOf(End(h).files, job)
    ensures JobStatus(End(h).files) != Unknown
    ensures End(h).files.queued.Keys <= {job.resource}
    ensures forall at :: Writes(End(h).files, at, Submitting(job)) == []
  {
    EndStep(h, i);
    JobFixed(h, i + 1);
    InvHolds(h);
  }

  function Operation(a: Action, f: JobFiles, at: int): Event {
    Act(a, at, |Writes(f, at, a)|, true)
  }

  /** An uninterrupted `reclaim_expired` on an unleased, unfinished job fails or requeues it. */
  lemma ReclaimEffect(s: System, at: int)
    requires Inv(s) && s.job.Some? && s.now <= at
    requires !HasTerminal(s.files) && !LiveLease(s.files, at)
    ensures var e := Operation(Reclaiming, s.files, at);
      && Enabled(s, e)
      && After(s, e) == s.(files := After(s, e).files, now := at)
      && var f := After(s, e).files;
        && (f.failed.Some? || (s.job.value.resource in f.queued && !HasTerminal(f)))
        && !LiveLease(f, at)
  {
    var ws := Writes(s.files, at, Reclaiming);
    if ws != [] {
      var f1, f3 := ApplyFirst(s.files, ws, 1), ApplyFirst(s.files, ws, 3);
      assert f1 == Apply(s.files, ws[0]) by { assert ApplyFirst(s.files, ws, 0) == s.files; }
      assert f3 == Apply(Apply(f1, ws[1]), ws[2]) by { assert ApplyFirst(s.files, ws, 2) == Apply(f1, ws[1]); }
    } else {
      assert s.files.queued.Keys != {};
      var rc :| rc in s.files.queued.Keys;
      assert rc == s.job.value.resource;
    }
  }

  /**
   No crash strands a job: in every reachable state without a terminal record, once the
   lease has run out an uninterrupted `reclaim_expired` followed by `claim` on its
   resource either hands the job out again or leaves it FAILED.
   */
  lemma NeverStranded(h: seq<Event>, at: int, owner: string, token: nat, ttl: int)
    requires IsHistory(h) && Orderly(h) && End(h).job.Some? && End(h).now <= at
    requires !HasTerminal(End(h).files) && !LiveLease(End(h).files, at)
    requires token !in End(h).used && ttl > 0
    ensures var reclaim := Operation(Reclaiming, End(h).files, at);
      Enabled(End(h), reclaim) && var s := After(End(h), reclaim);
      var claim := Operation(Claiming(s.job.value.resource, owner, token, ttl), s.files, at);
      s.files.failed.Some? || (Enabled(s, claim) && |After(s, claim).issued| == |End(h).issued| + 1)
  {
    InvHolds(h);
    ReclaimEffect(End(h), at);
    var reclaim := Operation(Reclaiming, End(h).files, at);
    var s := After(End(h), reclaim);
    StepKeepsInv(End(h), reclaim);
    if s.files.failed.None? {
      var claim := Operation(Claiming(s.job.value.resource, owner, token, ttl), s.files, at);
      assert Grants(s.files, at, claim.action);
      GrantEffect(s, claim);
    }
  }
}
