/** What each operation of the queue leaves stored for a job, written out, and what follows for the next one. */
module QueueEffects {
  import opened Wrappers
  import opened QueueProtocol
  import opened QueueTheorems
  import opened QueueTrace

  // ---------- One job ----------

  lemma Unrolled(f: JobFiles, ws: seq<Write>)
    ensures ApplyFirst(f, ws, 0) == f
    ensures |ws| >= 1 ==> ApplyFirst(f, ws, 1) == Apply(f, ws[0])
    ensures |ws| >= 2 ==> ApplyFirst(f, ws, 2) == Apply(ApplyFirst(f, ws, 1), ws[1])
    ensures |ws| >= 3 ==> ApplyFirst(f, ws, 3) == Apply(ApplyFirst(f, ws, 2), ws[2])
    ensures |ws| >= 4 ==> ApplyFirst(f, ws, 4) == Apply(ApplyFirst(f, ws, 3), ws[3])
    ensures |ws| >= 5 ==> ApplyFirst(f, ws, 5) == Apply(ApplyFirst(f, ws, 4), ws[4])
  {
  }

  /** `submit`, `checkpoint` and `heartbeat`. */
  lemma SmallEffects(f: JobFiles, at: int, c: JobClaim, job: WorkerJob, sequence: nat, ttl: int)
    ensures Full(f, Submitting(job), at) ==
      if Present(f) then f else f.(queued := map[job.resource := QueuedRecord(job, 0)])
    ensures Full(f, Saving(c, sequence), at) ==
      if Owns(f, at, c) && sequence > StoredSequence(f)
      then f.(checkpoint := Some(CheckpointRecord(sequence, c.owner, c.token))) else f
    ensures Full(f, Beating(c, ttl), at) ==
      if Owns(f, at, c)
      then f.(lease := Some(LeaseRecord(c.owner, c.token, f.lease.value.attempt, at + ttl)),
              heartbeat := Some(HeartbeatRecord(at, c.owner, c.token)))
      else f
  {
    Unrolled(f, Writes(f, at, Submitting(job)));
    Unrolled(f, Writes(f, at, Saving(c, sequence)));
    Unrolled(f, Writes(f, at, Beating(c, ttl)));
    if !Present(f) { assert f.queued == map[]; }
  }

  /** `complete`, `fail` and `block`. */
  lemma FinishEffect(f: JobFiles, at: int, c: JobClaim, status: Terminal)
    requires Owns(f, at, c) && f.running.Some?
    ensures var record := TerminalRecord(c.job, c.attempt);
      var cleared := f.(running := None, lease := None, heartbeat := None);
      Full(f, Finishing(c, status), at) ==
        match status
        case Completed => cleared.(completed := Some(record))
        case Failed => cleared.(failed := Some(record))
        case Blocked => cleared.(blocked := Some(record))
  {
    Unrolled(f, Writes(f, at, Finishing(c, status)));
  }

  /** `claim`: the lease is taken, a leftover is dropped, or an exhausted job fails. */
  lemma ClaimEffect(f: JobFiles, at: int, rc: Resource, owner: string, token: nat, ttl: int)
    requires ttl > 0
    ensures var f' := Full(f, Claiming(rc, owner, token, ttl), at);
      if rc !in f.queued then f' == f
      else
        var QueuedRecord(job, attempt) := f.queued[rc];
        if HasTerminal(f) then f' == f.(queued := f.queued - {rc})
        else if LiveLease(f, at) then f' == f
        else if attempt >= job.maxAttempts
        then f' == f.(failed := Some(TerminalRecord(job, attempt)), queued := f.queued - {rc})
        else f' == f.(queued := f.queued - {rc}, running := Some(RunningRecord(job, attempt, token)),
                      lease := Some(LeaseRecord(owner, token, attempt, at + ttl)),
                      heartbeat := Some(HeartbeatRecord(at, owner, token)))
  {
    Unrolled(f, Writes(f, at, Claiming(rc, owner, token, ttl)));
  }

  /** `reclaim_expired`: a finished job is cleaned up, an unleased one requeued or, out of attempts, failed. */
  lemma ReclaimingEffect(f: JobFiles, at: int)
    ensures var f', cleared := Full(f, Reclaiming, at), f.(running := None, lease := None, heartbeat := None);
      if f.running.None? then f' == f
      else
        var RunningRecord(job, attempt, _) := f.running.value;
        if HasTerminal(f) then f' == cleared
        else if LiveLease(f, at) then f' == f
        else if attempt + 1 < job.maxAttempts
        then f' == cleared.(queued := f.queued[job.resource := QueuedRecord(job, attempt + 1)])
        else f' == cleared.(failed := Some(TerminalRecord(job, attempt + 1)))
  {
    Unrolled(f, Writes(f, at, Reclaiming));
  }

  /** `resume_cleared_blockers`: the blocked record becomes a queued one of the next attempt. */
  lemma ResumingEffect(f: JobFiles, at: int, cleared: bool)
    ensures var f' := Full(f, Resuming(cleared), at);
      if cleared && f.blocked.Some? && f.blocked.value.attempt + 1 < f.blocked.value.job.maxAttempts
      then
        var TerminalRecord(job, attempt) := f.blocked.value;
        f' == f.(queued := f.queued[job.resource := QueuedRecord(job, attempt + 1)], blocked := None)
      else f' == f
  {
    Unrolled(f, Writes(f, at, Resuming(cleared)));
  }

  /**
   A resumed job is not lost: where nothing else has ended it and its lease has run out, the
   next `claim` on its resource hands out the attempt after the blocked one.
   */
  lemma ResumedIsClaimed(s: System, at: int, owner: string, token: nat, ttl: int)
    requires Inv(s) && s.now <= at && token !in s.used && ttl > 0
    requires s.files.blocked.Some? && s.files.blocked.value.attempt + 1 < s.files.blocked.value.job.maxAttempts
    requires s.files.completed.None? && s.files.failed.None? && !LiveLease(s.files, at)
    ensures var resume := Operation(Resuming(true), s.files, at);
      Enabled(s, resume) && var s' := After(s, resume);
      var TerminalRecord(job, attempt) := s.files.blocked.value;
      var claim := Operation(Claiming(job.resource, owner, token, ttl), s'.files, at);
      Enabled(s', claim) && After(s', claim).issued == s.issued + [JobClaim(job, owner, token, attempt + 1)]
  {
    ResumingEffect(s.files, at, true);
    var s' := After(s, Operation(Resuming(true), s.files, at));
    var claim := Operation(Claiming(s.files.blocked.value.job.resource, owner, token, ttl), s'.files, at);
    assert Grants(s'.files, at, claim.action);
  }

  /** What `job_status` answers: the first of completed, failed, blocked, running and queued that there is. */
  lemma StatusExact(f: JobFiles)
    ensures f.completed.Some? ==> JobStatus(f) == IsCompleted
    ensures f.completed.None? && f.failed.Some? ==> JobStatus(f) == IsFailed
    ensures JobStatus(f) == IsBlocked <==> f.blocked.Some? && f.completed.None? && f.failed.None?
    ensures JobStatus(f) == IsRunning <==> f.running.Some? && !HasTerminal(f)
    ensures JobStatus(f) == IsQueued <==> Present(f) && f.running.None? && !HasTerminal(f)
    ensures JobStatus(f) == Unknown <==> !Present(f)
  {
  }

  lemma FreshIsQueued(f: JobFiles, job: WorkerJob)
    requires !Present(f)
    ensures JobStatus(f.(queued := map[job.resource := QueuedRecord(job, 0)])) == IsQueued
  {
    assert job.resource in map[job.resource := QueuedRecord(job, 0)].Keys;
  }

  // ---------- Sweeps over all jobs ----------

  /** The job of a returned claim: why it could be granted, and what is stored now. */
  lemma HandedOutFiles(f: JobFiles, f': JobFiles, h: seq<Event>, h': seq<Event>, rc: Resource, owner: string,
                       token: nat, ttl: int, at: int, c: JobClaim)
    requires HandedOut(f, f', h, h', Claiming(rc, owner, token, ttl), at, c)
    ensures rc in f.queued && f.completed.None? && f.failed.None? && f.blocked.None?
    ensures f.lease.Some? ==> f.lease.value.expires <= at
    ensures !HasTerminal(f) && !LiveLease(f, at)
    ensures forall t :: Owns(f', t, c) <==> t < at + ttl
    ensures var QueuedRecord(job, attempt) := f.queued[rc];
      && attempt < job.maxAttempts && c == JobClaim(job, owner, token, attempt)
      && f' == f.(queued := f.queued - {rc}, running := Some(RunningRecord(job, attempt, token)),
                  lease := Some(LeaseRecord(owner, token, attempt, at + ttl)),
                  heartbeat := Some(HeartbeatRecord(at, owner, token)))
    ensures JobStatus(f') == IsRunning
  {
    ClaimEffect(f, at, rc, owner, token, ttl);
  }

  /** A claim that comes back empty has dropped finished jobs from the queue and failed exhausted ones. */
  lemma EmptyHandedFiles(objects: Objects, objects': Objects, past: Histories, past': Histories, rc: Resource,
                         owner: string, token: nat, ttl: int, at: int)
    requires ttl > 0 && AllHandled(objects, objects', past, past', ClaimSweep(rc, owner, token, ttl), at)
    requires forall i :: !Grants(FilesOf(objects, i), at, On(ClaimSweep(rc, owner, token, ttl), i))
    ensures forall i :: var f := FilesOf(objects, i);
      FilesOf(objects', i) ==
        if rc !in f.queued then f
        else if HasTerminal(f) then f.(queued := f.queued - {rc})
        else if LiveLease(f, at) then f
        else f.(failed := Some(TerminalRecord(f.queued[rc].job, f.queued[rc].attempt)), queued := f.queued - {rc})
    ensures forall i :: var f := FilesOf(objects, i);
      rc in f.queued && !HasTerminal(f) && !LiveLease(f, at) ==> f.queued[rc].attempt >= f.queued[rc].job.maxAttempts
  {
    hide HandedOut, IsHistory, End, Interrupted;
    var sw := ClaimSweep(rc, owner, token, ttl);
    forall i
      ensures var f := FilesOf(objects, i);
        && FilesOf(objects', i) ==
          (if rc !in f.queued then f
           else if HasTerminal(f) then f.(queued := f.queued - {rc})
           else if LiveLease(f, at) then f
           else f.(failed := Some(TerminalRecord(f.queued[rc].job, f.queued[rc].attempt)), queued := f.queued - {rc}))
        && (rc in f.queued && !HasTerminal(f) && !LiveLease(f, at) ==>
              f.queued[rc].attempt >= f.queued[rc].job.maxAttempts)
    {
      ClaimEffect(FilesOf(objects, i), at, rc, owner, token, ttl);
      assert !Grants(FilesOf(objects, i), at, On(sw, i));
      assert Handled(FilesOf(objects, i), FilesOf(objects', i), PastOf(past, i), PastOf(past', i), On(sw, i), at);
    }
  }

  lemma ReclaimedFiles(objects: Objects, objects': Objects, past: Histories, past': Histories, at: int)
    requires AllHandled(objects, objects', past, past', ReclaimSweep, at)
    ensures forall i :: var f := FilesOf(objects, i);
      FilesOf(objects', i) ==
        var cleared := f.(running := None, lease := None, heartbeat := None);
        if f.running.None? then f
        else if HasTerminal(f) then cleared
        else if LiveLease(f, at) then f
        else
          var RunningRecord(job, attempt, _) := f.running.value;
          if attempt + 1 < job.maxAttempts
          then cleared.(queued := f.queued[job.resource := QueuedRecord(job, attempt + 1)])
          else cleared.(failed := Some(TerminalRecord(job, attempt + 1)))
  {
    hide Full, Interrupted;
    forall i
      ensures FilesOf(objects', i) == Full(FilesOf(objects, i), Reclaiming, at)
    {
      assert Handled(FilesOf(objects, i), FilesOf(objects', i), PastOf(past, i), PastOf(past', i), On(ReclaimSweep, i),
                     at);
    }
    forall i { ReclaimingEffect(FilesOf(objects, i), at); }
  }

  lemma ResumedFiles(objects: Objects, objects': Objects, past: Histories, past': Histories, cleared: set<string>,
                     at: int)
    requires AllHandled(objects, objects', past, past', ResumeSweep(cleared), at)
    ensures forall i :: var f := FilesOf(objects, i);
      FilesOf(objects', i) ==
        if i in cleared && f.blocked.Some? && f.blocked.value.attempt + 1 < f.blocked.value.job.maxAttempts
        then
          var TerminalRecord(job, attempt) := f.blocked.value;
          f.(queued := f.queued[job.resource := QueuedRecord(job, attempt + 1)], blocked := None)
        else f
  {
    hide Full, Interrupted;
    forall i
      ensures FilesOf(objects', i) == Full(FilesOf(objects, i), Resuming(i in cleared), at)
    {
      assert Handled(FilesOf(objects, i), FilesOf(objects', i), PastOf(past, i), PastOf(past', i),
                     On(ResumeSweep(cleared), i), at);
    }
    forall i { ResumingEffect(FilesOf(objects, i), at, i in cleared); }
  }
}
