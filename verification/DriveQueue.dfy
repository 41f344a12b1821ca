/**
 `DriveQueue` as it mutates its backend: one put or delete after another, any of which may
 raise before or after taking effect.  The ghost `past` keeps each job's events; `Valid`
 says that the stored objects are the ones those histories lead to, so what is proved of
 histories holds of this class after every call, whether it returned or was interrupted.
 */
module DriveQueues {
  import opened Wrappers
  import opened QueueProtocol
  import opened QueueTheorems
  import opened QueueTrace
  import opened QueueEffects

  datatype QueueError =
    | InvalidTtl | AlreadyExists | LostLease | NotRunning | WrongJob | StaleSequence | StorageFault

  /** What the storage service does to one write. */
  datatype Fault = Fine | RaisesBefore | RaisesAfter

  /** Nothing is going to fail. */
  ghost predicate Healthy(faults: seq<Fault>) {
    forall fault | fault in faults :: fault == Fine
  }

  lemma TailHealthy(faults: seq<Fault>)
    ensures Healthy(faults) && faults != [] ==> faults[0] == Fine && Healthy(faults[1..])
  {
    if faults != [] {
      assert faults[0] in faults;
      assert forall fault | fault in faults[1..] :: fault in faults;
    }
  }

  // ---------- The write lists, case by case ----------

  lemma FinishLists(f: JobFiles, at: int, c: JobClaim, status: Terminal)
    requires Owns(f, at, c) && f.running.Some?
    ensures Writes(f, at, Finishing(c, status))
      == [PutTerminal(status, TerminalRecord(c.job, c.attempt)), DeleteRunning, DeleteLease, DeleteHeartbeat]
  {
  }

  /** One-write operations. */
  lemma SingleLists(f: JobFiles, at: int, c: JobClaim, job: WorkerJob, sequence: nat)
    ensures !Present(f) ==> Writes(f, at, Submitting(job)) == [PutQueued(job.resource, QueuedRecord(job, 0))]
    ensures Owns(f, at, c) && sequence > StoredSequence(f) ==>
      Writes(f, at, Saving(c, sequence)) == [PutCheckpoint(CheckpointRecord(sequence, c.owner, c.token))]
  {
  }

  /** The granting list of `claim`, and the lease while it is being written. */
  lemma GrantLists(f: JobFiles, at: int, a: Action)
    requires a.Claiming? && Grants(f, at, a)
    ensures var q, ws := f.queued[a.resource], Writes(f, at, a);
      var lease := LeaseRecord(a.owner, a.token, q.attempt, at + a.ttl);
      && |ws| == 5 && ws[0] == PutLease(lease) && ws[2] == DeleteQueued(a.resource)
      && ws[1] == PutRunning(RunningRecord(q.job, q.attempt, a.token))
      && ws[3..] == BeatWrites(lease, at, a.ttl)
      && Apply(f, ws[0]).lease == Some(lease)
      && Apply(Apply(Apply(f, ws[0]), ws[1]), ws[2]).lease == Some(lease)
      && GrantedClaim(f, a) == JobClaim(q.job, a.owner, a.token, q.attempt)
  {
  }

  /** The lists of `claim` where it does not grant. */
  lemma RefusalLists(f: JobFiles, at: int, a: Action)
    requires a.Claiming? && a.ttl > 0 && a.resource in f.queued
    ensures var q, ws := f.queued[a.resource], Writes(f, at, a);
      && (Grants(f, at, a) <==> !HasTerminal(f) && !LiveLease(f, at) && q.attempt < q.job.maxAttempts)
      && (HasTerminal(f) ==> ws == [DeleteQueued(a.resource)])
      && (!HasTerminal(f) && LiveLease(f, at) ==> ws == [])
      && (!HasTerminal(f) && !LiveLease(f, at) && q.attempt >= q.job.maxAttempts ==>
            ws == [PutTerminal(Failed, TerminalRecord(q.job, q.attempt)), DeleteQueued(a.resource)])
  {
  }

  /** `reclaim_expired` puts the job back into its queue. */
  predicate Requeues(f: JobFiles, at: int) {
    && f.running.Some? && !HasTerminal(f) && !LiveLease(f, at)
    && f.running.value.attempt + 1 < f.running.value.job.maxAttempts
  }

  /** `resume_cleared_blockers` puts the job back into its queue. */
  predicate Unblocks(f: JobFiles, cleared: bool) {
    f.blocked.Some? && cleared && f.blocked.value.attempt + 1 < f.blocked.value.job.maxAttempts
  }

  lemma RequeuesIff(objects: Objects, at: int)
    ensures forall i :: var f := FilesOf(objects, i);
      Requeues(f, at) <==>
        f.running.Some? && !HasTerminal(f) && !LiveLease(f, at)
        && f.running.value.attempt + 1 < f.running.value.job.maxAttempts
  {
  }

  lemma UnblocksIff(objects: Objects, cleared: set<string>)
    ensures forall i :: var f := FilesOf(objects, i);
      Unblocks(f, i in cleared) <==>
        i in cleared && f.blocked.Some? && f.blocked.value.attempt + 1 < f.blocked.value.job.maxAttempts
  {
  }

  lemma RecoveryLists(f: JobFiles, at: int)
    requires f.running.Some?
    ensures var stale, ws := [DeleteRunning, DeleteLease, DeleteHeartbeat], Writes(f, at, Reclaiming);
      var job, next := f.running.value.job, f.running.value.attempt + 1;
      && (HasTerminal(f) ==> ws == stale)
      && (!HasTerminal(f) && LiveLease(f, at) ==> ws == [])
      && (!HasTerminal(f) && !LiveLease(f, at) ==> |ws| == 4 && ws[1..] == stale)
      && (Requeues(f, at) ==> ws[0] == PutQueued(job.resource, QueuedRecord(job, next)))
      && (!HasTerminal(f) && !LiveLease(f, at) && !Requeues(f, at) ==>
            ws[0] == PutTerminal(Failed, TerminalRecord(job, next)))
  {
  }

  lemma ResumeLists(f: JobFiles, at: int, cleared: bool)
    ensures Writes(f, at, Resuming(cleared)) ==
      if cleared && f.blocked.Some? && f.blocked.value.attempt + 1 < f.blocked.value.job.maxAttempts
      then
        var TerminalRecord(job, attempt) := f.blocked.value;
        [PutQueued(job.resource, QueuedRecord(job, attempt + 1)), DeleteBlocked]
      else []
  {
  }

  /** A queued record carries the job its key names. */
  lemma QueuedNamed(objects: Objects, past: Histories, now: int, tokens: set<nat>, id: string, rc: Resource)
    requires Coherent(objects, past, now, tokens) && rc in FilesOf(objects, id).queued
    ensures FilesOf(objects, id).queued[rc].job.id == id
  {
    assert Recorded(id, FilesOf(objects, id), PastOf(past, id), now, tokens);
    InvHolds(PastOf(past, id));
  }

  // ---------- What a listing leaves out ----------

  lemma LeftUnqueued(objects: Objects, rc: Resource, owner: string, token: nat, ttl: int, at: int, keys: seq<string>)
    requires forall i :: i in keys <==> i in objects && rc in objects[i].queued
    ensures forall i | i !in keys ::
      Writes(FilesOf(objects, i), at, On(ClaimSweep(rc, owner, token, ttl), i)) == []
    ensures forall i | i !in keys ::
      !Grants(FilesOf(objects, i), at, On(ClaimSweep(rc, owner, token, ttl), i))
    ensures forall i | i in keys :: rc in FilesOf(objects, i).queued
  {
  }

  lemma LeftIdle(objects: Objects, at: int, keys: seq<string>)
    requires forall i :: i in keys <==> i in objects && objects[i].running.Some?
    ensures forall i | i !in keys :: Writes(FilesOf(objects, i), at, On(ReclaimSweep, i)) == []
    ensures forall i | i !in keys :: !Requeues(FilesOf(objects, i), at)
    ensures forall i | i in keys :: FilesOf(objects, i).running.Some?
  {
  }

  lemma LeftUnblocked(objects: Objects, cleared: set<string>, at: int, keys: seq<string>)
    requires forall i :: i in keys <==> i in objects && objects[i].blocked.Some?
    ensures forall i | i !in keys :: Writes(FilesOf(objects, i), at, On(ResumeSweep(cleared), i)) == []
    ensures forall i | i !in keys :: !Unblocks(FilesOf(objects, i), i in cleared)
    ensures forall i | i in keys :: FilesOf(objects, i).blocked.Some?
  {
  }

  class DriveQueue {
    /** The backend's objects, grouped by the job their key names. */
    var objects: Objects
    /** What the storage service is going to do; beyond the end it works. */
    var faults: seq<Fault>

    ghost var past: Histories
    ghost var now: int
    ghost var tokens: set<nat>

    function Files(id: string): JobFiles
      reads this
    {
      FilesOf(objects, id)
    }

    ghost function Past(id: string): seq<Event>
      reads this
    {
      PastOf(past, id)
    }

    ghost predicate Valid()
      reads this
    {
      Coherent(objects, past, now, tokens)
    }

    ghost predicate InOperation(op: Op, done: nat)
      reads this
    {
      Midway(objects, past, now, tokens, op, done)
    }

    /** The claim was returned by `Claim`. */
    ghost predicate Issued(c: JobClaim)
      reads this
    {
      IsHistory(Past(c.job.id)) && c in End(Past(c.job.id)).issued
    }

    constructor ()
      ensures Valid() && objects == map[] && past == map[] && now == 0 && tokens == {}
    {
      objects, faults, past, now, tokens := map[], [], map[], 0, {};
    }

    /** An operation on job `id` begins. */
    ghost method Begin(id: string, a: Action, at: int) returns (op: Op)
      requires Valid() && now <= at && IsHistory(Past(id))
      requires a.Submitting? ==> a.job.id == id
      requires a.Claiming? ==> a.token in tokens && a.token !in End(Past(id)).used
      requires a.Beating? || a.Saving? || a.Finishing? ==> a.claim in End(Past(id)).issued
      modifies this`now
      ensures now == at && Valid() && InOperation(op, 0)
      ensures op == Op(id, a, Files(id), Writes(Files(id), at, a))
      ensures Interrupted(Past(id), Past(id), a, at)
      ensures op.writes == [] ==> Handled(Files(id), Files(id), Past(id), Past(id), a, at)
    {
      TickKeeps(objects, past, now, at, tokens, tokens);
      now := at;
      BeginMidway(objects, past, now, tokens, id, a);
      op := Op(id, a, Files(id), Writes(Files(id), at, a));
      if op.writes == [] { NothingToDo(Files(id), Past(id), a, at); }
    }

    /** The operation dies here: what it has written so far goes into the history. */
    ghost method Abort(op: Op, done: nat)
      requires InOperation(op, done)
      modifies this`past
      ensures Valid() && Interrupted(old(Past(op.id)), Past(op.id), op.action, now)
      ensures Elsewhere(op.id, objects, objects, old(past), past)
    {
      AbortKeeps(objects, past, now, tokens, op, done);
      past := Logged(past, op, now, done, false);
    }

    /** The operation has made all its writes. */
    ghost method Conclude(op: Op)
      requires InOperation(op, |op.writes|)
      modifies this`past
      ensures Valid() && Elsewhere(op.id, objects, objects, old(past), past)
      ensures Completes(op, Files(op.id), old(Past(op.id)), Past(op.id), now)
    {
      ConcludeKeeps(objects, past, now, tokens, op);
      past := Logged(past, op, now, |op.writes|, true);
    }

    /** One put or delete, the next one of the operation. */
    method Do(id: string, w: Write, ghost op: Op, ghost done: nat) returns (r: Result<(), QueueError>)
      requires op.id == id && InOperation(op, done) && done < |op.writes| && op.writes[done] == w
      modifies this`objects, this`faults, this`past
      ensures r.Ok? ==> InOperation(op, done + 1) && past == old(past)
      ensures r.Ok? ==> objects == old(objects)[id := Apply(old(Files(id)), w)]
      ensures r.Err? ==> Valid() && r.error == StorageFault
      ensures Healthy(old(faults)) ==> Healthy(faults) && r.Ok?
      ensures r.Err? ==> Interrupted(old(Past(id)), Past(id), op.action, now)
      ensures Elsewhere(id, old(objects), objects, old(past), past)
    {
      hide Apply, Writes, Midway, Coherent, Interrupted;
      TailHealthy(faults);
      var fault := if faults == [] then Fine else faults[0];
      faults := if faults == [] then [] else faults[1..];
      if fault != RaisesBefore {
        WriteMidway(objects, past, now, tokens, op, done);
        objects := objects[id := Apply(Files(id), w)];
      }
      if fault != Fine {
        Abort(op, if fault == RaisesBefore then done else done + 1);
        return Err(StorageFault);
      }
      return Ok(());
    }

    /** A put beside the jobs, of which only its failure matters: a worker's registration. */
    method Register() returns (r: Result<(), QueueError>)
      modifies this`faults
      ensures r.Ok? || r.error == StorageFault
      ensures Healthy(old(faults)) ==> Healthy(faults) && r.Ok?
    {
      TailHealthy(faults);
      var fault := if faults == [] then Fine else faults[0];
      faults := if faults == [] then [] else faults[1..];
      return if fault == Fine then Ok(()) else Err(StorageFault);
    }

    // ---------- Operations of one job ----------

    method Submit(job: WorkerJob, at: int) returns (r: Result<(), QueueError>)
      requires Valid() && now <= at
      modifies this
      ensures Valid() && now == at && tokens == old(tokens)
      ensures r == Err(AlreadyExists) <==> Present(old(Files(job.id)))
      ensures r == Err(AlreadyExists) ==> objects == old(objects) && past == old(past)
      ensures r.Ok? || r.error in {AlreadyExists, StorageFault}
      ensures Healthy(old(faults)) ==> Healthy(faults) && r != Err(StorageFault)
      ensures r.Ok? ==> Files(job.id) == old(Files(job.id)).(queued := map[job.resource := QueuedRecord(job, 0)])
      ensures r.Ok? ==> JobStatus(Files(job.id)) == IsQueued
      ensures Interrupted(old(Past(job.id)), Past(job.id), Submitting(job), at)
      ensures Elsewhere(job.id, old(objects), objects, old(past), past)
    {
      SingleLists(Files(job.id), at, JobClaim(job, "", 0, 0), job, 0);
      assert Recorded(job.id, Files(job.id), Past(job.id), now, tokens);
      ghost var op := Begin(job.id, Submitting(job), at);
      if Present(Files(job.id)) {
        return Err(AlreadyExists);
      }
      SmallEffects(Files(job.id), at, JobClaim(job, "", 0, 0), job, 0, 0);
      FreshIsQueued(Files(job.id), job);
      hide Apply, Writes, Midway, Coherent, Full, Elsewhere, JobStatus;
      var _ :- Do(job.id, PutQueued(job.resource, QueuedRecord(job, 0)), op, 0);
      Conclude(op);
      return Ok(());
    }

    /** The heartbeat's two puts, as the last writes of an operation. */
    method ExtendLease(c: JobClaim, ttl: int, at: int, ghost op: Op, ghost done: nat)
      returns (r: Result<(), QueueError>)
      requires at == now && op.id == c.job.id && InOperation(op, done) && Owns(Files(c.job.id), at, c)
      requires |op.writes| == done + 2 && op.writes[done..] == BeatWrites(Files(c.job.id).lease.value, at, ttl)
      modifies this`objects, this`faults, this`past
      ensures r.Ok? ==> InOperation(op, done + 2) && past == old(past)
      ensures r.Err? ==> Valid() && r.error == StorageFault
      ensures Healthy(old(faults)) ==> Healthy(faults) && r.Ok?
      ensures r.Err? ==> Interrupted(old(Past(c.job.id)), Past(c.job.id), op.action, now)
      ensures Elsewhere(c.job.id, old(objects), objects, old(past), past)
    {
      hide Apply, Writes, Midway, Coherent;
      var lease := Files(c.job.id).lease.value;
      assert op.writes[done] == op.writes[done..][0] && op.writes[done + 1] == op.writes[done..][1];
      var _ :- Do(c.job.id, PutLease(lease.(expires := at + ttl)), op, done);
      var _ :- Do(c.job.id, PutHeartbeat(HeartbeatRecord(at, c.owner, c.token)), op, done + 1);
      return Ok(());
    }

    method Heartbeat(c: JobClaim, ttl: int, at: int) returns (r: Result<(), QueueError>)
      requires Valid() && now <= at && Issued(c)
      modifies this
      ensures Valid() && now == at && tokens == old(tokens)
      ensures r == Err(LostLease) <==> !Owns(old(Files(c.job.id)), at, c)
      ensures r == Err(LostLease) ==> objects == old(objects) && past == old(past)
      ensures r.Ok? || r.error in {LostLease, StorageFault}
      ensures Healthy(old(faults)) ==> Healthy(faults) && r != Err(StorageFault)
      ensures r.Ok? ==>
        var lease := LeaseRecord(c.owner, c.token, old(Files(c.job.id)).lease.value.attempt, at + ttl);
        Files(c.job.id) ==
          old(Files(c.job.id)).(lease := Some(lease), heartbeat := Some(HeartbeatRecord(at, c.owner, c.token)))
      ensures r.Ok? ==> forall t :: Owns(Files(c.job.id), t, c) <==> t < at + ttl
      ensures Interrupted(old(Past(c.job.id)), Past(c.job.id), Beating(c, ttl), at)
      ensures Elsewhere(c.job.id, old(objects), objects, old(past), past)
    {
      ghost var op := Begin(c.job.id, Beating(c, ttl), at);
      if !Owns(Files(c.job.id), at, c) {
        return Err(LostLease);
      }
      assert op.writes == BeatWrites(Files(c.job.id).lease.value, at, ttl);
      SmallEffects(Files(c.job.id), at, c, c.job, 0, ttl);
      hide Apply, Writes, Midway, Coherent, Full;
      var _ :- ExtendLease(c, ttl, at, op, 0);
      Conclude(op);
      return Ok(());
    }

    method Checkpoint(c: JobClaim, jobId: string, sequence: nat, at: int) returns (r: Result<(), QueueError>)
      requires Valid() && now <= at && Issued(c)
      modifies this
      ensures Valid() && now == at && tokens == old(tokens)
      ensures r == Err(LostLease) <==> !Owns(old(Files(c.job.id)), at, c)
      ensures r == Err(WrongJob) <==> Owns(old(Files(c.job.id)), at, c) && jobId != c.job.id
      ensures r == Err(StaleSequence) <==>
        Owns(old(Files(c.job.id)), at, c) && jobId == c.job.id
        && old(Files(c.job.id)).checkpoint.Some? && sequence <= old(Files(c.job.id)).checkpoint.value.sequence
      ensures r.Err? && r.error != StorageFault ==> objects == old(objects) && past == old(past)
      ensures r.Ok? || r.error in {LostLease, WrongJob, StaleSequence, StorageFault}
      ensures Healthy(old(faults)) ==> Healthy(faults) && r != Err(StorageFault)
      ensures r.Ok? ==>
        Files(c.job.id) == old(Files(c.job.id)).(checkpoint := Some(CheckpointRecord(sequence, c.owner, c.token)))
      ensures Interrupted(old(Past(c.job.id)), Past(c.job.id), Saving(c, sequence), at)
      ensures Elsewhere(c.job.id, old(objects), objects, old(past), past)
    {
      hide End, IsHistory, Interrupted, Extended, Healthy, Coherent, Midway;
      ghost var op := Begin(c.job.id, Saving(c, sequence), at);
      if !Owns(Files(c.job.id), at, c) {
        return Err(LostLease);
      }
      if jobId != c.job.id {
        return Err(WrongJob);
      }
      if sequence <= StoredSequence(Files(c.job.id)) {
        return Err(StaleSequence);
      }
      SingleLists(Files(c.job.id), at, c, c.job, sequence);
      SmallEffects(Files(c.job.id), at, c, c.job, sequence, 0);
      hide Apply, Writes, Midway, Coherent, Full;
      var _ :- Do(c.job.id, PutCheckpoint(CheckpointRecord(sequence, c.owner, c.token)), op, 0);
      Conclude(op);
      return Ok(());
    }

    /** The loop that deletes the running, lease and heartbeat objects, an operation's last writes. */
    method DeleteStale(id: string, ghost op: Op, ghost done: nat) returns (r: Result<(), QueueError>)
      requires op.id == id && InOperation(op, done)
      requires |op.writes| == done + 3 && op.writes[done..] == [DeleteRunning, DeleteLease, DeleteHeartbeat]
      modifies this`objects, this`faults, this`past
      ensures r.Ok? ==> InOperation(op, done + 3) && past == old(past)
      ensures r.Err? ==> Valid() && r.error == StorageFault
      ensures Healthy(old(faults)) ==> Healthy(faults) && r.Ok?
      ensures r.Err? ==> Interrupted(old(Past(id)), Past(id), op.action, now)
      ensures Elsewhere(id, old(objects), objects, old(past), past)
    {
      hide Apply, Writes, Midway, Coherent;
      assert op.writes[done] == op.writes[done..][0];
      assert op.writes[done + 1] == op.writes[done..][1] && op.writes[done + 2] == op.writes[done..][2];
      var _ :- Do(id, DeleteRunning, op, done);
      var _ :- Do(id, DeleteLease, op, done + 1);
      var _ :- Do(id, DeleteHeartbeat, op, done + 2);
      return Ok(());
    }

    /** `complete`, `fail` and `block`: publish the terminal record, then clean up. */
    method Finish(c: JobClaim, status: Terminal, at: int) returns (r: Result<(), QueueError>)
      requires Valid() && now <= at && Issued(c)
      modifies this
      ensures Valid() && now == at && tokens == old(tokens)
      ensures r == Err(LostLease) <==> !Owns(old(Files(c.job.id)), at, c)
      ensures r == Err(NotRunning) <==> Owns(old(Files(c.job.id)), at, c) && old(Files(c.job.id)).running.None?
      ensures r.Err? && r.error != StorageFault ==> objects == old(objects) && past == old(past)
      ensures r.Ok? || r.error in {LostLease, NotRunning, StorageFault}
      ensures Healthy(old(faults)) ==> Healthy(faults) && r != Err(StorageFault)
      ensures r.Ok? ==>
        var record := TerminalRecord(c.job, c.attempt);
        var cleared := old(Files(c.job.id)).(running := None, lease := None, heartbeat := None);
        Files(c.job.id) ==
          match status
          case Completed => cleared.(completed := Some(record))
          case Failed => cleared.(failed := Some(record))
          case Blocked => cleared.(blocked := Some(record))
      ensures Interrupted(old(Past(c.job.id)), Past(c.job.id), Finishing(c, status), at)
      ensures Elsewhere(c.job.id, old(objects), objects, old(past), past)
    {
      hide Apply, Writes, Midway, Coherent, Full, Interrupted, Extended, Healthy;
      ghost var op := Begin(c.job.id, Finishing(c, status), at);
      if !Owns(Files(c.job.id), at, c) {
        return Err(LostLease);
      }
      if Files(c.job.id).running.None? {
        return Err(NotRunning);
      }
      FinishLists(Files(c.job.id), at, c, status);
      FinishEffect(Files(c.job.id), at, c, status);
      var _ :- Do(c.job.id, PutTerminal(status, TerminalRecord(c.job, c.attempt)), op, 0);
      var _ :- DeleteStale(c.job.id, op, 1);
      Conclude(op);
      return Ok(());
    }

    // ---------- Operations that list jobs ----------

    /** The ids with a key under a prefix, in some order. */
    static method Listing(ids: set<string>) returns (keys: seq<string>)
      ensures forall id :: id in keys <==> id in ids
      ensures forall i, j | 0 <= i < j < |keys| :: keys[i] != keys[j]
    {
      keys := [];
      var rest := ids;
      while rest != {}
        invariant rest <= ids
        invariant forall id :: id in keys <==> id in ids - rest
        invariant forall i, j | 0 <= i < j < |keys| :: keys[i] != keys[j]
      {
        var id :| id in rest;
        rest := rest - {id};
        assert id !in keys;
        keys := keys + [id];
      }
    }

    /** `claim` from the lease on: nothing can refuse the job any more. */
    method Grant(id: string, rc: Resource, owner: string, token: nat, ttl: int, at: int, ghost op: Op)
      returns (r: Result<JobClaim, QueueError>)
      requires at == now && op.id == id && op.before == Files(id) && InOperation(op, 0)
      requires op.action == Claiming(rc, owner, token, ttl) && op.writes == Writes(Files(id), at, op.action)
      requires ttl > 0 && rc in Files(id).queued && Files(id).queued[rc].job.id == id
              && Grants(Files(id), at, op.action)
      modifies this`objects, this`faults, this`past
      ensures Valid() && Elsewhere(id, old(objects), objects, old(past), past)
      ensures r.Ok? ==>
        HandedOut(old(Files(id)), Files(id), old(Past(id)), Past(id), op.action, at, r.value) && r.value.job.id == id
      ensures Healthy(old(faults)) ==> Healthy(faults) && r.Ok?
      ensures r.Err? ==> r.error == StorageFault && Interrupted(old(Past(id)), Past(id), op.action, at)
    {
      hide Apply, Writes, BeatWrites, Midway, Coherent, Full, End, IsHistory, Interrupted, Extended, Handled, HandedOut;
      hide Grants, GrantedClaim;
      var q := Files(id).queued[rc];
      var lease := LeaseRecord(owner, token, q.attempt, at + ttl);
      var claim := JobClaim(q.job, owner, token, q.attempt);
      GrantLists(Files(id), at, op.action);
      var _ :- Do(id, PutLease(lease), op, 0);
      assert Owns(Files(id), at, claim);  // the read-back confirmation never fails under the lock
      var _ :- Do(id, PutRunning(RunningRecord(q.job, q.attempt, token)), op, 1);
      var _ :- Do(id, DeleteQueued(rc), op, 2);
      var _ :- ExtendLease(claim, ttl, at, op, 3);
      Conclude(op);
      return Ok(claim);
    }

    /** The body of `claim`'s loop. */
    method TryClaim(id: string, rc: Resource, owner: string, token: nat, ttl: int, at: int)
      returns (r: Result<Option<JobClaim>, QueueError>)
      requires Valid() && at == now && ttl > 0 && rc in Files(id).queued
      requires token in tokens && IsHistory(Past(id)) && token !in End(Past(id)).used
      modifies this
      ensures Valid() && now == at && tokens == old(tokens)
      ensures Elsewhere(id, old(objects), objects, old(past), past)
      ensures var a, f := Claiming(rc, owner, token, ttl), old(Files(id));
        && (r == Ok(None) ==> !Grants(f, at, a) && Handled(f, Files(id), old(Past(id)), Past(id), a, at))
        && (r.Ok? && r.value.Some? ==> HandedOut(f, Files(id), old(Past(id)), Past(id), a, at, r.value.value))
        && (r.Ok? && r.value.Some? ==> r.value.value.job.id == id)
        && (r.Err? ==> r.error == StorageFault && Interrupted(old(Past(id)), Past(id), a, at))
      ensures Healthy(old(faults)) ==> Healthy(faults) && r.Ok?
    {
      hide Apply, Writes, Midway, Coherent, Full, End, IsHistory, Interrupted, Extended, Handled, HandedOut, Grants;
      QueuedNamed(objects, past, now, tokens, id, rc);
      var f := Files(id);
      RefusalLists(f, at, Claiming(rc, owner, token, ttl));
      ghost var op := Begin(id, Claiming(rc, owner, token, ttl), at);
      if !HasTerminal(f) && !LiveLease(f, at) && f.queued[rc].attempt < f.queued[rc].job.maxAttempts {
        var claim :- Grant(id, rc, owner, token, ttl, at, op);
        return Ok(Some(claim));
      }
      if HasTerminal(f) {
        var _ :- Do(id, DeleteQueued(rc), op, 0);
      } else if LiveLease(f, at) {
        return Ok(None);
      } else {
        var _ :- Do(id, PutTerminal(Failed, TerminalRecord(f.queued[rc].job, f.queued[rc].attempt)), op, 0);
        var _ :- Do(id, DeleteQueued(rc), op, 1);
      }
      Conclude(op);
      return Ok(None);
    }

    /** `TryClaim` as one step of the sweep that began with `start` and has handled `ids`. */
    method ClaimStep(id: string, rc: Resource, owner: string, token: nat, ttl: int, at: int,
                     ghost start: Objects, ghost startPast: Histories, ghost tokens0: set<nat>, ghost ids: set<string>)
      returns (r: Result<Option<JobClaim>, QueueError>)
      requires Valid() && at == now && ttl > 0 && tokens == tokens0 + {token} && token !in tokens0
      requires Coherent(start, startPast, at, tokens0) && id !in ids && rc in FilesOf(start, id).queued
      requires Swept(start, objects, startPast, past, ClaimSweep(rc, owner, token, ttl), at, ids)
      modifies this
      ensures Valid() && now == at && tokens == old(tokens)
      ensures r == Ok(None) ==> !Grants(FilesOf(start, id), at, Claiming(rc, owner, token, ttl))
      ensures r == Ok(None) ==>
        Swept(start, objects, startPast, past, ClaimSweep(rc, owner, token, ttl), at, ids + {id})
      ensures r.Ok? && r.value.Some? ==> r.value.value.job.id == id
      ensures r.Ok? && r.value.Some? ==>
        HandedOut(FilesOf(start, id), Files(id), PastOf(startPast, id), Past(id),
                  Claiming(rc, owner, token, ttl), at, r.value.value)
      ensures AllInterrupted(startPast, past, ClaimSweep(rc, owner, token, ttl), at, {id})
      ensures r.Err? ==> r.error == StorageFault
      ensures Healthy(old(faults)) ==> Healthy(faults) && r.Ok?
      ensures r.Err? ==> AllInterrupted(startPast, past, ClaimSweep(rc, owner, token, ttl), at, {})
    {
      hide Grants, Handled, HandedOut, Interrupted, Extended, Swept, Elsewhere, Coherent, End, IsHistory,
           AllInterrupted;
      ghost var sw, mid, pastMid := ClaimSweep(rc, owner, token, ttl), objects, past;
      Unvisited(start, mid, startPast, pastMid, at, tokens0, sw, at, ids, id);
      r := TryClaim(id, rc, owner, token, ttl, at);
      SweepBreaks(start, mid, objects, startPast, pastMid, past, at, tokens0, sw, at, ids, id);
      if r == Ok(None) {
        SweepOne(start, mid, objects, startPast, pastMid, past, sw, at, ids, id);
      }
    }

    /**
     `claim`: the first grantable job of the listing, or none.  On `None` every job was
     looked at and none could be granted; a returned claim is the only one handed out;
     an interrupted call hands out nothing.
     */
    method Claim(rc: Resource, owner: string, token: nat, ttl: int, at: int)
      returns (r: Result<Option<JobClaim>, QueueError>)
      requires Valid() && now <= at && token !in tokens
      modifies this
      ensures Valid()
      ensures r == Err(InvalidTtl) <==> ttl <= 0
      ensures r == Err(InvalidTtl) ==>
        objects == old(objects) && past == old(past) && now == old(now) && tokens == old(tokens)
      ensures r != Err(InvalidTtl) ==> now == at && tokens == old(tokens) + {token}
      ensures r.Ok? || r.error in {InvalidTtl, StorageFault}
      ensures Healthy(old(faults)) ==> Healthy(faults) && r != Err(StorageFault)
      ensures r == Ok(None) ==> forall i :: var f := FilesOf(old(objects), i);
        rc in f.queued && !HasTerminal(f) && !LiveLease(f, at) ==> f.queued[rc].attempt >= f.queued[rc].job.maxAttempts
      ensures r == Ok(None) ==> forall i :: var f := FilesOf(old(objects), i);
        FilesOf(objects, i) ==
          if rc !in f.queued then f
          else if HasTerminal(f) then f.(queued := f.queued - {rc})
          else if LiveLease(f, at) then f
          else f.(failed := Some(TerminalRecord(f.queued[rc].job, f.queued[rc].attempt)), queued := f.queued - {rc})
      ensures r.Ok? && r.value.Some? ==>
        var c, f := r.value.value, FilesOf(old(objects), r.value.value.job.id);
        && rc in f.queued && f.completed.None? && f.failed.None? && f.blocked.None? && c.attempt < c.job.maxAttempts
        && (f.lease.Some? ==> f.lease.value.expires <= at)
        && f.queued[rc] == QueuedRecord(c.job, c.attempt) && c.owner == owner && c.token == token
        && Files(c.job.id) ==
           f.(queued := f.queued - {rc}, running := Some(RunningRecord(c.job, c.attempt, token)),
              lease := Some(LeaseRecord(owner, token, c.attempt, at + ttl)),
              heartbeat := Some(HeartbeatRecord(at, owner, token)))
        && forall t :: Owns(Files(c.job.id), t, c) <==> t < at + ttl
      ensures var sw := ClaimSweep(rc, owner, token, ttl);
        && (r == Ok(None) ==> AllHandled(old(objects), objects, old(past), past, sw, at))
        && (r.Ok? && r.value.Some? ==>
              var c, id := r.value.value, r.value.value.job.id;
              && HandedOut(old(Files(id)), Files(id), old(Past(id)), Past(id), On(sw, id), at, c)
              && AllInterrupted(old(past), past, sw, at, {id}))
        && (r == Err(StorageFault) ==> AllInterrupted(old(past), past, sw, at, {}))
    {
      hide Apply, Writes, Coherent, End, IsHistory, Grants, HandedOut, Swept, AllHandled, AllInterrupted, FilesOf,
           PastOf, Healthy, HasTerminal, LiveLease, Owns;
      if ttl <= 0 {
        return Err(InvalidTtl);
      }
      ghost var sw, tokens0 := ClaimSweep(rc, owner, token, ttl), tokens;
      TickKeeps(objects, past, now, at, tokens, tokens);
      TickKeeps(objects, past, now, at, tokens, tokens + {token});
      now, tokens := at, tokens + {token};
      var keys := Listing(set id | id in objects && rc in objects[id].queued);
      LeftUnqueued(objects, rc, owner, token, ttl, at, keys);
      SweepStarts(objects, past, sw, at, keys);
      var k := 0;
      while k < |keys|
        invariant 0 <= k <= |keys| && Valid() && now == at && tokens == tokens0 + {token}
        invariant Healthy(old(faults)) ==> Healthy(faults)
        invariant Swept(old(objects), objects, old(past), past, sw, at, set i | i in keys[..k])
        invariant forall i | i in keys[..k] :: !Grants(FilesOf(old(objects), i), at, On(sw, i))
      {
        ghost var ids := set i | i in keys[..k];
        assert keys[k] !in ids && keys[k] in keys;
        r := ClaimStep(keys[k], rc, owner, token, ttl, at, old(objects), old(past), tokens0, ids);
        if r != Ok(None) {
          if r.Ok? {
            ghost var id := r.value.value.job.id;
            HandedOutFiles(FilesOf(old(objects), id), Files(id), PastOf(old(past), id), Past(id), rc, owner, token, ttl,
                           at, r.value.value);
          }
          return;
        }
        k := k + 1;
        assert (set i | i in keys[..k]) == ids + {keys[k - 1]};
      }
      assert keys[..k] == keys;
      SweepEnds(old(objects), objects, old(past), past, at, tokens0, sw, at, set i | i in keys);
      EmptyHandedFiles(old(objects), objects, old(past), past, rc, owner, token, ttl, at);
      return Ok(None);
    }

    /** The body of `reclaim_expired`'s loop. */
    method ReclaimOne(id: string, at: int) returns (r: Result<bool, QueueError>)
      requires Valid() && at == now && IsHistory(Past(id)) && Files(id).running.Some?
      modifies this
      ensures Valid() && now == at && tokens == old(tokens)
      ensures Elsewhere(id, old(objects), objects, old(past), past)
      ensures r.Ok? ==> Handled(old(Files(id)), Files(id), old(Past(id)), Past(id), Reclaiming, at)
      ensures r.Ok? ==> (r.value <==> Requeues(old(Files(id)), at))
      ensures Healthy(old(faults)) ==> Healthy(faults) && r.Ok?
      ensures r.Err? ==> r.error == StorageFault && Interrupted(old(Past(id)), Past(id), Reclaiming, at)
    {
      hide Apply, Writes, Midway, Coherent, Full, End, IsHistory, Interrupted, Extended, Handled, HandedOut;
      var f := Files(id);
      RecoveryLists(f, at);
      ghost var op := Begin(id, Reclaiming, at);
      if HasTerminal(f) {
        var _ :- DeleteStale(id, op, 0);
        Conclude(op);
        return Ok(false);
      }
      if LiveLease(f, at) {
        return Ok(false);
      }
      var job, next := f.running.value.job, f.running.value.attempt + 1;
      if next >= job.maxAttempts {
        var _ :- Do(id, PutTerminal(Failed, TerminalRecord(job, next)), op, 0);
      } else {
        var _ :- Do(id, PutQueued(job.resource, QueuedRecord(job, next)), op, 0);
      }
      var _ :- DeleteStale(id, op, 1);
      Conclude(op);
      return Ok(next < job.maxAttempts);
    }

    /** `ReclaimOne` as one step of the sweep that began with `start` and has handled `ids`. */
    method ReclaimStep(id: string, at: int, ghost start: Objects, ghost startPast: Histories, ghost ids: set<string>)
      returns (r: Result<bool, QueueError>)
      requires Valid() && at == now && Coherent(start, startPast, at, tokens) && id !in ids
      requires FilesOf(start, id).running.Some?
      requires Swept(start, objects, startPast, past, ReclaimSweep, at, ids)
      modifies this
      ensures Valid() && now == at && tokens == old(tokens)
      ensures r.Ok? ==> Swept(start, objects, startPast, past, ReclaimSweep, at, ids + {id})
      ensures r.Ok? ==> (r.value <==> Requeues(FilesOf(start, id), at))
      ensures Healthy(old(faults)) ==> Healthy(faults) && r.Ok?
      ensures r.Err? ==> r.error == StorageFault && AllInterrupted(startPast, past, ReclaimSweep, at, {})
    {
      hide Handled, Interrupted, Extended, Swept, Elsewhere, Coherent, End, IsHistory, AllInterrupted;
      ghost var sw, mid, pastMid := ReclaimSweep, objects, past;
      Unvisited(start, mid, startPast, pastMid, at, tokens, sw, at, ids, id);
      r := ReclaimOne(id, at);
      SweepBreaks(start, mid, objects, startPast, pastMid, past, at, tokens, sw, at, ids, id);
      if r.Ok? {
        SweepOne(start, mid, objects, startPast, pastMid, past, sw, at, ids, id);
      }
    }

    /** `reclaim_expired`: every running job is dealt with unless a write raises; the requeued ids come back. */
    method ReclaimExpired(at: int) returns (r: Result<seq<string>, QueueError>)
      requires Valid() && now <= at
      modifies this
      ensures Valid() && now == at && tokens == old(tokens)
      ensures r.Ok? || r.error == StorageFault
      ensures Healthy(old(faults)) ==> Healthy(faults) && r.Ok?
      ensures r.Ok? ==> forall i :: var f := FilesOf(old(objects), i);
        i in r.value <==>
          f.running.Some? && !HasTerminal(f) && !LiveLease(f, at)
          && f.running.value.attempt + 1 < f.running.value.job.maxAttempts
      ensures r.Ok? ==> forall i :: var f := FilesOf(old(objects), i);
        FilesOf(objects, i) ==
          var cleared := f.(running := None, lease := None, heartbeat := None);
          if f.running.None? then f
          else if HasTerminal(f) then cleared
          else if LiveLease(f, at) then f
          else
            var RunningRecord(job, attempt, _) := f.running.value;
            if attempt + 1 < job.maxAttempts
            then cleared.(queued := f.queued[job.resource := QueuedRecord(job, attempt + 1)])
            else cleared.(failed := Some(TerminalRecord(job, attempt + 1)))
      ensures r.Ok? ==> AllHandled(old(objects), objects, old(past), past, ReclaimSweep, at)
      ensures AllInterrupted(old(past), past, ReclaimSweep, at, {})
    {
      hide Apply, Writes, Coherent, End, IsHistory, Swept, AllHandled, AllInterrupted, FilesOf, PastOf, Requeues,
           Healthy;
      ghost var sw := ReclaimSweep;
      TickKeeps(objects, past, now, at, tokens, tokens);
      now := at;
      var keys := Listing(set id | id in objects && objects[id].running.Some?);
      LeftIdle(objects, at, keys);
      SweepStarts(objects, past, sw, at, keys);
      var reclaimed := [];
      var k := 0;
      while k < |keys|
        invariant 0 <= k <= |keys| && Valid() && now == at && tokens == old(tokens)
        invariant Healthy(old(faults)) ==> Healthy(faults)
        invariant Swept(old(objects), objects, old(past), past, sw, at, set i | i in keys[..k])
        invariant forall i :: i in reclaimed <==> i in keys[..k] && Requeues(FilesOf(old(objects), i), at)
      {
        ghost var ids := set i | i in keys[..k];
        assert keys[k] !in ids && keys[k] in keys;
        var requeued := ReclaimStep(keys[k], at, old(objects), old(past), ids);
        if requeued.Err? {
          return Err(requeued.error);
        }
        if requeued.value {
          reclaimed := reclaimed + [keys[k]];
        }
        k := k + 1;
        assert (set i | i in keys[..k]) == ids + {keys[k - 1]};
      }
      assert keys[..k] == keys;
      SweepEnds(old(objects), objects, old(past), past, at, tokens, sw, at, set i | i in keys);
      ReclaimedFiles(old(objects), objects, old(past), past, at);
      RequeuesIff(old(objects), at);
      return Ok(reclaimed);
    }

    /** The body of `resume_cleared_blockers`'s loop. */
    method ResumeOne(id: string, cleared: bool, at: int) returns (r: Result<bool, QueueError>)
      requires Valid() && at == now && IsHistory(Past(id)) && Files(id).blocked.Some?
      modifies this
      ensures Valid() && now == at && tokens == old(tokens)
      ensures Elsewhere(id, old(objects), objects, old(past), past)
      ensures r.Ok? ==> Handled(old(Files(id)), Files(id), old(Past(id)), Past(id), Resuming(cleared), at)
      ensures r.Ok? ==> (r.value <==> Unblocks(old(Files(id)), cleared))
      ensures Healthy(old(faults)) ==> Healthy(faults) && r.Ok?
      ensures r.Err? ==> r.error == StorageFault && Interrupted(old(Past(id)), Past(id), Resuming(cleared), at)
    {
      hide Apply, Writes, Midway, Coherent, Full, End, IsHistory, Interrupted, Extended, Handled, HandedOut;
      var f := Files(id);
      ghost var op := Begin(id, Resuming(cleared), at);
      ResumeLists(f, at, cleared);
      if !cleared {
        return Ok(false);
      }
      var job, next := f.blocked.value.job, f.blocked.value.attempt + 1;
      if next >= job.maxAttempts {
        return Ok(false);
      }
      var _ :- Do(id, PutQueued(job.resource, QueuedRecord(job, next)), op, 0);
      var _ :- Do(id, DeleteBlocked, op, 1);
      Conclude(op);
      return Ok(true);
    }

    /** `ResumeOne` as one step of the sweep that began with `start` and has handled `ids`. */
    method ResumeStep(id: string, cleared: set<string>, at: int, ghost start: Objects, ghost startPast: Histories,
                      ghost ids: set<string>)
      returns (r: Result<bool, QueueError>)
      requires Valid() && at == now && Coherent(start, startPast, at, tokens) && id !in ids
      requires FilesOf(start, id).blocked.Some?
      requires Swept(start, objects, startPast, past, ResumeSweep(cleared), at, ids)
      modifies this
      ensures Valid() && now == at && tokens == old(tokens)
      ensures r.Ok? ==> Swept(start, objects, startPast, past, ResumeSweep(cleared), at, ids + {id})
      ensures r.Ok? ==> (r.value <==> Unblocks(FilesOf(start, id), id in cleared))
      ensures Healthy(old(faults)) ==> Healthy(faults) && r.Ok?
      ensures r.Err? ==> r.error == StorageFault && AllInterrupted(startPast, past, ResumeSweep(cleared), at, {})
    {
      hide Handled, Interrupted, Extended, Swept, Elsewhere, Coherent, End, IsHistory, AllInterrupted;
      ghost var sw, mid, pastMid := ResumeSweep(cleared), objects, past;
      Unvisited(start, mid, startPast, pastMid, at, tokens, sw, at, ids, id);
      r := ResumeOne(id, id in cleared, at);
      SweepBreaks(start, mid, objects, startPast, pastMid, past, at, tokens, sw, at, ids, id);
      if r.Ok? {
        SweepOne(start, mid, objects, startPast, pastMid, past, sw, at, ids, id);
      }
    }

    /** `resume_cleared_blockers`; `cleared` are the jobs whose blocker's resume key is there. */
    method ResumeClearedBlockers(cleared: set<string>, at: int) returns (r: Result<seq<string>, QueueError>)
      requires Valid() && now <= at
      modifies this
      ensures Valid() && now == at && tokens == old(tokens)
      ensures r.Ok? || r.error == StorageFault
      ensures Healthy(old(faults)) ==> Healthy(faults) && r.Ok?
      ensures r.Ok? ==> forall i :: var f := FilesOf(old(objects), i);
        i in r.value <==>
          i in cleared && f.blocked.Some? && f.blocked.value.attempt + 1 < f.blocked.value.job.maxAttempts
      ensures r.Ok? ==> forall i :: var f := FilesOf(old(objects), i);
        FilesOf(objects, i) ==
          if i in r.value
          then
            var TerminalRecord(job, attempt) := f.blocked.value;
            f.(queued := f.queued[job.resource := QueuedRecord(job, attempt + 1)], blocked := None)
          else f
      ensures r.Ok? ==> AllHandled(old(objects), objects, old(past), past, ResumeSweep(cleared), at)
      ensures AllInterrupted(old(past), past, ResumeSweep(cleared), at, {})
    {
      hide Apply, Writes, Coherent, End, IsHistory, Swept, AllHandled, AllInterrupted, FilesOf, PastOf, Unblocks,
           Healthy;
      ghost var sw := ResumeSweep(cleared);
      TickKeeps(objects, past, now, at, tokens, tokens);
      now := at;
      var keys := Listing(set id | id in objects && objects[id].blocked.Some?);
      LeftUnblocked(objects, cleared, at, keys);
      SweepStarts(objects, past, sw, at, keys);
      var resumed := [];
      var k := 0;
      while k < |keys|
        invariant 0 <= k <= |keys| && Valid() && now == at && tokens == old(tokens)
        invariant Healthy(old(faults)) ==> Healthy(faults)
        invariant Swept(old(objects), objects, old(past), past, sw, at, set i | i in keys[..k])
        invariant forall i :: i in resumed <==> i in keys[..k] && Unblocks(FilesOf(old(objects), i), i in cleared)
      {
        ghost var ids := set i | i in keys[..k];
        assert keys[k] !in ids && keys[k] in keys;
        var requeued := ResumeStep(keys[k], cleared, at, old(objects), old(past), ids);
        if requeued.Err? {
          return Err(requeued.error);
        }
        if requeued.value {
          resumed := resumed + [keys[k]];
        }
        k := k + 1;
        assert (set i | i in keys[..k]) == ids + {keys[k - 1]};
      }
      assert keys[..k] == keys;
      SweepEnds(old(objects), objects, old(past), past, at, tokens, sw, at, set i | i in keys);
      ResumedFiles(old(objects), objects, old(past), past, cleared, at);
      UnblocksIff(old(objects), cleared);
      return Ok(resumed);
    }
  }
}
