/**
 The leased, fenced worker queue, seen from one job.

 Every stored object names exactly one job, so the queue is a product of independent
 jobs.  A job's objects are a `JobFiles`; an operation is the list of single puts and
 deletes it performs (`Writes`), and a crash or a raised storage exception cuts that
 list after any number of writes.  Operations are serial (the coordinator's lock), so a
 history is a sequence of such cut operations.
 */
module QueueProtocol {
  import opened Wrappers

  datatype Resource = Cpu | HighRam | Gpu | Tpu | Storage

  type Positive = n: nat | n > 0 witness 1

  datatype WorkerJob = WorkerJob(id: string, resource: Resource, maxAttempts: Positive)

  datatype JobClaim = JobClaim(job: WorkerJob, owner: string, token: nat, attempt: nat)

  datatype QueuedRecord = QueuedRecord(job: WorkerJob, attempt: nat)
  datatype RunningRecord = RunningRecord(job: WorkerJob, attempt: nat, token: nat)
  datatype LeaseRecord = LeaseRecord(owner: string, token: nat, attempt: nat, expires: int)
  datatype HeartbeatRecord = HeartbeatRecord(at: int, owner: string, token: nat)
  datatype CheckpointRecord = CheckpointRecord(sequence: nat, owner: string, token: nat)
  datatype TerminalRecord = TerminalRecord(job: WorkerJob, attempt: nat)

  datatype Terminal = Completed | Failed | Blocked

  /** The objects stored for one job, by folder. */
  datatype JobFiles = JobFiles(
    queued: map<Resource, QueuedRecord>,
    running: Option<RunningRecord>,
    lease: Option<LeaseRecord>,
    heartbeat: Option<HeartbeatRecord>,
    checkpoint: Option<CheckpointRecord>,
    completed: Option<TerminalRecord>,
    failed: Option<TerminalRecord>,
    blocked: Option<TerminalRecord>)

  const NO_FILES := JobFiles(map[], None, None, None, None, None, None, None)

  /** One put or delete on the backend; each is atomic by itself. */
  datatype Write =
    | PutQueued(resource: Resource, queuedRecord: QueuedRecord)
    | DeleteQueued(resource: Resource)
    | PutRunning(runningRecord: RunningRecord)
    | DeleteRunning
    | PutLease(leaseRecord: LeaseRecord)
    | DeleteLease
    | PutHeartbeat(heartbeatRecord: HeartbeatRecord)
    | DeleteHeartbeat
    | PutCheckpoint(checkpointRecord: CheckpointRecord)
    | PutTerminal(status: Terminal, terminalRecord: TerminalRecord)
    | DeleteBlocked

  function Apply(f: JobFiles, w: Write): JobFiles {
    match w
    case PutQueued(rc, r) => f.(queued := f.queued[rc := r])
    case DeleteQueued(rc) => f.(queued := f.queued - {rc})
    case PutRunning(r) => f.(running := Some(r))
    case DeleteRunning => f.(running := None)
    case PutLease(r) => f.(lease := Some(r))
    case DeleteLease => f.(lease := None)
    case PutHeartbeat(r) => f.(heartbeat := Some(r))
    case DeleteHeartbeat => f.(heartbeat := None)
    case PutCheckpoint(r) => f.(checkpoint := Some(r))
    case PutTerminal(Completed, r) => f.(completed := Some(r))
    case PutTerminal(Failed, r) => f.(failed := Some(r))
    case PutTerminal(Blocked, r) => f.(blocked := Some(r))
    case DeleteBlocked => f.(blocked := None)
  }

  /** The files after the first `k` writes of `ws`. */
  function ApplyFirst(f: JobFiles, ws: seq<Write>, k: nat): JobFiles
    requires k <= |ws|
  {
    if k == 0 then f else Apply(ApplyFirst(f, ws, k - 1), ws[k - 1])
  }

  predicate HasTerminal(f: JobFiles) {
    f.completed.Some? || f.failed.Some? || f.blocked.Some?
  }

  /** `_job_exists`: some queued, running or terminal object is stored. */
  predicate Present(f: JobFiles) {
    f.queued.Keys != {} || f.running.Some? || HasTerminal(f)
  }

  predicate LiveLease(f: JobFiles, at: int) {
    f.lease.Some? && f.lease.value.expires > at
  }

  /** `assert_ownership` does not raise. */
  predicate Owns(f: JobFiles, at: int, c: JobClaim) {
    LiveLease(f, at) && f.lease.value.owner == c.owner && f.lease.value.token == c.token
  }

  /** The stored checkpoint sequence; -1 when there is none, as `run_one` starts from. */
  function StoredSequence(f: JobFiles): int {
    match f.checkpoint
    case None => -1
    case Some(r) => r.sequence
  }

  datatype Status = IsCompleted | IsFailed | IsBlocked | IsRunning | IsQueued | Unknown

  function JobStatus(f: JobFiles): Status {
    if f.completed.Some? then IsCompleted
    else if f.failed.Some? then IsFailed
    else if f.blocked.Some? then IsBlocked
    else if f.running.Some? then IsRunning
    else if f.queued.Keys != {} then IsQueued
    else Unknown
  }

  datatype Action =
    | Submitting(job: WorkerJob)
    | Claiming(resource: Resource, owner: string, token: nat, ttl: int)
    | Beating(claim: JobClaim, ttl: int)
    | Saving(claim: JobClaim, sequence: nat)
    | Finishing(claim: JobClaim, status: Terminal)
    | Reclaiming
    | Resuming(cleared: bool)

  /** `claim` reaches the lease: the job is queued here, not terminal, not leased, not exhausted. */
  predicate Grants(f: JobFiles, at: int, a: Action)
    requires a.Claiming?
  {
    && a.ttl > 0
    && a.resource in f.queued
    && !HasTerminal(f)
    && !LiveLease(f, at)
    && f.queued[a.resource].attempt < f.queued[a.resource].job.maxAttempts
  }

  function GrantedClaim(f: JobFiles, a: Action): JobClaim
    requires a.Claiming? && a.resource in f.queued
  {
    var q := f.queued[a.resource];
    JobClaim(q.job, a.owner, a.token, q.attempt)
  }

  function BeatWrites(lease: LeaseRecord, at: int, ttl: int): seq<Write> {
    [PutLease(lease.(expires := at + ttl)),
     PutHeartbeat(HeartbeatRecord(at, lease.owner, lease.token))]
  }

  function ClaimWrites(f: JobFiles, at: int, a: Action): seq<Write>
    requires a.Claiming?
  {
    if a.ttl <= 0 || a.resource !in f.queued then []
    else if HasTerminal(f) then [DeleteQueued(a.resource)]
    else if LiveLease(f, at) then []
    else
      var q := f.queued[a.resource];
      if q.attempt >= q.job.maxAttempts then
        [PutTerminal(Failed, TerminalRecord(q.job, q.attempt)), DeleteQueued(a.resource)]
      else
        var lease := LeaseRecord(a.owner, a.token, q.attempt, at + a.ttl);
        [PutLease(lease),
         PutRunning(RunningRecord(q.job, q.attempt, a.token)),
         DeleteQueued(a.resource)] + BeatWrites(lease, at, a.ttl)
  }

  function ReclaimWrites(f: JobFiles, at: int): seq<Write> {
    var cleanup := [DeleteRunning, DeleteLease, DeleteHeartbeat];
    if f.running.None? then []
    else if HasTerminal(f) then cleanup
    else if LiveLease(f, at) then []
    else
      var job, next := f.running.value.job, f.running.value.attempt + 1;
      [if next >= job.maxAttempts then PutTerminal(Failed, TerminalRecord(job, next))
       else PutQueued(job.resource, QueuedRecord(job, next))] + cleanup
  }

  function ResumeWrites(f: JobFiles, cleared: bool): seq<Write> {
    if f.blocked.None? || !cleared then []
    else
      var job, next := f.blocked.value.job, f.blocked.value.attempt + 1;
      if next >= job.maxAttempts then []
      else [PutQueued(job.resource, QueuedRecord(job, next)), DeleteBlocked]
  }

  /** The puts and deletes the operation performs on this job, in order. */
  function Writes(f: JobFiles, at: int, a: Action): seq<Write> {
    match a
    case Submitting(job) =>
      if Present(f) then [] else [PutQueued(job.resource, QueuedRecord(job, 0))]
    case Claiming(_, _, _, _) => ClaimWrites(f, at, a)
    case Beating(c, ttl) =>
      if Owns(f, at, c) then BeatWrites(f.lease.value, at, ttl) else []
    case Saving(c, sequence) =>
      if Owns(f, at, c) && sequence > StoredSequence(f)
      then [PutCheckpoint(CheckpointRecord(sequence, c.owner, c.token))] else []
    case Finishing(c, status) =>
      if Owns(f, at, c) && f.running.Some?
      then [PutTerminal(status, TerminalRecord(c.job, c.attempt)), DeleteRunning, DeleteLease, DeleteHeartbeat]
      else []
    case Reclaiming => ReclaimWrites(f, at)
    case Resuming(cleared) => ResumeWrites(f, cleared)
  }

  /**
   One job's objects together with what has happened to it: the clock, the fencing
   tokens drawn so far, the claims `claim` has returned, and the job first submitted.
   */
  datatype System = System(
    files: JobFiles,
    now: int,
    used: set<nat>,
    issued: seq<JobClaim>,
    job: Option<WorkerJob>)

  /**
   `Act` is an operation cut after `done` writes; `returned` says that it came back to its
   caller rather than dying after its last write.  `Reappear` is an eventually consistent
   listing showing an old queued object again.
   */
  datatype Event =
    | Act(action: Action, at: int, done: nat, returned: bool)
    | Reappear(resource: Resource, record: QueuedRecord)

  /** Tokens are fresh, claims come from the queue, time does not run backwards. */
  ghost predicate Enabled(s: System, e: Event) {
    e.Act? ==>
      && s.now <= e.at
      && e.done <= |Writes(s.files, e.at, e.action)|
      && (e.action.Claiming? ==> e.action.token !in s.used)
      && (e.action.Beating? || e.action.Saving? || e.action.Finishing? ==> e.action.claim in s.issued)
  }

  ghost predicate Hands(s: System, e: Event) {
    && e.Act? && e.action.Claiming? && e.returned
    && Grants(s.files, e.at, e.action)
    && e.done == |Writes(s.files, e.at, e.action)|
  }

  ghost function After(s: System, e: Event): System
    requires Enabled(s, e)
  {
    match e
    case Reappear(rc, r) => s.(files := Apply(s.files, PutQueued(rc, r)))
    case Act(a, at, done, returned) =>
      System(
        ApplyFirst(s.files, Writes(s.files, at, a), done),
        at,
        if a.Claiming? then s.used + {a.token} else s.used,
        if Hands(s, e) then s.issued + [GrantedClaim(s.files, a)] else s.issued,
        if a.Submitting? && done > 0 then Some(a.job) else s.job)
  }

  const START := System(NO_FILES, 0, {}, [], None)

  /** `h` is a history, oldest event first, and `End(h)` the system it leads to. */
  ghost predicate IsHistory(h: seq<Event>)
    decreases h, 0
  {
    h == [] || (IsHistory(h[..|h| - 1]) && Enabled(End(h[..|h| - 1]), h[|h| - 1]))
  }

  ghost function End(h: seq<Event>): System
    requires IsHistory(h)
    decreases h, 1
  {
    if h == [] then START else After(End(h[..|h| - 1]), h[|h| - 1])
  }

  /** No listing anomaly: the histories of a consistent backend. */
  ghost predicate Consistent(h: seq<Event>) {
    forall i | 0 <= i < |h| :: h[i].Act?
  }

  /** What reappears is a queued record the queue may once have written for its job. */
  ghost predicate OwnRecord(s: System, e: Event) {
    e.Reappear? && s.job.Some? && e.record.job == s.job.value
    && e.resource == s.job.value.resource && e.record.attempt < s.job.value.maxAttempts
  }

  /** It is newer than every claim handed out, or the job has a terminal record anyway. */
  ghost predicate Harmless(s: System, e: Event) {
    OwnRecord(s, e) && (HasTerminal(s.files) || LastAttempt(s.issued) < e.record.attempt)
  }

  /** Listings may show old records again where that is harmless. */
  ghost predicate Orderly(h: seq<Event>) {
    forall i | 0 <= i < |h| && h[i].Reappear? :: IsHistory(h[..i]) && Harmless(End(h[..i]), h[i])
  }

  // ---------- Histories and their prefixes ----------

  lemma {:induction false} PrefixValid(h: seq<Event>, i: nat)
    requires IsHistory(h) && i <= |h|
    ensures IsHistory(h[..i])
  {
    if i < |h| {
      assert h[..|h| - 1][..i] == h[..i];
      PrefixValid(h[..|h| - 1], i);
    } else {
      assert h[..i] == h;
    }
  }

  lemma EndStep(h: seq<Event>, i: nat)
    requires IsHistory(h) && i < |h|
    ensures IsHistory(h[..i]) && IsHistory(h[..i + 1])
    ensures Enabled(End(h[..i]), h[i]) && End(h[..i + 1]) == After(End(h[..i]), h[i])
  {
    PrefixValid(h, i);
    PrefixValid(h, i + 1);
    assert h[..i + 1][..i] == h[..i];
  }

  // ---------- The invariant ----------

  function LastAttempt(issued: seq<JobClaim>): int {
    if issued == [] then -1 else issued[|issued| - 1].attempt
  }

  ghost predicate AttemptsIncrease(issued: seq<JobClaim>) {
    forall i, j | 0 <= i < j < |issued| :: issued[i].attempt < issued[j].attempt
  }

  /** All records carry the job first submitted, and it is queued only for its own resource. */
  ghost predicate RecordsOf(f: JobFiles, job: WorkerJob) {
    && (forall rc | rc in f.queued :: rc == job.resource && f.queued[rc].job == job)
    && (f.running.Some? ==> f.running.value.job == job)
    && (f.completed.Some? ==> f.completed.value.job == job)
    && (f.failed.Some? ==> f.failed.value.job == job)
    && (f.blocked.Some? ==> f.blocked.value.job == job)
  }

  /** Queued attempts are new, unless a terminal record keeps them from being claimed. */
  ghost predicate QueuedAhead(f: JobFiles, last: int, max: nat) {
    forall rc | rc in f.queued :: f.queued[rc].attempt < max && (HasTerminal(f) || last < f.queued[rc].attempt)
  }

  /** Running, leased and blocked attempts are at least the last one handed out. */
  ghost predicate AttemptsAhead(f: JobFiles, last: int, max: nat) {
    && QueuedAhead(f, last, max)
    && (f.running.Some? ==> last <= f.running.value.attempt < max)
    && (f.lease.Some? ==> last <= f.lease.value.attempt < max)
    && (f.blocked.Some? ==> last <= f.blocked.value.attempt < max)
  }

  ghost predicate ClaimsOf(issued: seq<JobClaim>, job: WorkerJob, used: set<nat>) {
    && AttemptsIncrease(issued)
    && (forall i | 0 <= i < |issued| ::
          issued[i].job == job && issued[i].attempt < job.maxAttempts && issued[i].token in used)
    && (forall i, j | 0 <= i < j < |issued| :: issued[i].token != issued[j].token)
  }

  ghost predicate LeaseKnown(f: JobFiles, issued: seq<JobClaim>, used: set<nat>) {
    f.lease.Some? ==>
      && f.lease.value.token in used
      && (forall i | 0 <= i < |issued| && issued[i].token == f.lease.value.token ::
            issued[i].attempt == f.lease.value.attempt)
  }

  /** What the stored objects of a submitted job satisfy between any two writes. */
  ghost predicate FilesInv(f: JobFiles, job: WorkerJob, issued: seq<JobClaim>, used: set<nat>) {
    && Present(f)
    && RecordsOf(f, job)
    && AttemptsAhead(f, LastAttempt(issued), job.maxAttempts)
    && LeaseKnown(f, issued, used)
  }

  ghost predicate Inv(s: System) {
    match s.job
    case None => s.files == NO_FILES && s.issued == []
    case Some(job) => FilesInv(s.files, job, s.issued, s.used) && ClaimsOf(s.issued, job, s.used)
  }

  /** When one put or delete keeps `FilesInv`. */
  ghost predicate Safe(f: JobFiles, w: Write, job: WorkerJob, issued: seq<JobClaim>, used: set<nat>) {
    var last, max := LastAttempt(issued), job.maxAttempts;
    match w
    case PutQueued(rc, r) => rc == job.resource && r.job == job && last < r.attempt < max
    case DeleteQueued(_) => f.running.Some? || HasTerminal(f)
    case PutRunning(r) => r.job == job && last <= r.attempt < max
    case DeleteRunning => f.queued.Keys != {} || HasTerminal(f)
    case PutLease(r) =>
      && last <= r.attempt < max
      && r.token in used
      && (forall i | 0 <= i < |issued| && issued[i].token == r.token :: issued[i].attempt == r.attempt)
    case DeleteLease => true
    case PutHeartbeat(_) => true
    case DeleteHeartbeat => true
    case PutCheckpoint(_) => true
    case PutTerminal(status, r) => r.job == job && (status == Blocked ==> last <= r.attempt < max)
    case DeleteBlocked =>
      || f.completed.Some? || f.failed.Some?
      || ((f.queued.Keys != {} || f.running.Some?) && forall rc | rc in f.queued :: last < f.queued[rc].attempt)
  }

  lemma SafeWriteKeepsJob(f: JobFiles, w: Write, job: WorkerJob, issued: seq<JobClaim>, used: set<nat>)
    requires Present(f) && RecordsOf(f, job) && Safe(f, w, job, issued, used)
    ensures Present(Apply(f, w)) && RecordsOf(Apply(f, w), job)
  {
    var f' := Apply(f, w);
    match w
    case PutQueued(rc, _) => assert rc in f'.queued.Keys;
    case _ => assert w.DeleteQueued? || f'.queued == f.queued;
  }

  lemma SafeWriteKeepsAttempts(f: JobFiles, w: Write, job: WorkerJob, issued: seq<JobClaim>, used: set<nat>)
    requires AttemptsAhead(f, LastAttempt(issued), job.maxAttempts) && Safe(f, w, job, issued, used)
    ensures AttemptsAhead(Apply(f, w), LastAttempt(issued), job.maxAttempts)
  {
    SafeWriteKeepsQueue(f, w, job, issued, used);
    hide QueuedAhead;
  }

  lemma SafeWriteKeepsQueue(f: JobFiles, w: Write, job: WorkerJob, issued: seq<JobClaim>, used: set<nat>)
    requires QueuedAhead(f, LastAttempt(issued), job.maxAttempts) && Safe(f, w, job, issued, used)
    ensures QueuedAhead(Apply(f, w), LastAttempt(issued), job.maxAttempts)
  {
    if w.PutQueued? || w.DeleteBlocked? {
      assert HasTerminal(Apply(f, w)) ==> HasTerminal(f);
    } else {
      assert forall rc | rc in Apply(f, w).queued :: rc in f.queued && Apply(f, w).queued[rc] == f.queued[rc];
    }
  }

  lemma SafeWriteKeepsLease(f: JobFiles, w: Write, job: WorkerJob, issued: seq<JobClaim>, used: set<nat>)
    requires LeaseKnown(f, issued, used) && Safe(f, w, job, issued, used)
    ensures LeaseKnown(Apply(f, w), issued, used)
  {
  }

  lemma SafeWriteKeeps(f: JobFiles, w: Write, job: WorkerJob, issued: seq<JobClaim>, used: set<nat>)
    requires FilesInv(f, job, issued, used) && Safe(f, w, job, issued, used)
    ensures FilesInv(Apply(f, w), job, issued, used)
  {
    hide Apply, Safe, RecordsOf, Present, AttemptsAhead, LeaseKnown;
    SafeWriteKeepsJob(f, w, job, issued, used);
    SafeWriteKeepsAttempts(f, w, job, issued, used);
    SafeWriteKeepsLease(f, w, job, issued, used);
  }

  ghost predicate AllSafe(f: JobFiles, ws: seq<Write>, job: WorkerJob, issued: seq<JobClaim>, used: set<nat>) {
    forall i | 0 <= i < |ws| :: Safe(ApplyFirst(f, ws, i), ws[i], job, issued, used)
  }

  lemma {:induction false} SafeWritesKeep(f: JobFiles, ws: seq<Write>, k: nat,
                                          job: WorkerJob, issued: seq<JobClaim>, used: set<nat>)
    requires k <= |ws| && FilesInv(f, job, issued, used) && AllSafe(f, ws, job, issued, used)
    ensures FilesInv(ApplyFirst(f, ws, k), job, issued, used)
  {
    hide Apply, FilesInv;
    if k > 0 {
      SafeWritesKeep(f, ws, k - 1, job, issued, used);
      SafeWriteKeeps(ApplyFirst(f, ws, k - 1), ws[k - 1], job, issued, used);
    }
  }

  lemma ClaimSafe(f: JobFiles, at: int, a: Action, job: WorkerJob, issued: seq<JobClaim>, used: set<nat>)
    requires a.Claiming? && a.token !in used
    requires FilesInv(f, job, issued, used) && ClaimsOf(issued, job, used)
    ensures AllSafe(f, Writes(f, at, a), job, issued, used + {a.token})
  {
    var ws := Writes(f, at, a);
    if Grants(f, at, a) {
      assert ApplyFirst(f, ws, 1) == Apply(f, ws[0]);
      assert ApplyFirst(f, ws, 2).running.Some?;
    }
  }

  /** A claim that owns the lease carries the lease's attempt. */
  lemma OwnerAttempt(f: JobFiles, at: int, c: JobClaim, issued: seq<JobClaim>, used: set<nat>)
    requires LeaseKnown(f, issued, used) && c in issued && Owns(f, at, c)
    ensures c.attempt == f.lease.value.attempt
  {
    var i :| 0 <= i < |issued| && issued[i] == c;
  }

  lemma ActionSafe(s: System, at: int, a: Action, job: WorkerJob)
    requires Inv(s) && s.job == Some(job) && !a.Claiming?
    requires a.Beating? || a.Saving? || a.Finishing? ==> a.claim in s.issued
    ensures AllSafe(s.files, Writes(s.files, at, a), job, s.issued, s.used)
  {
    var f, ws := s.files, Writes(s.files, at, a);
    if ws != [] {
      assert ApplyFirst(f, ws, 1) == Apply(f, ws[0]) by { assert ApplyFirst(f, ws, 0) == f; }
      if a.Finishing? {
        OwnerAttempt(f, at, a.claim, s.issued, s.used);
      } else if a.Reclaiming? && ws[0].PutQueued? {
        assert job.resource in ApplyFirst(f, ws, 1).queued.Keys;
      } else if a.Resuming? {
        assert job.resource in ApplyFirst(f, ws, 1).queued.Keys;
      }
    }
  }

  /** Handing out the granted claim: every other record is already ahead of it. */
  lemma HandOutKeepsInv(s: System, e: Event)
    requires Inv(s) && Enabled(s, e) && Hands(s, e) && s.job.Some?
    requires FilesInv(After(s, e).files, s.job.value, s.issued, s.used + {e.action.token})
    ensures Inv(After(s, e))
  {
    var f, ws, a := s.files, Writes(s.files, e.at, e.action), e.action;
    var q := f.queued[a.resource];
    var f3 := ApplyFirst(f, ws, 3);
    assert f3.queued == f.queued - {a.resource} && f3.running == Some(RunningRecord(q.job, q.attempt, a.token)) by {
      assert ApplyFirst(f, ws, 1) == Apply(f, ws[0]);
      assert ApplyFirst(f, ws, 2) == Apply(ApplyFirst(f, ws, 1), ws[1]);
    }
    assert f3.blocked == f.blocked && f3.lease == Some(ws[0].leaseRecord) by {
      assert ApplyFirst(f, ws, 1) == Apply(f, ws[0]);
      assert ApplyFirst(f, ws, 2) == Apply(ApplyFirst(f, ws, 1), ws[1]);
    }
    var f5 := After(s, e).files;
    assert f5 == Apply(Apply(f3, ws[3]), ws[4]) by { assert ApplyFirst(f, ws, 4) == Apply(f3, ws[3]); }
    assert f5.queued.Keys == {};
  }

  /** Every single put and delete of every operation keeps the invariant. */
  lemma StepKeepsInv(s: System, e: Event)
    requires Inv(s) && Enabled(s, e) && e.Act?
    ensures Inv(After(s, e))
  {
    var ws := Writes(s.files, e.at, e.action);
    match s.job
    case None =>
      if e.action.Submitting? && e.done > 0 {
        assert After(s, e).files == Apply(s.files, ws[0]) by { assert ApplyFirst(s.files, ws, 0) == s.files; }
        assert e.action.job.resource in After(s, e).files.queued.Keys;
      }
    case Some(job) =>
      if e.action.Claiming? {
        ClaimSafe(s.files, e.at, e.action, job, s.issued, s.used);
        SafeWritesKeep(s.files, ws, e.done, job, s.issued, s.used + {e.action.token});
        if Hands(s, e) { HandOutKeepsInv(s, e); }
      } else {
        ActionSafe(s, e.at, e.action, job);
        SafeWritesKeep(s.files, ws, e.done, job, s.issued, s.used);
      }
  }

  /** So does a harmless reappearance. */
  lemma HarmlessKeepsInv(s: System, e: Event)
    requires Inv(s) && Harmless(s, e)
    ensures Inv(After(s, e))
  {
    assert e.resource in After(s, e).files.queued.Keys;
  }

  lemma OrderlyPrefix(h: seq<Event>, n: nat)
    requires Orderly(h) && n <= |h|
    ensures Orderly(h[..n])
  {
    forall i | 0 <= i < n && h[..n][i].Reappear?
      ensures IsHistory(h[..n][..i]) && Harmless(End(h[..n][..i]), h[..n][i])
    {
      assert h[..n][..i] == h[..i];
    }
  }

  lemma {:induction false} InvHolds(h: seq<Event>)
    requires IsHistory(h) && Orderly(h)
    ensures Inv(End(h))
  {
    hide Inv, Harmless, Enabled, After;
    if h == [] {
      StartInv();
    } else {
      var p, e := h[..|h| - 1], h[|h| - 1];
      OrderlyPrefix(h, |h| - 1);
      InvHolds(p);
      if e.Act? {
        StepKeepsInv(End(p), e);
      } else {
        HarmlessKeepsInv(End(p), e);
      }
    }
  }

  lemma StartInv()
    ensures Inv(START)
  {
  }
}
