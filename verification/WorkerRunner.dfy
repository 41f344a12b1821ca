/**
 `run_one` on the queue, while other workers, watchdogs and its own heartbeat thread work on
 the same queue between any two of its calls.
 */
module WorkerRunners {
  import opened Wrappers
  import opened QueueProtocol
  import opened QueueTheorems
  import opened QueueTrace
  import opened QueueEffects
  import opened DriveQueues

  /**
   What the world outside this run holds: the time, tokens not drawn yet, claims of other
   workers, and whether this run's heartbeat thread has failed.
   */
  datatype World = World(time: int, nextToken: nat, claims: seq<JobClaim>, beatFailed: bool)

  datatype RunResult =
    | Idle | Parked(claim: JobClaim) | Succeeded(claim: JobClaim, sequence: int) | FailedRun(claim: JobClaim)
    | Lost(claim: JobClaim) | Unsettled(claim: JobClaim) | ParkRaised(claim: JobClaim) | QueueRaised

  function ClaimOf(r: RunResult): Option<JobClaim> {
    if r.Idle? || r.QueueRaised? then None else Some(r.claim)
  }

  // ---------- What others may do meanwhile ----------

  /** `c` publishes no terminal record from event `i` on, not even in an interrupted call. */
  ghost predicate UnpublishedSince(h: seq<Event>, i: nat, c: JobClaim) {
    forall j | i <= j < |h| && h[j].Act? && h[j].action.Finishing? :: h[j].action.claim != c
  }

  /** `h'` continues `h` without a terminal record of `c`. */
  ghost predicate Unpublished(h: seq<Event>, h': seq<Event>, c: JobClaim) {
    |h| <= |h'| && h'[..|h|] == h && UnpublishedSince(h', |h|, c)
  }

  /** `h'` continues `h`, and `c` itself neither saves a checkpoint nor finishes in between. */
  ghost predicate Continues(h: seq<Event>, h': seq<Event>, c: JobClaim) {
    IsHistory(h) && IsHistory(h') && Unpublished(h, h', c) && SilentSince(h', |h|, c)
  }

  lemma UnpublishedTransitive(h: seq<Event>, m: seq<Event>, h': seq<Event>, c: JobClaim)
    requires Unpublished(h, m, c) && Unpublished(m, h', c)
    ensures Unpublished(h, h', c)
  {
    assert h'[..|h|] == h'[..|m|][..|h|];
    forall j | |h| <= j < |h'| && h'[j].Act? && h'[j].action.Finishing? ensures h'[j].action.claim != c {
      if j < |m| { assert h'[j] == h'[..|m|][j]; }
    }
  }

  lemma UnpublishedReflexive(h: seq<Event>, c: JobClaim)
    ensures Unpublished(h, h, c)
  {
    assert h[..|h|] == h;
  }

  lemma UnpublishedOne(h: seq<Event>, h': seq<Event>, a: Action, at: int, c: JobClaim)
    requires Extended(h, h', a, at) && !a.Finishing?
    ensures Unpublished(h, h', c)
  {
    if h' == h { assert h'[..|h|] == h; }
  }

  ghost predicate AllContinue(past: Histories, past': Histories, c: JobClaim) {
    forall i {:trigger PastOf(past', i)} :: Continues(PastOf(past, i), PastOf(past', i), c)
  }

  lemma ContinuesOne(h: seq<Event>, h': seq<Event>, a: Action, at: int, c: JobClaim)
    requires IsHistory(h) && IsHistory(h') && Extended(h, h', a, at) && (a.Saving? || a.Finishing? ==> a.claim != c)
    ensures Continues(h, h', c)
  {
    if h' == h { assert h'[..|h|] == h; }
  }

  lemma ContinuesTransitive(h: seq<Event>, m: seq<Event>, h': seq<Event>, c: JobClaim)
    requires Continues(h, m, c) && Continues(m, h', c)
    ensures Continues(h, h', c)
  {
    UnpublishedTransitive(h, m, h', c);
    forall j | |h| <= j < |h'| && h'[j].Act? && h'[j].action.Saving? ensures h'[j].action.claim != c {
      if j < |m| { assert h'[j] == h'[..|m|][j]; }
    }
  }

  lemma AllTransitive(past: Histories, mid: Histories, past': Histories, c: JobClaim)
    requires AllContinue(past, mid, c) && AllContinue(mid, past', c)
    ensures AllContinue(past, past', c)
  {
    forall i ensures Continues(PastOf(past, i), PastOf(past', i), c) {
      assert Continues(PastOf(past, i), PastOf(mid, i), c) && Continues(PastOf(mid, i), PastOf(past', i), c);
      ContinuesTransitive(PastOf(past, i), PastOf(mid, i), PastOf(past', i), c);
    }
  }

  lemma NothingHappened(objects: Objects, past: Histories, now: int, tokens: set<nat>, c: JobClaim)
    requires Coherent(objects, past, now, tokens)
    ensures AllContinue(past, past, c)
  {
    forall i ensures Continues(PastOf(past, i), PastOf(past, i), c) {
      assert Recorded(i, FilesOf(objects, i), PastOf(past, i), now, tokens);
      assert PastOf(past, i)[..|PastOf(past, i)|] == PastOf(past, i);
    }
  }

  /** An operation on one job. */
  lemma OneContinues(objects: Objects, objects': Objects, past: Histories, past': Histories, now: int, tokens: set<nat>,
                     id: string, a: Action, at: int, c: JobClaim)
    requires Coherent(objects, past, now, tokens) && Elsewhere(id, objects, objects', past, past')
    requires Interrupted(PastOf(past, id), PastOf(past', id), a, at) && (a.Saving? || a.Finishing? ==> a.claim != c)
    ensures AllContinue(past, past', c)
  {
    forall i ensures Continues(PastOf(past, i), PastOf(past', i), c) {
      if i == id {
        ContinuesOne(PastOf(past, i), PastOf(past', i), a, at, c);
      } else {
        assert Recorded(i, FilesOf(objects, i), PastOf(past, i), now, tokens);
        assert PastOf(past', i) == PastOf(past, i);
        ContinuesOne(PastOf(past, i), PastOf(past', i), Reclaiming, at, c);
      }
    }
  }

  /** An operation over all jobs. */
  lemma SweepContinues(past: Histories, past': Histories, sw: Sweep, at: int, c: JobClaim)
    requires AllInterrupted(past, past', sw, at, {})
    ensures AllContinue(past, past', c)
  {
    forall i ensures Continues(PastOf(past, i), PastOf(past', i), c) {
      assert Interrupted(PastOf(past, i), PastOf(past', i), On(sw, i), at);
      ContinuesOne(PastOf(past, i), PastOf(past', i), On(sw, i), at, c);
    }
  }

  lemma HandledIsInterrupted(objects: Objects, objects': Objects, past: Histories, past': Histories, sw: Sweep, at: int)
    requires AllHandled(objects, objects', past, past', sw, at)
    ensures AllInterrupted(past, past', sw, at, {})
  {
    forall i ensures Interrupted(PastOf(past, i), PastOf(past', i), On(sw, i), at) {
      assert Handled(FilesOf(objects, i), FilesOf(objects', i), PastOf(past, i), PastOf(past', i), On(sw, i), at);
    }
  }

  ghost predicate IssuedIn(past: Histories, c: JobClaim) {
    IsHistory(PastOf(past, c.job.id)) && c in End(PastOf(past, c.job.id)).issued
  }

  lemma GrantContinues(f: JobFiles, f': JobFiles, past: Histories, past': Histories, sw: Sweep, at: int, id: string,
                       granted: JobClaim, c: JobClaim)
    requires AllInterrupted(past, past', sw, at, {id})
    requires HandedOut(f, f', PastOf(past, id), PastOf(past', id), On(sw, id), at, granted)
    requires granted.job.id == id
    ensures AllContinue(past, past', c) && IssuedIn(past', granted) && granted.token == On(sw, id).token
  {
    forall i ensures Continues(PastOf(past, i), PastOf(past', i), c) {
      if i != id { assert Interrupted(PastOf(past, i), PastOf(past', i), On(sw, i), at); }
      ContinuesOne(PastOf(past, i), PastOf(past', i), On(sw, i), at, c);
    }
  }

  lemma StaysIssued(past: Histories, past': Histories, k: JobClaim, c: JobClaim)
    requires AllContinue(past, past', c) && IssuedIn(past, k)
    ensures IssuedIn(past', k)
  {
    assert Continues(PastOf(past, k.job.id), PastOf(past', k.job.id), c);
    IssuedGrows(PastOf(past', k.job.id), |PastOf(past, k.job.id)|);
  }

  ghost predicate Plausible(past: Histories, now: int, tokens: set<nat>, w: World, c: JobClaim) {
    && now <= w.time
    && (forall t | t in tokens :: t < w.nextToken)
    && (forall k | k in w.claims :: IssuedIn(past, k) && k != c)
    && IssuedIn(past, c) && c.token < w.nextToken
  }

  lemma StaysPlausible(past: Histories, past': Histories, now: int, now': int, tokens: set<nat>, tokens': set<nat>,
                       w: World, w': World, c: JobClaim)
    requires Plausible(past, now, tokens, w, c) && AllContinue(past, past', c)
    requires now' <= w'.time && w'.nextToken >= w.nextToken && w'.claims == w.claims
    requires forall t | t in tokens' :: t < w'.nextToken
    ensures Plausible(past', now', tokens', w', c)
  {
    forall k | k in w.claims ensures IssuedIn(past', k) {
      StaysIssued(past, past', k, c);
    }
    StaysIssued(past, past', c, c);
  }

  /** One call of somebody else, or of the heartbeat thread, at an arbitrary later time. */
  method OtherCall(queue: DriveQueue, w: World, c: JobClaim) returns (w': World)
    requires queue.Valid() && Plausible(queue.past, queue.now, queue.tokens, w, c)
    modifies queue
    ensures queue.Valid() && Plausible(queue.past, queue.now, queue.tokens, w', c)
    ensures Healthy(old(queue.faults)) ==> Healthy(queue.faults)
    ensures AllContinue(old(queue.past), queue.past, c)
  {
    hide Coherent, Interrupted, Elsewhere, AllInterrupted, AllHandled, HandedOut, AllContinue, Continues;
    ghost var objects, past, now, tokens := queue.objects, queue.past, queue.now, queue.tokens;
    var delay: nat, kind: nat, ttl: int := *, *, *;
    var at := w.time + delay;
    w' := w.(time := at);
    if kind == 0 {
      var job: WorkerJob := *;
      var _ := queue.Submit(job, at);
      OneContinues(objects, queue.objects, past, queue.past, now, tokens, job.id, Submitting(job), at, c);
      StaysPlausible(past, queue.past, now, queue.now, tokens, queue.tokens, w, w', c);
    } else if kind == 1 && !w.beatFailed {
      var beat := queue.Heartbeat(c, ttl, at);
      var registered := queue.Register();
      w' := w'.(beatFailed := beat.Err? || registered.Err?);
      OneContinues(objects, queue.objects, past, queue.past, now, tokens, c.job.id, Beating(c, ttl), at, c);
      StaysPlausible(past, queue.past, now, queue.now, tokens, queue.tokens, w, w', c);
    } else if kind == 2 {
      var _ := queue.ReclaimExpired(at);
      SweepContinues(past, queue.past, ReclaimSweep, at, c);
      StaysPlausible(past, queue.past, now, queue.now, tokens, queue.tokens, w, w', c);
    } else if kind == 3 {
      var cleared: set<string> := *;
      var _ := queue.ResumeClearedBlockers(cleared, at);
      SweepContinues(past, queue.past, ResumeSweep(cleared), at, c);
      StaysPlausible(past, queue.past, now, queue.now, tokens, queue.tokens, w, w', c);
    } else if kind == 4 {
      w' := OtherClaim(queue, w, c, at);
    } else if w.claims != [] {
      var n: nat := *;
      var k := w.claims[n % |w.claims|];
      assert k in w.claims;
      if kind == 5 {
        var _ := queue.Heartbeat(k, ttl, at);
        OneContinues(objects, queue.objects, past, queue.past, now, tokens, k.job.id, Beating(k, ttl), at, c);
      } else if kind == 6 {
        var sequence: nat := *;
        var _ := queue.Checkpoint(k, k.job.id, sequence, at);
        OneContinues(objects, queue.objects, past, queue.past, now, tokens, k.job.id, Saving(k, sequence), at, c);
      } else {
        var status: Terminal := *;
        var _ := queue.Finish(k, status, at);
        OneContinues(objects, queue.objects, past, queue.past, now, tokens, k.job.id, Finishing(k, status), at, c);
      }
      StaysPlausible(past, queue.past, now, queue.now, tokens, queue.tokens, w, w', c);
    } else {
      NothingHappened(objects, past, now, tokens, c);
    }
  }

  /** Another worker's claim, perhaps of this very job after its lease has run out. */
  method OtherClaim(queue: DriveQueue, w: World, c: JobClaim, at: int) returns (w': World)
    requires queue.Valid() && Plausible(queue.past, queue.now, queue.tokens, w, c) && w.time <= at
    modifies queue
    ensures queue.Valid() && Plausible(queue.past, queue.now, queue.tokens, w', c)
    ensures Healthy(old(queue.faults)) ==> Healthy(queue.faults)
    ensures AllContinue(old(queue.past), queue.past, c)
  {
    hide Coherent, Interrupted, Elsewhere, AllInterrupted, AllHandled, HandedOut, AllContinue, Continues, Grants;
    ghost var objects, past, now, tokens := queue.objects, queue.past, queue.now, queue.tokens;
    var rc: Resource, owner: string, ttl: int := *, *, *;
    var r := queue.Claim(rc, owner, w.nextToken, ttl, at);
    ghost var sw := ClaimSweep(rc, owner, w.nextToken, ttl);
    w' := World(at, w.nextToken + 1, w.claims, w.beatFailed);
    if r.Ok? && r.value.Some? {
      ghost var id := r.value.value.job.id;
      GrantContinues(FilesOf(objects, id), FilesOf(queue.objects, id), past, queue.past, sw, at, id, r.value.value, c);
      StaysPlausible(past, queue.past, now, queue.now, tokens, queue.tokens, w, w', c);
      w' := w'.(claims := w.claims + [r.value.value]);
    } else {
      if r == Ok(None) {
        HandledIsInterrupted(objects, queue.objects, past, queue.past, sw, at);
        SweepContinues(past, queue.past, sw, at, c);
      } else if r == Err(InvalidTtl) {
        NothingHappened(objects, past, now, tokens, c);
      } else {
        SweepContinues(past, queue.past, sw, at, c);
      }
      StaysPlausible(past, queue.past, now, queue.now, tokens, queue.tokens, w, w', c);
    }
  }

  /** Any number of such calls. */
  method Meanwhile(queue: DriveQueue, w: World, c: JobClaim) returns (w': World)
    requires queue.Valid() && Plausible(queue.past, queue.now, queue.tokens, w, c)
    modifies queue
    ensures queue.Valid() && Plausible(queue.past, queue.now, queue.tokens, w', c)
    ensures Healthy(old(queue.faults)) ==> Healthy(queue.faults)
    ensures AllContinue(old(queue.past), queue.past, c)
  {
    hide Coherent, AllContinue, Plausible, Healthy;
    w' := w;
    var n: nat := *;
    NothingHappened(queue.objects, queue.past, queue.now, queue.tokens, c);
    while n > 0
      invariant queue.Valid() && Plausible(queue.past, queue.now, queue.tokens, w', c)
      invariant Healthy(old(queue.faults)) ==> Healthy(queue.faults)
      invariant AllContinue(old(queue.past), queue.past, c)
    {
      ghost var past := queue.past;
      w' := OtherCall(queue, w', c);
      AllTransitive(old(queue.past), past, queue.past, c);
      n := n - 1;
    }
  }

  // ---------- The run ----------

  /** While the claim is live, the checkpoint is where this run left it. */
  lemma CheckpointUntouched(objects: Objects, past: Histories, objects': Objects, past': Histories,
                            now: int, now': int, tokens: set<nat>, tokens': set<nat>, c: JobClaim, at: int)
    requires Coherent(objects, past, now, tokens) && Coherent(objects', past', now', tokens')
    requires AllContinue(past, past', c) && IssuedIn(past, c) && now' <= at
    requires Owns(FilesOf(objects', c.job.id), at, c)
    ensures StoredSequence(FilesOf(objects', c.job.id)) == StoredSequence(FilesOf(objects, c.job.id))
  {
    var id := c.job.id;
    assert Recorded(id, FilesOf(objects, id), PastOf(past, id), now, tokens);
    assert Recorded(id, FilesOf(objects', id), PastOf(past', id), now', tokens');
    assert Continues(PastOf(past, id), PastOf(past', id), c);
    NextSequenceAccepted(PastOf(past', id), |PastOf(past, id)|, c, at);
  }

  /** One operation while claim `c` is live and does not finish. */
  lemma LiveStep(p: seq<Event>, e: Event, c: JobClaim)
    requires IsHistory(p) && c in End(p).issued && Enabled(End(p), e) && e.Act?
    requires Owns(End(p).files, e.at, c) && (e.action.Finishing? ==> e.action.claim != c)
    requires End(p).files.running.Some? && !HasTerminal(End(p).files)
    ensures var f, f' := End(p).files, After(End(p), e).files;
      f'.(lease := f.lease, heartbeat := f.heartbeat, checkpoint := f.checkpoint) == f
  {
    var f, a := End(p).files, e.action;
    if a.Finishing? && Owns(f, e.at, a.claim) {
      AtMostOneOwner(p, e.at, c, a.claim);
    }
    if (a.Beating? || a.Saving?) && Owns(f, e.at, a.claim) {
      Unrolled(f, Writes(f, e.at, a));
    }
  }

  /**
   While a returned claim still owns its lease, nobody else changes anything of its job but
   the lease's expiry, the heartbeat and the checkpoint: the job stays running and no
   terminal record appears, unless the claim itself publishes one.
   */
  lemma {:induction false} OwnerUndisturbed(h: seq<Event>, i: nat, c: JobClaim, at: int)
    requires IsHistory(h) && Consistent(h) && i <= |h| && IsHistory(h[..i]) && c in End(h[..i]).issued
    requires UnpublishedSince(h, i, c) && End(h).now <= at && Owns(End(h).files, at, c)
    requires End(h[..i]).files.running.Some? && !HasTerminal(End(h[..i]).files)
    ensures var f, f' := End(h[..i]).files, End(h).files;
      f'.(lease := f.lease, heartbeat := f.heartbeat, checkpoint := f.checkpoint) == f
    decreases |h|
  {
    if i == |h| {
      assert h[..i] == h;
    } else {
      var p, e := h[..|h| - 1], h[|h| - 1];
      assert p[..i] == h[..i];
      IssuedGrows(p, i);
      FenceHolds(p);
      if !Owns(End(p).files, e.at, c) { LostOnce(End(p), e, c, e.at); }
      OwnerUndisturbed(p, i, c, e.at);
      LiveStep(p, e, c);
    }
  }

  /** The claim was handed out in `h`, its job is running, and nothing has ended the job. */
  ghost predicate Handling(h: seq<Event>, c: JobClaim) {
    IsHistory(h) && c in End(h).issued && End(h).files.running.Some? && !HasTerminal(End(h).files)
  }

  /** So a live claim that has not published anything finds its job running. */
  lemma StillRunning(objects: Objects, past: Histories, now: int, tokens: set<nat>, h: seq<Event>, c: JobClaim, at: int)
    requires Coherent(objects, past, now, tokens) && now <= at && Owns(FilesOf(objects, c.job.id), at, c)
    requires Handling(h, c) && Unpublished(h, PastOf(past, c.job.id), c)
    ensures FilesOf(objects, c.job.id).running.Some?
  {
    var h' := PastOf(past, c.job.id);
    assert Recorded(c.job.id, FilesOf(objects, c.job.id), h', now, tokens);
    OwnerUndisturbed(h', |h|, c, at);
  }

  /** A call of this run hands no claim out and takes none back. */
  lemma OwnCallKeeps(objects: Objects, objects': Objects, past: Histories, past': Histories, now: int, now': int,
                     tokens: set<nat>, w: World, c: JobClaim, a: Action, at: int)
    requires Plausible(past, now, tokens, w, c) && Elsewhere(c.job.id, objects, objects', past, past') && now' <= w.time
    requires Interrupted(PastOf(past, c.job.id), PastOf(past', c.job.id), a, at)
    ensures Plausible(past', now', tokens, w, c)
  {
    forall k | IssuedIn(past, k) ensures IssuedIn(past', k) {
      if k.job.id != c.job.id { assert PastOf(past', k.job.id) == PastOf(past, k.job.id); }
    }
  }

  lemma NotPublished(past: Histories, past': Histories, c: JobClaim)
    requires AllContinue(past, past', c)
    ensures Unpublished(PastOf(past, c.job.id), PastOf(past', c.job.id), c)
  {
    assert Continues(PastOf(past, c.job.id), PastOf(past', c.job.id), c);
  }

  lemma SavePublishesNothing(h: seq<Event>, m: seq<Event>, h': seq<Event>, c: JobClaim, sequence: nat, at: int)
    requires Unpublished(h, m, c) && Interrupted(m, h', Saving(c, sequence), at)
    ensures Unpublished(h, h', c)
  {
    UnpublishedOne(m, h', Saving(c, sequence), at, c);
    UnpublishedTransitive(h, m, h', c);
  }

  /**
   `ensure_ownership` and the next checkpoint.  Its number is one more than the stored one
   as long as the claim is live, so the queue never refuses it as stale.
   */
  method SaveNext(queue: DriveQueue, w: World, c: JobClaim, sequence: int)
    returns (r: Result<int, QueueError>, w': World)
    requires queue.Valid() && Plausible(queue.past, queue.now, queue.tokens, w, c)
    requires sequence == StoredSequence(queue.Files(c.job.id))
    modifies queue
    ensures queue.Valid() && Plausible(queue.past, queue.now, queue.tokens, w', c)
    ensures r.Ok? ==> r.value == sequence + 1 == StoredSequence(queue.Files(c.job.id))
    ensures r.Err? ==> r.error in {LostLease, StorageFault}
    ensures r == Err(LostLease) ==> w'.beatFailed || !Owns(queue.Files(c.job.id), w'.time, c)
    ensures r.Ok? ==> !w'.beatFailed && Owns(queue.Files(c.job.id), w'.time, c)
    ensures Healthy(old(queue.faults)) ==> Healthy(queue.faults) && r != Err(StorageFault)
    ensures Unpublished(old(queue.Past(c.job.id)), queue.Past(c.job.id), c)
  {
    hide Coherent, AllContinue, Interrupted, Elsewhere, Unpublished, Healthy;
    ghost var objects, past, now, tokens := queue.objects, queue.past, queue.now, queue.tokens;
    w' := Meanwhile(queue, w, c);
    NotPublished(past, queue.past, c);
    if w'.beatFailed || !Owns(queue.Files(c.job.id), w'.time, c) {
      return Err(LostLease), w';
    }
    CheckpointUntouched(objects, past, queue.objects, queue.past, now, queue.now, tokens, queue.tokens, c, w'.time);
    ghost var before, beforePast, beforeNow := queue.objects, queue.past, queue.now;
    var saved := queue.Checkpoint(c, c.job.id, sequence + 1, w'.time);
    OwnCallKeeps(before, queue.objects, beforePast, queue.past, beforeNow, queue.now, queue.tokens, w', c,
                 Saving(c, sequence + 1), w'.time);
    SavePublishesNothing(PastOf(past, c.job.id), PastOf(beforePast, c.job.id), PastOf(queue.past, c.job.id), c,
                         sequence + 1, w'.time);
    if saved.Err? {
      return Err(saved.error), w';
    }
    return Ok(sequence + 1), w';
  }

  /**
   `queue.complete`, `fail` or `block`; `looks` when the run looks at its lease once more
   before.  `h` is the history when the claim was handed out.
   */
  method Settle(queue: DriveQueue, w: World, c: JobClaim, status: Terminal, looks: bool, ghost h: seq<Event>)
    returns (r: Result<(), QueueError>, w': World)
    requires queue.Valid() && Plausible(queue.past, queue.now, queue.tokens, w, c)
    modifies queue
    ensures queue.Valid() && Plausible(queue.past, queue.now, queue.tokens, w', c)
    ensures r.Ok? ==> TerminalOf(queue.Files(c.job.id), status) == Some(TerminalRecord(c.job, c.attempt))
    ensures r.Ok? ==> queue.Files(c.job.id).running.None? && queue.Files(c.job.id).lease.None?
    ensures r.Ok? ==> StoredSequence(queue.Files(c.job.id)) == StoredSequence(old(queue.Files(c.job.id)))
    ensures r.Err? ==> r.error in {LostLease, NotRunning, StorageFault}
    ensures r == Err(LostLease) ==> (looks && w'.beatFailed) || !Owns(queue.Files(c.job.id), w'.time, c)
    ensures looks && w'.beatFailed ==> r == Err(LostLease)
    ensures !looks ==> queue.now == w'.time
    ensures r == Err(LostLease) ==> Unpublished(old(queue.Past(c.job.id)), queue.Past(c.job.id), c)
    ensures Healthy(old(queue.faults)) ==> Healthy(queue.faults) && r != Err(StorageFault)
    ensures Handling(h, c) && Unpublished(h, old(queue.Past(c.job.id)), c) ==> r != Err(NotRunning)
  {
    hide Coherent, AllContinue, Interrupted, Elsewhere, Unpublished, Healthy, Handling;
    ghost var objects, past, now, tokens := queue.objects, queue.past, queue.now, queue.tokens;
    w' := Meanwhile(queue, w, c);
    NotPublished(past, queue.past, c);
    if looks && (w'.beatFailed || !Owns(queue.Files(c.job.id), w'.time, c)) {
      return Err(LostLease), w';
    }
    if Owns(queue.Files(c.job.id), w'.time, c) {
      CheckpointUntouched(objects, past, queue.objects, queue.past, now, queue.now, tokens, queue.tokens, c, w'.time);
      if Handling(h, c) && Unpublished(h, PastOf(past, c.job.id), c) {
        UnpublishedTransitive(h, PastOf(past, c.job.id), queue.Past(c.job.id), c);
        StillRunning(queue.objects, queue.past, queue.now, queue.tokens, h, c, w'.time);
      }
    }
    ghost var before, beforePast, beforeNow := queue.objects, queue.past, queue.now;
    r := queue.Finish(c, status, w'.time);
    OwnCallKeeps(before, queue.objects, beforePast, queue.past, beforeNow, queue.now, queue.tokens, w', c,
                 Finishing(c, status), w'.time);
  }

  function TerminalOf(f: JobFiles, status: Terminal): Option<TerminalRecord> {
    match status
    case Completed => f.completed
    case Failed => f.failed
    case Blocked => f.blocked
  }

  /** What `run_one` leaves behind when it says so. */
  ghost predicate Delivered(f: JobFiles, r: RunResult) {
    match r
    case Succeeded(c, sequence) =>
      f.completed == Some(TerminalRecord(c.job, c.attempt)) && StoredSequence(f) == sequence && f.lease.None?
    case FailedRun(c) => f.failed == Some(TerminalRecord(c.job, c.attempt)) && f.lease.None?
    case Parked(c) => f.blocked == Some(TerminalRecord(c.job, c.attempt)) && f.lease.None?
    case _ => true
  }

  /** Staging, the entrypoint with its periodic checkpoints, and the final checkpoint. */
  method Work(queue: DriveQueue, w: World, c: JobClaim) returns (r: Result<int, QueueError>, w': World)
    requires queue.Valid() && Plausible(queue.past, queue.now, queue.tokens, w, c)
    modifies queue
    ensures queue.Valid() && Plausible(queue.past, queue.now, queue.tokens, w', c)
    ensures r.Ok? ==>
      r.value == StoredSequence(queue.Files(c.job.id)) >= StoredSequence(old(queue.Files(c.job.id))) + 2
    ensures r.Err? ==> r.error in {LostLease, StorageFault}
    ensures r == Err(LostLease) ==> w'.beatFailed || !Owns(queue.Files(c.job.id), w'.time, c)
    ensures Healthy(old(queue.faults)) ==> Healthy(queue.faults) && r != Err(StorageFault)
    ensures Unpublished(old(queue.Past(c.job.id)), queue.Past(c.job.id), c)
  {
    hide Plausible, Coherent, StoredSequence, Unpublished, Healthy;
    var sequence := StoredSequence(queue.Files(c.job.id));
    ghost var start := queue.Past(c.job.id);
    r, w' := SaveNext(queue, w, c, sequence);
    var periods: nat := *;
    while periods > 0 && r.Ok?
      invariant queue.Valid() && Plausible(queue.past, queue.now, queue.tokens, w', c)
      invariant r.Ok? ==> r.value == StoredSequence(queue.Files(c.job.id)) >= sequence + 1
      invariant r.Err? ==> r.error in {LostLease, StorageFault}
      invariant r == Err(LostLease) ==> w'.beatFailed || !Owns(queue.Files(c.job.id), w'.time, c)
      invariant Healthy(old(queue.faults)) ==> Healthy(queue.faults) && r != Err(StorageFault)
      invariant Unpublished(start, queue.Past(c.job.id), c)
    {
      ghost var middle := queue.Past(c.job.id);
      r, w' := SaveNext(queue, w', c, r.value);
      UnpublishedTransitive(start, middle, queue.Past(c.job.id), c);
      periods := periods - 1;
    }
    if r.Ok? {
      ghost var middle := queue.Past(c.job.id);
      r, w' := SaveNext(queue, w', c, r.value);
      UnpublishedTransitive(start, middle, queue.Past(c.job.id), c);
    }
  }

  /**
   `run_one` after its claim.  A lost lease publishes nothing, and it is reported only when
   the heartbeat failed or the lease is another's or over; any other error fails the job,
   and none of these errors is a refused checkpoint number.  Without storage errors a claim
   just handed out ends completed, failed or lost.
   */
  method Execute(queue: DriveQueue, w: World, c: JobClaim) returns (r: RunResult, w': World)
    requires queue.Valid() && Plausible(queue.past, queue.now, queue.tokens, w, c)
    modifies queue
    ensures queue.Valid() && ClaimOf(r) == Some(c) && Delivered(queue.Files(c.job.id), r)
    ensures r.Succeeded? || r.FailedRun? || r.Lost? || r.Unsettled?
    ensures r.Succeeded? ==> r.sequence >= StoredSequence(old(queue.Files(c.job.id))) + 2
    ensures r.Lost? ==> Unpublished(old(queue.Past(c.job.id)), queue.Past(c.job.id), c)
    ensures r.Lost? ==> w'.beatFailed || !Owns(queue.Files(c.job.id), w'.time, c)
    ensures Healthy(old(queue.faults)) && Handling(old(queue.Past(c.job.id)), c) ==> !r.Unsettled?
  {
    hide Plausible, Coherent, StoredSequence, Unpublished, Healthy, Handling;
    var worked;
    worked, w' := Work(queue, w, c);
    ghost var middle := queue.Past(c.job.id);
    var error := if worked.Err? then worked.error else StorageFault;
    if worked.Ok? {
      var succeeds: bool, settled: Result<(), QueueError> := *, Err(StorageFault);
      settled, w' := Settle(queue, w', c, if succeeds then Completed else Failed, true, old(queue.Past(c.job.id)));
      if settled.Ok? {
        return if succeeds then Succeeded(c, worked.value) else FailedRun(c), w';
      }
      error := settled.error;
      if error == LostLease {
        UnpublishedTransitive(old(queue.Past(c.job.id)), middle, queue.Past(c.job.id), c);
      }
    }
    if error == LostLease {
      return Lost(c), w';
    }
    var failed: Result<(), QueueError>;
    failed, w' := Settle(queue, w', c, Failed, false, old(queue.Past(c.job.id)));
    return if failed.Ok? then FailedRun(c) else Unsettled(c), w';
  }

  /** Claims handed out earlier carry earlier tokens. */
  lemma EarlierToken(objects: Objects, past: Histories, now: int, tokens: set<nat>, k: JobClaim)
    requires Coherent(objects, past, now, tokens) && IssuedIn(past, k)
    ensures k.token in tokens
  {
    var h := PastOf(past, k.job.id);
    assert Recorded(k.job.id, FilesOf(objects, k.job.id), h, now, tokens);
    FenceHolds(h);
    var i :| 0 <= i < |End(h).issued| && End(h).issued[i] == k;
  }

  lemma FirstPlausible(objects: Objects, past: Histories, past': Histories, now: int, now': int,
                       tokens: set<nat>, tokens': set<nat>, w: World, c: JobClaim)
    requires Coherent(objects, past, now, tokens) && AllContinue(past, past', c) && IssuedIn(past', c)
    requires now' <= w.time && c.token + 1 == w.nextToken && tokens' == tokens + {c.token}
    requires forall t | t in tokens :: t < c.token
    requires forall k | k in w.claims :: IssuedIn(past, k)
    ensures Plausible(past', now', tokens', w, c)
  {
    forall k | k in w.claims ensures IssuedIn(past', k) && k != c {
      EarlierToken(objects, past, now, tokens, k);
      StaysIssued(past, past', k, c);
    }
  }

  /** `run_one`. */
  method RunOne(queue: DriveQueue, time: int, nextToken: nat, claims: seq<JobClaim>, rc: Resource, owner: string,
                ttl: int)
    returns (r: RunResult)
    requires queue.Valid() && queue.now <= time && forall t | t in queue.tokens :: t < nextToken
    requires forall k | k in claims :: IssuedIn(queue.past, k)
    modifies queue
    ensures queue.Valid()
    ensures r == Idle ==> forall i :: var f := FilesOf(old(queue.objects), i);
      rc in f.queued && !HasTerminal(f) && !LiveLease(f, time) ==>
        f.queued[rc].attempt >= f.queued[rc].job.maxAttempts
    ensures ClaimOf(r).Some? ==>
      var c := ClaimOf(r).value;
      var f := FilesOf(old(queue.objects), c.job.id);
      && rc in f.queued && f.queued[rc] == QueuedRecord(c.job, c.attempt) && !HasTerminal(f) && !LiveLease(f, time)
      && c.owner == owner && c.token == nextToken && Delivered(queue.Files(c.job.id), r)
    ensures Healthy(old(queue.faults)) ==> !r.Unsettled?
    ensures ttl <= 0 ==> r == QueueRaised
    ensures Healthy(old(queue.faults)) && ttl > 0 ==> r != QueueRaised
    ensures Healthy(old(queue.faults)) && r.ParkRaised? ==> !Owns(queue.Files(r.claim.job.id), queue.now, r.claim)
  {
    hide Coherent, AllInterrupted, HandedOut, AllContinue, Plausible, Delivered, StoredSequence, Healthy, Handling,
         Unpublished;
    ghost var objects, past, now, tokens := queue.objects, queue.past, queue.now, queue.tokens;
    var claimed := queue.Claim(rc, owner, nextToken, ttl, time);
    if claimed.Err? {
      return QueueRaised;
    }
    if claimed.value.None? {
      return Idle;
    }
    var c, w := claimed.value.value, World(time, nextToken + 1, claims, false);
    ghost var sw := ClaimSweep(rc, owner, nextToken, ttl);
    GrantContinues(FilesOf(objects, c.job.id), FilesOf(queue.objects, c.job.id), past, queue.past, sw, time, c.job.id,
                   c, c);
    FirstPlausible(objects, past, queue.past, now, queue.now, tokens, queue.tokens, w, c);
    JustHandedOut(queue.objects, queue.past, queue.now, queue.tokens, c);
    UnpublishedReflexive(queue.Past(c.job.id), c);
    var blocked: bool := *;
    if blocked {
      var parked, _ := Settle(queue, w, c, Blocked, false, queue.Past(c.job.id));
      if parked.Err? {
        OthersDelivered(queue.Files(c.job.id), c);
        return ParkRaised(c);
      }
      ParkedDelivered(queue.Files(c.job.id), c);
      return Parked(c);
    }
    var w';
    r, w' := Execute(queue, w, c);
  }

  lemma JustHandedOut(objects: Objects, past: Histories, now: int, tokens: set<nat>, c: JobClaim)
    requires Coherent(objects, past, now, tokens) && IssuedIn(past, c)
    requires FilesOf(objects, c.job.id).running.Some? && !HasTerminal(FilesOf(objects, c.job.id))
    ensures Handling(PastOf(past, c.job.id), c)
  {
    assert Recorded(c.job.id, FilesOf(objects, c.job.id), PastOf(past, c.job.id), now, tokens);
  }

  lemma OthersDelivered(f: JobFiles, c: JobClaim)
    ensures Delivered(f, ParkRaised(c))
  {
  }

  lemma ParkedDelivered(f: JobFiles, c: JobClaim)
    requires f.blocked == Some(TerminalRecord(c.job, c.attempt)) && f.lease.None?
    ensures Delivered(f, Parked(c))
  {
  }
}
