/**
 All jobs together: the backend's objects by job, and beside them the history of each job.
 `Coherent` says that every job's objects are those its history leads to.
 */
module QueueTrace {
  import opened Wrappers
  import opened QueueProtocol
  import opened QueueTheorems

  type Objects = map<string, JobFiles>
  type Histories = map<string, seq<Event>>

  function FilesOf(objects: Objects, id: string): JobFiles {
    if id in objects then objects[id] else NO_FILES
  }

  ghost function PastOf(past: Histories, id: string): seq<Event> {
    if id in past then past[id] else []
  }

  /** A job's history within the queue's clock and token supply. */
  ghost predicate Traced(id: string, h: seq<Event>, now: int, tokens: set<nat>) {
    && IsHistory(h) && Consistent(h)
    && End(h).now <= now && End(h).used <= tokens
    && (End(h).job.Some? ==> End(h).job.value.id == id)
  }

  ghost predicate Recorded(id: string, f: JobFiles, h: seq<Event>, now: int, tokens: set<nat>) {
    Traced(id, h, now, tokens) && End(h).files == f
  }

  ghost predicate Coherent(objects: Objects, past: Histories, now: int, tokens: set<nat>) {
    forall id {:trigger FilesOf(objects, id)} {:trigger PastOf(past, id)} ::
      Recorded(id, FilesOf(objects, id), PastOf(past, id), now, tokens)
  }

  /** Nothing but job `id` differs. */
  ghost predicate Elsewhere(id: string, objects: Objects, objects': Objects, past: Histories, past': Histories) {
    forall i {:trigger FilesOf(objects', i)} {:trigger PastOf(past', i)} | i != id ::
      FilesOf(objects', i) == FilesOf(objects, i) && PastOf(past', i) == PastOf(past, i)
  }

  /** An operation on job `id` that started from files `before` and is to make `writes`. */
  datatype Op = Op(id: string, action: Action, before: JobFiles, writes: seq<Write>)

  /** In the middle of `op`: `done` of its writes are made, and every other job is settled. */
  ghost predicate Midway(objects: Objects, past: Histories, now: int, tokens: set<nat>, op: Op, done: nat) {
    var Op(id, a, f, ws) := op;
    && (forall i {:trigger FilesOf(objects, i)} {:trigger PastOf(past, i)} | i != id ::
          Recorded(i, FilesOf(objects, i), PastOf(past, i), now, tokens))
    && Traced(id, PastOf(past, id), now, tokens)
    && f == End(PastOf(past, id)).files && ws == Writes(f, now, a)
    && done <= |ws| && FilesOf(objects, id) == ApplyFirst(f, ws, done)
    && (a.Submitting? ==> a.job.id == id)
    && (a.Claiming? ==> a.token in tokens && a.token !in End(PastOf(past, id)).used)
    && (a.Beating? || a.Saving? || a.Finishing? ==> a.claim in End(PastOf(past, id)).issued)
  }

  /** `h'` is `h` with at most one more event, a possibly interrupted `a` at time `at`. */
  ghost predicate Extended(h: seq<Event>, h': seq<Event>, a: Action, at: int) {
    h' == h || (|h'| == |h| + 1 && h'[..|h|] == h && h'[|h|].Act? && h'[|h|].action == a && h'[|h|].at == at)
  }

  function Full(f: JobFiles, a: Action, at: int): JobFiles {
    ApplyFirst(f, Writes(f, at, a), |Writes(f, at, a)|)
  }

  /** The operation was interrupted on this job, if it touched it at all; no claim was returned. */
  ghost predicate Interrupted(h: seq<Event>, h': seq<Event>, a: Action, at: int) {
    IsHistory(h) && IsHistory(h') && Extended(h, h', a, at) && End(h').issued == End(h).issued
  }

  /** The operation ran to its end on this job and handed no claim out. */
  ghost predicate Handled(f: JobFiles, f': JobFiles, h: seq<Event>, h': seq<Event>, a: Action, at: int) {
    Interrupted(h, h', a, at) && f' == Full(f, a, at)
  }

  /** The operation ran to its end on this job and returned claim `c`. */
  ghost predicate HandedOut(f: JobFiles, f': JobFiles, h: seq<Event>, h': seq<Event>, a: Action, at: int, c: JobClaim) {
    && IsHistory(h) && IsHistory(h') && Extended(h, h', a, at)
    && a.Claiming? && Grants(f, at, a) && c == GrantedClaim(f, a)
    && f' == Full(f, a, at)
    && End(h').issued == End(h).issued + [c]
  }

  // ---------- One operation on one job ----------

  lemma NothingToDo(f: JobFiles, h: seq<Event>, a: Action, at: int)
    requires IsHistory(h) && Writes(f, at, a) == []
    ensures Handled(f, f, h, h, a, at)
  {
  }

  lemma TickKeeps(objects: Objects, past: Histories, now: int, at: int, tokens: set<nat>, tokens': set<nat>)
    requires Coherent(objects, past, now, tokens) && now <= at && tokens <= tokens'
    ensures Coherent(objects, past, at, tokens')
  {
    forall i ensures Recorded(i, FilesOf(objects, i), PastOf(past, i), at, tokens') {
      assert Recorded(i, FilesOf(objects, i), PastOf(past, i), now, tokens);
    }
  }

  lemma BeginMidway(objects: Objects, past: Histories, now: int, tokens: set<nat>, id: string, a: Action)
    requires Coherent(objects, past, now, tokens)
    requires a.Submitting? ==> a.job.id == id
    requires IsHistory(PastOf(past, id))
    requires a.Claiming? ==> a.token in tokens && a.token !in End(PastOf(past, id)).used
    requires a.Beating? || a.Saving? || a.Finishing? ==> a.claim in End(PastOf(past, id)).issued
    ensures Midway(objects, past, now, tokens, Op(id, a, FilesOf(objects, id), Writes(FilesOf(objects, id), now, a)), 0)
  {
    assert Recorded(id, FilesOf(objects, id), PastOf(past, id), now, tokens);
  }

  lemma WriteMidway(objects: Objects, past: Histories, now: int, tokens: set<nat>, op: Op, done: nat)
    requires Midway(objects, past, now, tokens, op, done) && done < |op.writes|
    ensures Midway(objects[op.id := Apply(FilesOf(objects, op.id), op.writes[done])], past, now, tokens, op, done + 1)
  {
    hide Apply, Writes, End, IsHistory, Recorded;
    var objects' := objects[op.id := Apply(FilesOf(objects, op.id), op.writes[done])];
    forall i | i != op.id
      ensures FilesOf(objects', i) == FilesOf(objects, i)
      ensures Recorded(i, FilesOf(objects', i), PastOf(past, i), now, tokens)
    {
    }
  }

  /** The event of an operation that stops after `done` writes is added to the job's history. */
  lemma StopKeeps(objects: Objects, past: Histories, now: int, tokens: set<nat>, op: Op, done: nat, returned: bool)
    requires Midway(objects, past, now, tokens, op, done)
    ensures var h, e := PastOf(past, op.id), Act(op.action, now, done, returned);
      && IsHistory(h) && Enabled(End(h), e)
      && var past' := past[op.id := h + [e]];
        && Coherent(objects, past', now, tokens)
        && Elsewhere(op.id, objects, objects, past, past')
        && IsHistory(PastOf(past', op.id)) && Extended(h, PastOf(past', op.id), op.action, now)
        && End(PastOf(past', op.id)) == After(End(h), e)
  {
    hide Apply, Writes, End, IsHistory, ApplyFirst, Hands;
    var h, e := PastOf(past, op.id), Act(op.action, now, done, returned);
    Extend(h, e);
    var past' := past[op.id := h + [e]];
    assert Recorded(op.id, FilesOf(objects, op.id), PastOf(past', op.id), now, tokens);
    forall i | i != op.id
      ensures PastOf(past', i) == PastOf(past, i)
      ensures Recorded(i, FilesOf(objects, i), PastOf(past', i), now, tokens)
    {
    }
  }

  /** The history of `op`'s job with the event of this run of `op` appended. */
  ghost function Logged(past: Histories, op: Op, now: int, done: nat, returned: bool): Histories {
    past[op.id := PastOf(past, op.id) + [Act(op.action, now, done, returned)]]
  }

  /** An operation cut anywhere has interrupted the job. */
  lemma AbortKeeps(objects: Objects, past: Histories, now: int, tokens: set<nat>, op: Op, done: nat)
    requires Midway(objects, past, now, tokens, op, done)
    ensures var past' := Logged(past, op, now, done, false);
      && Coherent(objects, past', now, tokens)
      && Elsewhere(op.id, objects, objects, past, past')
      && Interrupted(PastOf(past, op.id), PastOf(past', op.id), op.action, now)
  {
    StopKeeps(objects, past, now, tokens, op, done, false);
  }

  /** How a completed operation leaves its job: handled, or handed out. */
  ghost predicate Completes(op: Op, f: JobFiles, h: seq<Event>, h': seq<Event>, at: int) {
    if op.action.Claiming? && Grants(op.before, at, op.action)
    then HandedOut(op.before, f, h, h', op.action, at, GrantedClaim(op.before, op.action))
    else Handled(op.before, f, h, h', op.action, at)
  }

  lemma ConcludeKeeps(objects: Objects, past: Histories, now: int, tokens: set<nat>, op: Op)
    requires Midway(objects, past, now, tokens, op, |op.writes|)
    ensures var past' := Logged(past, op, now, |op.writes|, true);
      && Coherent(objects, past', now, tokens)
      && Elsewhere(op.id, objects, objects, past, past')
      && Completes(op, FilesOf(objects, op.id), PastOf(past, op.id), PastOf(past', op.id), now)
  {
    StopKeeps(objects, past, now, tokens, op, |op.writes|, true);
  }

  // ---------- One sweep over many jobs ----------

  /** An operation that lists jobs and works through them one by one. */
  datatype Sweep =
    | ClaimSweep(resource: Resource, owner: string, token: nat, ttl: int)
    | ReclaimSweep
    | ResumeSweep(cleared: set<string>)

  function On(sw: Sweep, id: string): Action {
    match sw
    case ClaimSweep(rc, owner, token, ttl) => Claiming(rc, owner, token, ttl)
    case ReclaimSweep => Reclaiming
    case ResumeSweep(cleared) => Resuming(id in cleared)
  }

  /** The jobs `ids` are handled, the others untouched. */
  ghost predicate Swept(objects: Objects, objects': Objects, past: Histories, past': Histories,
                        sw: Sweep, at: int, ids: set<string>)
  {
    forall i {:trigger FilesOf(objects', i)} {:trigger PastOf(past', i)} ::
      if i in ids
      then Handled(FilesOf(objects, i), FilesOf(objects', i), PastOf(past, i), PastOf(past', i), On(sw, i), at)
      else FilesOf(objects', i) == FilesOf(objects, i) && PastOf(past', i) == PastOf(past, i)
  }

  /** The sweep ran to its end. */
  ghost predicate AllHandled(objects: Objects, objects': Objects, past: Histories, past': Histories,
                             sw: Sweep, at: int)
  {
    forall i :: Handled(FilesOf(objects, i), FilesOf(objects', i), PastOf(past, i), PastOf(past', i), On(sw, i), at)
  }

  /** The sweep was cut somewhere; nothing but `except` may have been handed out. */
  ghost predicate AllInterrupted(past: Histories, past': Histories, sw: Sweep, at: int, except: set<string>) {
    forall i | i !in except :: Interrupted(PastOf(past, i), PastOf(past', i), On(sw, i), at)
  }

  lemma SweepStarts(objects: Objects, past: Histories, sw: Sweep, at: int, keys: seq<string>)
    ensures (set i | i in keys[..0]) == {} && Swept(objects, objects, past, past, sw, at, {})
  {
  }

  lemma SweepOne(objects: Objects, mid: Objects, objects': Objects,
                 past: Histories, pastMid: Histories, past': Histories,
                 sw: Sweep, at: int, ids: set<string>, id: string)
    requires Swept(objects, mid, past, pastMid, sw, at, ids) && id !in ids
    requires Elsewhere(id, mid, objects', pastMid, past')
    requires Handled(FilesOf(mid, id), FilesOf(objects', id), PastOf(pastMid, id), PastOf(past', id), On(sw, id), at)
    ensures Swept(objects, objects', past, past', sw, at, ids + {id})
  {
    hide Handled;
    forall i
      ensures if i in ids + {id}
        then Handled(FilesOf(objects, i), FilesOf(objects', i), PastOf(past, i), PastOf(past', i), On(sw, i), at)
        else FilesOf(objects', i) == FilesOf(objects, i) && PastOf(past', i) == PastOf(past, i)
    {
      var _ := (FilesOf(mid, i), PastOf(pastMid, i));
    }
  }

  /** A sweep that visited every job with something to do has handled every job. */
  lemma SweepEnds(objects: Objects, objects': Objects, past: Histories, past': Histories,
                  now: int, tokens: set<nat>, sw: Sweep, at: int, ids: set<string>)
    requires Coherent(objects, past, now, tokens)
    requires Swept(objects, objects', past, past', sw, at, ids)
    requires forall i | i !in ids :: Writes(FilesOf(objects, i), at, On(sw, i)) == []
    ensures AllHandled(objects, objects', past, past', sw, at)
    ensures AllInterrupted(past, past', sw, at, {})
  {
    hide Writes, End, IsHistory;
    forall i
      ensures Handled(FilesOf(objects, i), FilesOf(objects', i), PastOf(past, i), PastOf(past', i), On(sw, i), at)
    {
      if i !in ids {
        assert Recorded(i, FilesOf(objects, i), PastOf(past, i), now, tokens);
      }
    }
  }

  /** A sweep that stops at job `id` has at most interrupted the operation on every other job. */
  lemma SweepBreaks(objects: Objects, mid: Objects, objects': Objects,
                    past: Histories, pastMid: Histories, past': Histories,
                    now: int, tokens: set<nat>, sw: Sweep, at: int, ids: set<string>, id: string)
    requires Coherent(objects, past, now, tokens)
    requires Swept(objects, mid, past, pastMid, sw, at, ids) && id !in ids
    requires Elsewhere(id, mid, objects', pastMid, past')
    ensures AllInterrupted(past, past', sw, at, {id})
    ensures Interrupted(PastOf(pastMid, id), PastOf(past', id), On(sw, id), at) ==>
      AllInterrupted(past, past', sw, at, {})
  {
    hide End, IsHistory;
    Unvisited(objects, mid, past, pastMid, now, tokens, sw, at, ids, id);
    forall i | i != id ensures Interrupted(PastOf(past, i), PastOf(past', i), On(sw, i), at) {
      assert Recorded(i, FilesOf(objects, i), PastOf(past, i), now, tokens);
      var _ := (FilesOf(mid, i), PastOf(pastMid, i), FilesOf(objects', i));
    }
  }

  /** A job the sweep has not reached yet. */
  lemma Unvisited(objects: Objects, mid: Objects, past: Histories, pastMid: Histories,
                  now: int, tokens: set<nat>, sw: Sweep, at: int, ids: set<string>, id: string)
    requires Coherent(objects, past, now, tokens)
    requires Swept(objects, mid, past, pastMid, sw, at, ids) && id !in ids
    ensures FilesOf(mid, id) == FilesOf(objects, id) && PastOf(pastMid, id) == PastOf(past, id)
    ensures IsHistory(PastOf(past, id)) && End(PastOf(past, id)).used <= tokens
  {
    assert Recorded(id, FilesOf(objects, id), PastOf(past, id), now, tokens);
    var _ := (FilesOf(mid, id), PastOf(pastMid, id));
  }
}
