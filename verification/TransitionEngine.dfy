/** The run table with its journal, and the engine that moves a run while other engines do the same. */
module TransitionEngines {
  import opened Wrappers
  import opened Texts
  import opened Workflows

  datatype EngineError =
    | NotFound | Stale | EmptyReason | IllegalTransition | TerminalRun | NeedsFailureClass | NotResumable

  /** Why a move from the state that was read is refused; `Stale` when only the compare-and-set can refuse it. */
  function Refusal(from: State, to: State, reason: string, failure: Option<ErrorClass>,
                   stopReason: Option<string>): EngineError
  {
    if from in TERMINAL_STATES then TerminalRun
    else if to !in LegalTransitions(from) then IllegalTransition
    else if to == Failed && (failure.None? || Blank(KeptReason(to, reason, stopReason).value)) then NeedsFailureClass
    else if Blank(reason) then EmptyReason
    else Stale
  }

  lemma RefusalIs(from: State, to: State, reason: string, failure: Option<ErrorClass>, stopReason: Option<string>)
    ensures
      var kept := if stopReason.Some? && stopReason.value != "" then stopReason.value else reason;
      Refusal(from, to, reason, failure, stopReason) ==
        if from in TERMINAL_STATES then TerminalRun
        else if to !in LegalTransitions(from) then IllegalTransition
        else if to == Failed && (failure.None? || Blank(kept)) then NeedsFailureClass
        else if Blank(reason) then EmptyReason
        else Stale
  {
  }

  lemma AllowedIs(from: State, to: State, reason: string, failure: Option<ErrorClass>, stopReason: Option<string>)
    ensures
      var kept := if stopReason.Some? && stopReason.value != "" then stopReason.value else reason;
      Allowed(from, to, reason, failure, stopReason) <==>
        && from !in TERMINAL_STATES && to in LegalTransitions(from) && !Blank(reason)
        && (to == Failed ==> failure.Some? && !Blank(kept))
  {
  }

  lemma MovedIs(s: Snapshot, to: State, reason: string, failure: Option<ErrorClass>, stopReason: Option<string>)
    ensures
      var kept := if stopReason.Some? && stopReason.value != "" then stopReason else Some(reason);
      && Moved(s, to, reason, failure, stopReason).row ==
         RunRow(to,
                if to in PAUSED_STATES then Some(s.row.state) else None,
                if to in {Failed, Cancelled} then kept else None,
                if to in {Failed, Cancelled} then failure else None)
      && Moved(s, to, reason, failure, stopReason).events ==
         s.events + [Event(|s.events|, Move(s.row.state, to), reason)]
  {
  }

  /** The rows of one run in the `runs` and `events` tables. */
  class RunStore {
    var run: Option<RunRow>
    var events: seq<Event>

    ghost predicate Valid()
      reads this
    {
      if run.Some? then Inv(Snapshot(run.value, events)) else events == []
    }

    ghost function Stored(): Snapshot
      requires run.Some?
      reads this
    {
      Snapshot(run.value, events)
    }

    constructor ()
      ensures Valid() && run == None
    {
      run, events := None, [];
    }

    /** `COALESCE(MAX(sequence), -1) + 1` */
    method NextSequence() returns (next: nat)
      requires Numbered(events)
      ensures next == |events|
    {
      var highest: int := -1;
      for i := 0 to |events|
        invariant highest == i - 1
      {
        if events[i].sequence > highest {
          highest := events[i].sequence;
        }
      }
      next := highest + 1;
    }

    /** `_append_event_tx`. */
    method AppendEvent(entry: Entry, reason: string)
      requires Numbered(events)
      modifies `events
      ensures events == old(events) + [Event(|old(events)|, entry, reason)]
    {
      var next := NextSequence();
      events := events + [Event(next, entry, reason)];
    }

    method CreateRun() returns (r: RunRow)
      requires Valid() && run.None?
      modifies this
      ensures Valid() && run == Some(r) && r == NEW_RUN
      ensures events == [Event(0, Note, "run created")]
    {
      r := NEW_RUN;
      AppendEvent(Note, "run created");
      run := Some(r);
      NotedKeeps(Snapshot(r, []), "run created");
      assert [] + [Event(0, Note, "run created")] == [Event(0, Note, "run created")];
    }

    /** `append_event`: an entry that does not move the run. */
    method Annotate(reason: string)
      requires Valid() && run.Some?
      modifies this
      ensures Valid() && run == old(run) && Stored() == Noted(old(Stored()), reason)
    {
      NotedKeeps(Stored(), reason);
      AppendEvent(Note, reason);
    }

    method GetRun() returns (r: Result<RunRow, EngineError>)
      ensures r == if run.Some? then Ok(run.value) else Err(NotFound)
    {
      return if run.Some? then Ok(run.value) else Err(NotFound);
    }

    /** `update_state`: a compare-and-set on the state, with its journal entry in the same transaction. */
    method UpdateState(from: State, to: State, reason: string, resume: Option<State>, stopReason: Option<string>,
                       failure: Option<ErrorClass>)
      returns (r: Result<(), EngineError>)
      requires run.Some? ==> Numbered(events)
      modifies this
      ensures r == Err(EmptyReason) <==> Blank(reason)
      ensures r == Err(NotFound) <==> !Blank(reason) && run.None?
      ensures r.Ok? <==> !Blank(reason) && old(run).Some? && old(run).value.state == from
      ensures r.Ok? || r.error in {EmptyReason, NotFound, Stale}
      ensures r.Ok? ==> run == Some(RunRow(to, resume, stopReason, failure))
                        && events == old(events) + [Event(|old(events)|, Move(from, to), reason)]
      ensures r.Err? ==> run == old(run) && events == old(events)
    {
      if Blank(reason) {
        return Err(EmptyReason);
      }
      if run.None? {
        return Err(NotFound);
      }
      if run.value.state != from {
        return Err(Stale);
      }
      run := Some(RunRow(to, resume, stopReason, failure));
      AppendEvent(Move(from, to), reason);
      return Ok(());
    }
  }

  /** The journal determines the state. */
  lemma SameJournal(a: Snapshot, b: Snapshot)
    requires Inv(a) && Inv(b) && a.events == b.events
    ensures a.row.state == b.row.state && a.row.resume == b.row.resume
  {
  }

  lemma TerminalNotAllowed(from: State, to: State, reason: string, failure: Option<ErrorClass>,
                           stopReason: Option<string>)
    ensures from in TERMINAL_STATES ==> !Allowed(from, to, reason, failure, stopReason)
  {
  }

  /** A run that is not over can be failed, and cancelled, with any reason that is not blank. */
  lemma AllowedStop(from: State, reason: string, errorClass: ErrorClass)
    ensures Allowed(from, Failed, reason, Some(errorClass), Some(reason)) <==>
      from !in TERMINAL_STATES && !Blank(reason)
    ensures Allowed(from, Cancelled, reason, None, None) <==> from !in TERMINAL_STATES && !Blank(reason)
  {
    CanStop(from);
    hide LegalTransitions;
  }

  lemma AllowedResume(from: State, to: State, reason: string)
    requires from in PAUSED_STATES && to in ACTIVE_STATES && to in LegalTransitions(from)
    ensures Allowed(from, to, reason, None, None) <==> !Blank(reason)
  {
  }

  lemma CanStop(state: State)
    ensures state !in TERMINAL_STATES ==> Failed in LegalTransitions(state) && Cancelled in LegalTransitions(state)
  {
  }

  lemma PausedHasResume(s: Snapshot)
    requires Inv(s)
    ensures s.row.state in PAUSED_STATES ==>
      s.row.resume.Some? && s.row.resume.value in ACTIVE_STATES && s.row.resume.value in LegalTransitions(s.row.state)
  {
  }

  class TransitionEngine {
    const store: RunStore

    constructor (store: RunStore)
      ensures this.store == store
    {
      this.store := store;
    }

    /** The check and the write of `transition`, once the record has been read as `current`. */
    method Commit(current: RunRow, to: State, reason: string, failure: Option<ErrorClass>, stopReason: Option<string>)
      returns (r: Result<(), EngineError>)
      requires store.Valid() && store.run.Some?
      modifies store
      ensures store.Valid() && store.run.Some?
      ensures r.Ok? <==>
        Allowed(current.state, to, reason, failure, stopReason) && old(store.run).value.state == current.state
      ensures store.Stored() ==
        if r.Ok? then Moved(old(store.Stored()), to, reason, failure, stopReason) else old(store.Stored())
      ensures r.Err? ==> r.error == Refusal(current.state, to, reason, failure, stopReason)
    {
      hide Inv, LegalTransitions, Blank;
      JournalNumbered(store.Stored());
      if current.state in TERMINAL_STATES {
        return Err(TerminalRun);
      }
      if to !in LegalTransitions(current.state) {
        return Err(IllegalTransition);
      }
      var resume := if to in PAUSED_STATES then Some(current.state) else None;
      var kept, class_ := None, None;
      if to == Failed {
        kept := if stopReason.Some? && stopReason.value != "" then stopReason else Some(reason);
        if failure.None? || Blank(kept.value) {
          return Err(NeedsFailureClass);
        }
        class_ := failure;
      } else if to == Cancelled {
        kept := if stopReason.Some? && stopReason.value != "" then stopReason else Some(reason);
        class_ := failure;
      }
      if store.run.value.state == current.state && !Blank(reason) {
        MovedKeeps(store.Stored(), to, reason, failure, stopReason);
      }
      r := store.UpdateState(current.state, to, reason, resume, kept, class_);
    }

    /** Any moves and notes of other engines on the same run, each of them from a record read at any earlier time. */
    method Interleave()
      requires store.Valid()
      modifies store
      ensures store.Valid() && old(store.events) <= store.events && (store.run.Some? <==> old(store.run).Some?)
      ensures old(store.run).Some? && old(store.run).value.state in TERMINAL_STATES ==> store.run == old(store.run)
    {
      if store.run.None? {
        return;
      }
      var n: nat := *;
      while n > 0
        invariant store.Valid() && store.run.Some? && old(store.events) <= store.events
        invariant old(store.run).value.state in TERMINAL_STATES ==> store.run == old(store.run)
      {
        var notes: bool := *;
        if notes {
          store.Annotate("another engine's note");
        } else {
          var current: RunRow, to: State, reason: string := *, *, *;
          var failure: Option<ErrorClass>, stopReason: Option<string> := *, *;
          var _ := Commit(current, to, reason, failure, stopReason);
        }
        n := n - 1;
      }
    }

    /**
     `transition`, with other engines at work between its read and its write.  It moves the
     run exactly when the move was allowed from the state it read and the run is still in
     that state; then the write is the one an undisturbed transition would make.
     */
    method Transition(to: State, reason: string, failure: Option<ErrorClass>, stopReason: Option<string>)
      returns (r: Result<(), EngineError>, ghost read: RunRow, ghost written: Snapshot)
      requires store.Valid()
      modifies store
      ensures store.Valid() && old(store.events) <= store.events && (store.run.Some? <==> old(store.run).Some?)
      ensures r == Err(NotFound) <==> old(store.run).None?
      ensures store.run.Some? ==>
        && Some(read) == old(store.run)
        && (r.Ok? <==> Allowed(read.state, to, reason, failure, stopReason) && written.row.state == read.state)
        && Inv(written) && old(store.events) <= written.events
        && store.Stored() == (if r.Ok? then Moved(written, to, reason, failure, stopReason) else written)
      ensures r.Ok? ==>
        var kept := if stopReason.Some? && stopReason.value != "" then stopReason else Some(reason);
        && store.run == Some(RunRow(to,
                                    if to in PAUSED_STATES then Some(read.state) else None,
                                    if to in {Failed, Cancelled} then kept else None,
                                    if to in {Failed, Cancelled} then failure else None))
        && store.events == written.events + [Event(|written.events|, Move(read.state, to), reason)]
      ensures r.Err? && store.run.Some? ==>
        var kept := if stopReason.Some? && stopReason.value != "" then stopReason.value else reason;
        r.error ==
          if read.state in TERMINAL_STATES then TerminalRun
          else if to !in LegalTransitions(read.state) then IllegalTransition
          else if to == Failed && (failure.None? || Blank(kept)) then NeedsFailureClass
          else if Blank(reason) then EmptyReason
          else Stale
      ensures store.run.Some? && written.events == old(store.events) ==>
        var kept := if stopReason.Some? && stopReason.value != "" then stopReason.value else reason;
        r.Ok? <==>
          && read.state !in TERMINAL_STATES && to in LegalTransitions(read.state) && !Blank(reason)
          && (to == Failed ==> failure.Some? && !Blank(kept))
      ensures store.run.Some? && read.state in TERMINAL_STATES ==>
        r.Err? && store.run == old(store.run) && written.row == read
    {
      hide Inv, Allowed, Moves, LegalTransitions, Moved, Refusal, KeptReason, Blank;
      var found := store.GetRun();
      if found.Err? {
        return Err(NotFound), NEW_RUN, Snapshot(NEW_RUN, []);
      }
      var current := found.value;
      read := current;
      ghost var before := store.Stored();
      TerminalNotAllowed(read.state, to, reason, failure, stopReason);
      Interleave();
      written := store.Stored();
      if written.events == before.events { SameJournal(before, written); }
      RefusalIs(read.state, to, reason, failure, stopReason);
      AllowedIs(read.state, to, reason, failure, stopReason);
      MovedIs(written, to, reason, failure, stopReason);
      r := Commit(current, to, reason, failure, stopReason);
    }

    /** `fail`: every run that is not over can fail, and only for a reason. */
    method Fail(errorClass: ErrorClass, reason: string)
      returns (r: Result<(), EngineError>, ghost read: RunRow, ghost written: Snapshot)
      requires store.Valid()
      modifies store
      ensures store.Valid() && old(store.events) <= store.events && (store.run.Some? <==> old(store.run).Some?)
      ensures r == Err(NotFound) <==> old(store.run).None?
      ensures store.run.Some? ==>
        && Some(read) == old(store.run) && old(store.events) <= written.events
        && (r.Ok? <==> read.state !in TERMINAL_STATES && !Blank(reason) && written.row.state == read.state)
        && (r.Err? ==> store.Stored() == written)
      ensures store.run.Some? && written.events == old(store.events) ==>
        (r.Ok? <==> read.state !in TERMINAL_STATES && !Blank(reason))
      ensures r.Ok? ==>
        && store.run == Some(RunRow(Failed, None, Some(reason), Some(errorClass)))
        && store.events == written.events + [Event(|written.events|, Move(read.state, Failed), reason)]
    {
      if store.run.Some? {
        AllowedStop(store.run.value.state, reason, errorClass);
        AllowedIs(store.run.value.state, Failed, reason, Some(errorClass), Some(reason));
      }
      hide Inv, Allowed, LegalTransitions, Moved, Blank;
      r, read, written := Transition(Failed, reason, Some(errorClass), Some(reason));
    }

    /** `cancel`: already cancelled runs are left alone, and every other run that is not over can be cancelled. */
    method Cancel(reason: string)
      returns (r: Result<(), EngineError>, ghost read: RunRow, ghost written: Snapshot)
      requires store.Valid()
      modifies store
      ensures store.Valid() && old(store.events) <= store.events && (store.run.Some? <==> old(store.run).Some?)
      ensures r == Err(NotFound) <==> old(store.run).None?
      ensures store.run.Some? ==> Some(read) == old(store.run)
      ensures store.run.Some? && read.state == Cancelled ==>
        r.Ok? && store.run == old(store.run) && store.events == old(store.events)
      ensures store.run.Some? && read.state in {ReadyForHumanReview, Failed} ==> r.Err? && store.run == old(store.run)
      ensures store.run.Some? && read.state != Cancelled ==>
        && old(store.events) <= written.events
        && (r.Ok? ==> written.row.state !in TERMINAL_STATES && !Blank(reason))
        && (r.Err? ==> store.Stored() == written)
        && (written.events == old(store.events) ==>
              (r.Ok? <==> read.state !in TERMINAL_STATES && !Blank(reason)))
      ensures r.Ok? && read.state != Cancelled ==>
        && store.run == Some(RunRow(Cancelled, None, Some(reason), None))
        && store.events == written.events + [Event(|written.events|, Move(written.row.state, Cancelled), reason)]
    {
      hide Inv, Allowed, LegalTransitions, Moved, Blank;
      var found := store.GetRun();
      if found.Err? {
        return Err(NotFound), NEW_RUN, Snapshot(NEW_RUN, []);
      }
      read := found.value;
      if found.value.state == Cancelled {
        return Ok(()), read, store.Stored();
      }
      ghost var before := store.Stored();
      Interleave();
      ghost var middle, again := store.Stored(), NEW_RUN;
      r, again, written := Transition(Cancelled, reason, None, None);
      AllowedStop(again.state, reason, OtherError);
      AllowedIs(again.state, Cancelled, reason, None, None);
      if written.events == before.events {
        assert middle.events == before.events;
        SameJournal(before, middle);
      }
    }

    /**
     `resume` reads the record twice.  It leads back to the phase that was interrupted exactly
     when no other engine resumed and paused the run for another phase in between; otherwise
     the journal and the phase read first decide whether gates can be skipped.
     */
    method Resume(reason: string) returns (r: Result<(), EngineError>, ghost first: RunRow, ghost written: Snapshot)
      requires store.Valid()
      modifies store
      ensures store.Valid() && old(store.events) <= store.events && (store.run.Some? <==> old(store.run).Some?)
      ensures r == Err(NotFound) <==> old(store.run).None?
      ensures store.run.Some? ==> Some(first) == old(store.run)
      ensures store.run.Some? ==> (r == Err(NotResumable) <==> first.state !in PAUSED_STATES)
      ensures r == Err(NotResumable) ==> store.run == old(store.run) && store.events == old(store.events)
      ensures store.run.Some? && first.state in PAUSED_STATES ==>
        && first.resume.Some? && Inv(written) && old(store.events) <= written.events
        && (written.events == old(store.events) ==> (r.Ok? <==> !Blank(reason)))
        && (r.Err? ==> store.Stored() == written)
      ensures r.Ok? ==>
        && first.state in PAUSED_STATES
        && store.run == Some(RunRow(first.resume.value, None, None, None))
        && store.events ==
           written.events + [Event(|written.events|, Move(written.row.state, first.resume.value), reason)]
      ensures r.Ok? && written.row.state in PAUSED_STATES ==>
        (store.run.value.state == written.row.resume.value <==> first.resume == written.row.resume)
      ensures r.Ok? && written.row.state in PAUSED_STATES ==>
        var journal, q := Moves(written.events), first.resume.value;
        MaySkipGates(Moves(store.events)) <==>
          Stage(q) >= 1 && !Reached(journal, |journal|, Stage(q)) && !Reached(journal, |journal|, Stage(q) - 1)
    {
      hide Allowed, Moves, LegalTransitions, Numbered, Chained, Replay;
      var found := store.GetRun();
      if found.Err? {
        return Err(NotFound), NEW_RUN, Snapshot(NEW_RUN, []);
      }
      first := found.value;
      PausedHasResume(store.Stored());
      if found.value.state !in PAUSED_STATES || found.value.resume.None? {
        return Err(NotResumable), first, Snapshot(first, []);
      }
      ghost var before := store.Stored();
      Interleave();
      ghost var middle, read := store.Stored(), NEW_RUN;
      r, read, written := Transition(found.value.resume.value, reason, None, None);
      if written.events == before.events {
        assert middle.events == before.events;
        SameJournal(before, middle);
        AllowedResume(middle.row.state, first.resume.value, reason);
        AllowedIs(middle.row.state, first.resume.value, reason, None, None);
      }
      if r.Ok? && written.row.state in PAUSED_STATES {
        LeavingMaySkipIff(written, first.resume.value, reason);
      }
    }
  }
}
