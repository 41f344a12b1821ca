/**
 The workflow states, their transition table, and one run's row and journal as values.
 Runs do not share rows, so the store is a product of independent runs.
 */
module Workflows {
  import opened Wrappers
  import opened Texts

  datatype State =
    | Created | PlanValidation | BaselineValidation | Implementation | ScopeValidation | FastTests | AgyAudit
    | ClaudeReview | Correction | FinalTests | ReadyForHumanReview | PausedQuota | PausedHumanDecision
    | Failed | Cancelled

  const TERMINAL_STATES: set<State> := {ReadyForHumanReview, Failed, Cancelled}
  const PAUSED_STATES: set<State> := {PausedQuota, PausedHumanDecision}
  const ACTIVE_STATES: set<State> :=
    {Created, PlanValidation, BaselineValidation, Implementation, ScopeValidation, FastTests, AgyAudit,
     ClaudeReview, Correction, FinalTests}

  function ListedTargets(s: State): set<State> {
    match s
    case Created => {PlanValidation, Cancelled, Failed}
    case PlanValidation => {BaselineValidation, Failed, Cancelled}
    case BaselineValidation => {Implementation, Failed, Cancelled}
    case Implementation => {ScopeValidation, PausedQuota, Failed, Cancelled}
    case ScopeValidation => {FastTests, Correction, Failed, Cancelled}
    case FastTests => {AgyAudit, Correction, Failed, Cancelled}
    case AgyAudit => {ClaudeReview, Correction, PausedQuota, Failed, Cancelled}
    case ClaudeReview => {Correction, FinalTests, PausedQuota, PausedHumanDecision, Failed, Cancelled}
    case Correction => {ScopeValidation, PausedQuota, Failed, Cancelled}
    case FinalTests => {ReadyForHumanReview, Correction, Failed, Cancelled}
    case PausedQuota => {Implementation, AgyAudit, ClaudeReview, Correction, Cancelled, Failed}
    case PausedHumanDecision => {ClaudeReview, Correction, FinalTests, Cancelled, Failed}
    case ReadyForHumanReview => {}
    case Failed => {}
    case Cancelled => {}
  }

  /** The table after the two statements that extend it: every active phase can be paused and resumed. */
  function LegalTransitions(s: State): set<State> {
    if s in ACTIVE_STATES then ListedTargets(s) + {PausedHumanDecision}
    else if s == PausedHumanDecision then ListedTargets(s) + ACTIVE_STATES
    else ListedTargets(s)
  }

  datatype ErrorClass = JobConfigurationError | SecurityViolation | TestFailure | OtherError

  datatype RunRow = RunRow(state: State, resume: Option<State>, stopReason: Option<string>, failure: Option<ErrorClass>)

  /** A move of the run, or an entry that leaves the state alone (creation, a reused phase, a scheduled retry). */
  datatype Entry = Note | Move(source: State, target: State)

  datatype Event = Event(sequence: nat, entry: Entry, reason: string)

  /** One run's row and its journal. */
  datatype Snapshot = Snapshot(row: RunRow, events: seq<Event>)

  const NEW_RUN := RunRow(Created, None, None, None)

  // ---------- What the journal says ----------

  function Moves(events: seq<Event>): seq<Entry> {
    if events == [] then []
    else
      var before, last := Moves(events[..|events| - 1]), events[|events| - 1];
      if last.entry.Move? then before + [last.entry] else before
  }

  /** The state the moves lead to. */
  function Replay(moves: seq<Entry>): State {
    if moves == [] || moves[|moves| - 1].Note? then Created else moves[|moves| - 1].target
  }

  ghost predicate Chained(moves: seq<Entry>) {
    && (forall k | 0 <= k < |moves| :: moves[k].Move? && moves[k].target in LegalTransitions(moves[k].source))
    && (moves != [] ==> moves[0].source == Created)
    && (forall k | 0 < k < |moves| :: moves[k].source == moves[k - 1].target)
  }

  ghost predicate Numbered(events: seq<Event>) {
    forall i | 0 <= i < |events| :: events[i].sequence == i
  }

  /** The record fields fit the state; a cancellation may carry a failure class, a failure must. */
  ghost predicate RowValid(row: RunRow) {
    && (row.state in PAUSED_STATES ==>
          row.resume.Some? && row.resume.value in ACTIVE_STATES && row.resume.value in LegalTransitions(row.state))
    && (row.state !in PAUSED_STATES ==> row.resume.None?)
    && (row.state == Failed ==> row.failure.Some? && row.stopReason.Some? && !Blank(row.stopReason.value))
    && (row.failure.Some? ==> row.state in {Failed, Cancelled})
    && (row.stopReason.Some? ==> row.state in {Failed, Cancelled})
  }

  /** The journal replays to the row. */
  ghost predicate Inv(s: Snapshot) {
    && Numbered(s.events)
    && Chained(Moves(s.events))
    && Replay(Moves(s.events)) == s.row.state
    && RowValid(s.row)
    && (s.row.state in PAUSED_STATES ==> s.row.resume == Some(Moves(s.events)[|Moves(s.events)| - 1].source))
  }

  lemma JournalNumbered(s: Snapshot)
    requires Inv(s)
    ensures Numbered(s.events)
  {
  }

  function Noted(s: Snapshot, reason: string): Snapshot {
    s.(events := s.events + [Event(|s.events|, Note, reason)])
  }

  /** The reason kept on the row: `stop_reason or reason` for a failure or a cancellation, else none. */
  function KeptReason(to: State, reason: string, stopReason: Option<string>): Option<string> {
    if to !in {Failed, Cancelled} then None
    else if stopReason.Some? && stopReason.value != "" then stopReason
    else Some(reason)
  }

  /** The row and journal after a move. */
  function Moved(s: Snapshot, to: State, reason: string, failure: Option<ErrorClass>,
                 stopReason: Option<string>): Snapshot
  {
    Snapshot(
      RunRow(to,
             if to in PAUSED_STATES then Some(s.row.state) else None,
             KeptReason(to, reason, stopReason),
             if to in {Failed, Cancelled} then failure else None),
      s.events + [Event(|s.events|, Move(s.row.state, to), reason)])
  }

  /** What `transition` demands, given the state it read. */
  predicate Allowed(from: State, to: State, reason: string, failure: Option<ErrorClass>, stopReason: Option<string>) {
    && from !in TERMINAL_STATES
    && to in LegalTransitions(from)
    && !Blank(reason)
    && (to == Failed ==> failure.Some? && !Blank(KeptReason(to, reason, stopReason).value))
  }

  lemma MovesAppend(events: seq<Event>, e: Event)
    ensures Moves(events + [e]) == if e.entry.Move? then Moves(events) + [e.entry] else Moves(events)
  {
    assert (events + [e])[..|events|] == events;
  }

  lemma NotedKeeps(s: Snapshot, reason: string)
    requires Inv(s)
    ensures Inv(Noted(s, reason))
  {
    MovesAppend(s.events, Event(|s.events|, Note, reason));
  }

  lemma MovedKeeps(s: Snapshot, to: State, reason: string, failure: Option<ErrorClass>, stopReason: Option<string>)
    requires Inv(s) && Allowed(s.row.state, to, reason, failure, stopReason)
    ensures Inv(Moved(s, to, reason, failure, stopReason))
  {
    var s' := Moved(s, to, reason, failure, stopReason);
    MovesAppend(s.events, Event(|s.events|, Move(s.row.state, to), reason));
    ChainedAppend(Moves(s.events), s.row.state, to);
    if to in PAUSED_STATES { PausesResumable(s.row.state, to); }
    hide LegalTransitions, Moves, Chained;
  }

  lemma ChainedAppend(moves: seq<Entry>, from: State, to: State)
    requires Chained(moves) && Replay(moves) == from && to in LegalTransitions(from)
    ensures Chained(moves + [Move(from, to)]) && Replay(moves + [Move(from, to)]) == to
  {
    hide LegalTransitions;
  }

  lemma OnlyFromFinalTests(from: State)
    requires ReadyForHumanReview in LegalTransitions(from)
    ensures from == FinalTests
  {
  }

  /** The phases each state is entered from; pauses for a human decision lead back to every phase. */
  lemma EnteredFrom(from: State, to: State)
    ensures to in LegalTransitions(from) <==>
      match to
      case Created => from == PausedHumanDecision
      case PlanValidation => from in {Created, PausedHumanDecision}
      case BaselineValidation => from in {PlanValidation, PausedHumanDecision}
      case Implementation => from in {BaselineValidation, PausedQuota, PausedHumanDecision}
      case ScopeValidation => from in {Implementation, Correction, PausedHumanDecision}
      case FastTests => from in {ScopeValidation, PausedHumanDecision}
      case AgyAudit => from in {FastTests, PausedQuota, PausedHumanDecision}
      case ClaudeReview => from in {AgyAudit, PausedQuota, PausedHumanDecision}
      case Correction =>
        from in {ScopeValidation, FastTests, AgyAudit, ClaudeReview, FinalTests, PausedQuota, PausedHumanDecision}
      case FinalTests => from in {ClaudeReview, PausedHumanDecision}
      case ReadyForHumanReview => from == FinalTests
      case PausedQuota => from in {Implementation, AgyAudit, ClaudeReview, Correction}
      case PausedHumanDecision => from in ACTIVE_STATES
      case Failed => from !in TERMINAL_STATES
      case Cancelled => from !in TERMINAL_STATES
  {
  }

  /** A phase that can be paused can be re-entered from that pause. */
  lemma PausesResumable(from: State, to: State)
    requires to in LegalTransitions(from) && to in PAUSED_STATES
    ensures from in ACTIVE_STATES && from in LegalTransitions(to)
  {
  }

  // ---------- The gates before human review ----------

  predicate Edits(s: State) {
    s in {Implementation, Correction}
  }

  const GATES: seq<State> := [ScopeValidation, FastTests, AgyAudit, ClaudeReview, FinalTests]

  /** How many gates a phase stands for; -1 before the first implementation. */
  function Stage(s: State): int {
    match s
    case ScopeValidation => 1
    case FastTests => 2
    case AgyAudit => 3
    case ClaudeReview => 4
    case FinalTests => 5
    case ReadyForHumanReview => 5
    case Created => -1
    case PlanValidation => -1
    case BaselineValidation => -1
    case _ => 0
  }

  /** Move `k` leaves a pause for a phase in progress. */
  predicate LeavesPause(moves: seq<Entry>, k: nat) {
    0 < k < |moves| && moves[k].Move? && moves[k - 1].Move?
    && moves[k].source in PAUSED_STATES && moves[k].target in ACTIVE_STATES
  }

  /** From move `start` on, pauses are left for the phase they interrupted, or for the end of the run. */
  ghost predicate FaithfulFrom(moves: seq<Entry>, start: nat) {
    forall k: nat | start <= k && LeavesPause(moves, k) :: moves[k].target == moves[k - 1].source
  }

  ghost predicate ResumesFaithfully(moves: seq<Entry>) {
    FaithfulFrom(moves, 0)
  }

  /** Looking back from move `k` to the last edit, the first `n` gates were entered, in order. */
  predicate Reached(moves: seq<Entry>, k: nat, n: nat)
    requires k <= |moves|
  {
    k > 0 && moves[k - 1].Move? &&
    if Edits(moves[k - 1].target) then n == 0
    else
      || (0 < n <= |GATES| && moves[k - 1].target == GATES[n - 1] && Reached(moves, k - 1, n - 1))
      || Reached(moves, k - 1, n)
  }

  /** The phase in progress after `k` moves; a paused run is still in the phase it interrupted. */
  function Phase(moves: seq<Entry>, k: nat): State
    requires k <= |moves|
  {
    if k == 0 || moves[k - 1].Note? then Created
    else if moves[k - 1].target in PAUSED_STATES then moves[k - 1].source
    else moves[k - 1].target
  }

  /** The gates the phase in progress stands for were entered in order since the last edit. */
  ghost predicate GatesHold(moves: seq<Entry>, k: nat)
    requires k <= |moves|
  {
    var p := Phase(moves, k);
    p !in {Failed, Cancelled} && Stage(p) >= 0 ==> Reached(moves, k, Stage(p))
  }

  /**
   Move `k`, if it leaves a pause, leaves it for an edit, for a phase no later than the
   interrupted one, or for one whose own gates were entered since the last edit.
   */
  ghost predicate SoundExit(moves: seq<Entry>, k: nat)
    requires k < |moves|
  {
    LeavesPause(moves, k) ==>
      var q := moves[k].target;
      Edits(q) || Stage(q) <= Stage(moves[k - 1].source) || Reached(moves, k + 1, Stage(q))
  }

  ghost predicate SoundFrom(moves: seq<Entry>, start: nat) {
    forall k: nat | start <= k < |moves| :: SoundExit(moves, k)
  }

  lemma MoveShape(from: State, to: State)
    requires to in LegalTransitions(from)
    ensures from in ACTIVE_STATES || from in PAUSED_STATES
    ensures from in PAUSED_STATES ==> to in ACTIVE_STATES || to in {Failed, Cancelled}
  {
  }

  /** A move between active phases passes at most the next gate, or goes back to an edit. */
  lemma StageSteps(from: State, to: State)
    requires from in ACTIVE_STATES && to in LegalTransitions(from) && Stage(to) > 0
    requires to !in PAUSED_STATES && to !in {Failed, Cancelled}
    ensures (Stage(from) == Stage(to) - 1 && GATES[Stage(to) - 1] == to)
            || (from == FinalTests && to == ReadyForHumanReview)
  {
  }

  /** The first gates of those entered were entered. */
  lemma {:induction false} ReachedFewer(moves: seq<Entry>, k: nat, n: nat, m: nat)
    requires k <= |moves| && m <= n && Reached(moves, k, n)
    ensures Reached(moves, k, m)
    decreases k
  {
    if !Edits(moves[k - 1].target) && m < n {
      if Reached(moves, k - 1, n) {
        ReachedFewer(moves, k - 1, n, m);
      } else {
        ReachedFewer(moves, k - 1, n - 1, m);
      }
    }
  }

  /** Where the gates hold at `start` and every later exit from a pause is sound, they hold ever after. */
  lemma {:induction false} GatesReached(moves: seq<Entry>, start: nat, k: nat)
    requires Chained(moves) && start <= k <= |moves| && GatesHold(moves, start) && SoundFrom(moves, start)
    ensures GatesHold(moves, k)
    decreases k
  {
    hide LegalTransitions, ListedTargets;
    if start < k {
      GatesReached(moves, start, k - 1);
      var from, to := moves[k - 1].source, moves[k - 1].target;
      MoveShape(from, to);
      if to in PAUSED_STATES {
        PausesResumable(from, to);
      } else if from in PAUSED_STATES {
        PausedEntry(moves, k - 1);
        assert SoundExit(moves, k - 1);
        var p := Phase(moves, k - 1);
        if to in ACTIVE_STATES && 0 < Stage(to) <= Stage(p) {
          ReachedFewer(moves, k - 1, Stage(p), Stage(to));
        }
      } else if to !in {Failed, Cancelled} && Stage(to) > 0 {
        StageSteps(from, to);
      }
    }
  }

  lemma PausedEntry(moves: seq<Entry>, k: nat)
    requires Chained(moves) && k < |moves| && moves[k].source in PAUSED_STATES
    ensures k > 0 && moves[k - 1].target == moves[k].source && Phase(moves, k) == moves[k - 1].source
    ensures moves[k - 1].source in ACTIVE_STATES
  {
    hide LegalTransitions;
    if k > 0 { PausesResumable(moves[k - 1].source, moves[k - 1].target); }
  }

  /** An edit, and after it positions of the first `n` gates in order, with no other edit up to move `k`. */
  ghost predicate InOrder(moves: seq<Entry>, k: nat, n: nat, edit: nat, at: seq<nat>)
    requires k <= |moves| && n <= |GATES|
  {
    && edit < k && moves[edit].Move? && Edits(moves[edit].target)
    && (forall j | edit < j < k :: moves[j].Move? && !Edits(moves[j].target))
    && |at| == n
    && (forall i | 0 <= i < n :: edit < at[i] < k && moves[at[i]].Move? && moves[at[i]].target == GATES[i])
    && (forall i, j | 0 <= i < j < n :: at[i] < at[j])
  }

  lemma {:induction false} ReachedAt(moves: seq<Entry>, k: nat, n: nat) returns (edit: nat, at: seq<nat>)
    requires k <= |moves| && n <= |GATES| && Reached(moves, k, n)
    ensures InOrder(moves, k, n, edit, at)
    decreases k
  {
    if Edits(moves[k - 1].target) {
      edit, at := k - 1, [];
    } else if 0 < n <= |GATES| && moves[k - 1].target == GATES[n - 1] && Reached(moves, k - 1, n - 1) {
      edit, at := ReachedAt(moves, k - 1, n - 1);
      at := at + [k - 1];
    } else {
      edit, at := ReachedAt(moves, k - 1, n);
    }
  }

  lemma {:induction false} AtReached(moves: seq<Entry>, k: nat, n: nat, edit: nat, at: seq<nat>)
    requires k <= |moves| && n <= |GATES| && InOrder(moves, k, n, edit, at)
    ensures Reached(moves, k, n)
    decreases k
  {
    if edit < k - 1 {
      if n > 0 && at[n - 1] == k - 1 {
        AtReached(moves, k - 1, n - 1, edit, at[..n - 1]);
      } else {
        AtReached(moves, k - 1, n, edit, at);
      }
    }
  }

  /** What `Reached` says by position. */
  lemma ReachedIff(moves: seq<Entry>, k: nat, n: nat)
    requires k <= |moves| && n <= |GATES|
    ensures Reached(moves, k, n) <==> exists edit, at :: InOrder(moves, k, n, edit, at)
  {
    if Reached(moves, k, n) {
      var edit, at := ReachedAt(moves, k, n);
    }
    if edit, at :| InOrder(moves, k, n, edit, at) {
      AtReached(moves, k, n, edit, at);
    }
  }

  /**
   A run whose exits from pauses are sound - resuming always is - is ready for human review
   only after scope validation, fast tests, audit, review and final tests, in that order,
   all of them after the last implementation or correction.
   */
  lemma ReadyAfterAllGates(s: Snapshot, k: nat) returns (edit: nat, at: seq<nat>)
    requires Inv(s) && SoundFrom(Moves(s.events), 0)
    requires k < |Moves(s.events)| && Moves(s.events)[k].Move? && Moves(s.events)[k].target == ReadyForHumanReview
    ensures InOrder(Moves(s.events), k, |GATES|, edit, at)
  {
    hide *;
    var moves := Moves(s.events);
    JournalChained(s);
    ReadyFromFinalTests(moves, k);
    NothingYet(moves);
    GatesReached(moves, 0, k);
    FinalGates(moves, k);
    edit, at := ReachedAt(moves, k, |GATES|);
  }

  lemma NothingYet(moves: seq<Entry>)
    ensures GatesHold(moves, 0)
  {
  }

  lemma FinalGates(moves: seq<Entry>, k: nat)
    requires k <= |moves| && GatesHold(moves, k) && Phase(moves, k) == FinalTests
    ensures |GATES| == 5 && Reached(moves, k, |GATES|)
  {
  }

  lemma ReadyFromFinalTests(moves: seq<Entry>, k: nat)
    requires Chained(moves) && k < |moves| && moves[k].target == ReadyForHumanReview
    ensures Phase(moves, k) == FinalTests
  {
    hide LegalTransitions;
    OnlyFromFinalTests(moves[k].source);
  }

  lemma JournalChained(s: Snapshot)
    requires Inv(s)
    ensures Chained(Moves(s.events))
  {
  }

  // ---------- When gates can be skipped ----------

  /** The moves `c` lead on legally, resuming faithfully, to a human review that some gate does not precede. */
  ghost predicate PastGates(moves: seq<Entry>, c: seq<Entry>) {
    var all := moves + c;
    && c != [] && Chained(all) && FaithfulFrom(all, |moves|)
    && all[|all| - 1].target == ReadyForHumanReview && !Reached(all, |all| - 1, |GATES|)
  }

  ghost predicate MaySkipGates(moves: seq<Entry>) {
    exists c :: PastGates(moves, c)
  }

  lemma {:induction false} ReachedPrefix(moves: seq<Entry>, c: seq<Entry>, k: nat, n: nat)
    requires k <= |moves|
    ensures Reached(moves + c, k, n) <==> Reached(moves, k, n)
    decreases k
  {
    if k > 0 {
      ReachedPrefix(moves, c, k - 1, n);
      if n > 0 { ReachedPrefix(moves, c, k - 1, n - 1); }
    }
  }

  lemma HoldPrefix(moves: seq<Entry>, c: seq<Entry>, k: nat)
    requires k <= |moves|
    ensures GatesHold(moves + c, k) <==> GatesHold(moves, k)
  {
    hide Reached;
    if Stage(Phase(moves, k)) >= 0 { ReachedPrefix(moves, c, k, Stage(Phase(moves, k))); }
  }

  lemma FaithfulIsSound(moves: seq<Entry>, start: nat)
    requires FaithfulFrom(moves, start)
    ensures SoundFrom(moves, start)
  {
    hide Reached, Stage;
  }

  /** Where the gates hold, faithful moves cannot lead past any. */
  lemma HoldingCannotSkip(moves: seq<Entry>, c: seq<Entry>)
    requires GatesHold(moves, |moves|)
    ensures !PastGates(moves, c)
  {
    hide LegalTransitions, Reached, Stage, GatesHold, FaithfulFrom, SoundFrom, Phase, Chained;
    if PastGates(moves, c) {
      var all := moves + c;
      ReadyFromFinalTests(all, |all| - 1);
      HoldPrefix(moves, c, |moves|);
      FaithfulIsSound(all, |moves|);
      GatesReached(all, |moves|, |all| - 1);
      FinalGates(all, |all| - 1);
    }
  }

  /** One gate on: what was skipped stays skipped. */
  lemma OnwardStep(moves: seq<Entry>, n: nat)
    requires Chained(moves) && 0 < n < |GATES| && Replay(moves) == GATES[n - 1] && !Reached(moves, |moves|, n)
    ensures var m := Move(GATES[n - 1], GATES[n]);
      Chained(moves + [m]) && Replay(moves + [m]) == GATES[n] && !Reached(moves + [m], |moves| + 1, n + 1)
  {
    var m := Move(GATES[n - 1], GATES[n]);
    assert GATES[n] in LegalTransitions(GATES[n - 1]);
    ChainedAppend(moves, GATES[n - 1], GATES[n]);
    hide LegalTransitions, Chained;
    if Reached(moves, |moves|, n + 1) { ReachedFewer(moves, |moves|, n + 1, n); }
    ReachedPrefix(moves, [m], |moves|, n);
    ReachedPrefix(moves, [m], |moves|, n + 1);
  }

  lemma {:induction false} Onward(moves: seq<Entry>, n: nat) returns (c: seq<Entry>)
    requires Chained(moves) && 0 < n <= |GATES| && Replay(moves) == GATES[n - 1] && !Reached(moves, |moves|, n)
    ensures c != [] && Chained(moves + c) && (moves + c)[|moves + c| - 1].target == ReadyForHumanReview
    ensures !Reached(moves + c, |moves + c| - 1, |GATES|)
    ensures forall i | 0 <= i < |c| :: c[i].Move? && c[i].source in ACTIVE_STATES
    decreases |GATES| - n
  {
    hide LegalTransitions, Reached, Chained;
    if n == |GATES| {
      assert ReadyForHumanReview in LegalTransitions(FinalTests) by { FinalTestsPass(); }
      ChainedAppend(moves, FinalTests, ReadyForHumanReview);
      c := [Move(FinalTests, ReadyForHumanReview)];
      ReachedPrefix(moves, c, |moves|, |GATES|);
    } else {
      var m := Move(GATES[n - 1], GATES[n]);
      OnwardStep(moves, n);
      var rest := Onward(moves + [m], n + 1);
      assert moves + [m] + rest == moves + ([m] + rest);
      c := [m] + rest;
    }
  }

  lemma FinalTestsPass()
    ensures ReadyForHumanReview in LegalTransitions(FinalTests)
  {
  }

  /** At a gate that was not reached in order, the gates before it were not either. */
  lemma BrokenAt(moves: seq<Entry>, k: nat, n: nat)
    requires 0 < k <= |moves| && 0 < n <= |GATES| && moves[k - 1].Move? && moves[k - 1].target == GATES[n - 1]
    requires !Reached(moves, k, n)
    ensures !Reached(moves, k, n - 1)
  {
  }

  lemma EditHolds(moves: seq<Entry>)
    requires Chained(moves)
    ensures Edits(Phase(moves, |moves|)) ==> GatesHold(moves, |moves|)
  {
    hide LegalTransitions;
    var k := |moves|;
    if Edits(Phase(moves, k)) && moves[k - 1].target in PAUSED_STATES {
      assert moves[k - 2].target == moves[k - 1].source;
      assert Reached(moves, k - 1, 0);
    }
  }

  /** Only at a gate can the gates fail to hold. */
  lemma BrokenPhase(moves: seq<Entry>)
    requires Chained(moves) && Replay(moves) !in TERMINAL_STATES && !GatesHold(moves, |moves|)
    ensures var p, k := Phase(moves, |moves|), |moves|;
      && k > 0 && 1 <= Stage(p) <= |GATES| && p == GATES[Stage(p) - 1]
      && !Reached(moves, k, Stage(p)) && !Reached(moves, k, Stage(p) - 1)
      && p == (if Replay(moves) in PAUSED_STATES then moves[k - 1].source else Replay(moves))
  {
    hide LegalTransitions;
    var p, k := Phase(moves, |moves|), |moves|;
    var to := moves[k - 1].target;
    EditHolds(moves);
    if to in PAUSED_STATES {
      PausesResumable(moves[k - 1].source, to);
      if k > 1 {
        assert moves[k - 2].target == p;
        if Stage(p) >= 1 { BrokenAt(moves, k - 1, Stage(p)); }
      }
    } else if Stage(p) >= 1 {
      BrokenAt(moves, k, Stage(p));
    }
  }

  lemma FaithfulOnward(moves: seq<Entry>, c: seq<Entry>)
    requires forall i | 0 <= i < |c| :: c[i].Move? && (i > 0 ==> c[i].source in ACTIVE_STATES)
    requires c != [] && c[0].source in PAUSED_STATES && moves != [] && moves[|moves| - 1].Move?
             ==> c[0].target == moves[|moves| - 1].source
    ensures FaithfulFrom(moves + c, |moves|)
  {
    var all := moves + c;
    forall k: nat | |moves| <= k && LeavesPause(all, k) ensures all[k].target == all[k - 1].source {
      assert all[k] == c[k - |moves|];
    }
  }

  /** Where the gates do not hold, they can be skipped. */
  lemma BrokenCanSkip(moves: seq<Entry>) returns (c: seq<Entry>)
    requires Chained(moves) && Replay(moves) !in TERMINAL_STATES && !GatesHold(moves, |moves|)
    ensures PastGates(moves, c)
  {
    BrokenPhase(moves);
    hide LegalTransitions, Reached, Chained, GatesHold, PastGates, Stage;
    var p := Phase(moves, |moves|);
    if Replay(moves) in PAUSED_STATES {
      c := BrokenPauseCanSkip(moves, p, Stage(p));
    } else {
      c := BrokenGateCanSkip(moves, p, Stage(p));
    }
  }

  lemma BrokenGateCanSkip(moves: seq<Entry>, p: State, n: nat) returns (c: seq<Entry>)
    requires Chained(moves) && 1 <= n <= |GATES| && Replay(moves) == p == GATES[n - 1] && !Reached(moves, |moves|, n)
    ensures PastGates(moves, c)
  {
    hide LegalTransitions, Reached, Chained, FaithfulFrom;
    c := Onward(moves, n);
    FaithfulOnward(moves, c);
  }

  lemma BrokenPauseCanSkip(moves: seq<Entry>, p: State, n: nat) returns (c: seq<Entry>)
    requires Chained(moves) && moves != [] && Replay(moves) in PAUSED_STATES && moves[|moves| - 1].source == p
    requires 1 <= n <= |GATES| && p == GATES[n - 1]
    requires !Reached(moves, |moves|, n) && !Reached(moves, |moves|, n - 1)
    ensures PastGates(moves, c)
  {
    hide LegalTransitions, Reached, Chained, FaithfulFrom;
    var back := Move(Replay(moves), p);
    BackStillBroken(moves, p, n);
    var rest := Onward(moves + [back], n);
    assert moves + [back] + rest == moves + ([back] + rest);
    c := [back] + rest;
    FaithfulOnward(moves, c);
  }

  lemma BackStillBroken(moves: seq<Entry>, p: State, n: nat)
    requires Chained(moves) && moves != [] && Replay(moves) in PAUSED_STATES && moves[|moves| - 1].source == p
    requires 1 <= n <= |GATES| && p == GATES[n - 1]
    requires !Reached(moves, |moves|, n) && !Reached(moves, |moves|, n - 1)
    ensures var back := Move(Replay(moves), p);
      Chained(moves + [back]) && Replay(moves + [back]) == p && !Reached(moves + [back], |moves| + 1, n)
  {
    hide LegalTransitions;
    var back := Move(Replay(moves), p);
    PausesResumable(p, Replay(moves));
    ChainedAppend(moves, Replay(moves), p);
    hide Chained;
    ReachedPrefix(moves, [back], |moves|, n);
    ReachedPrefix(moves, [back], |moves|, n - 1);
  }

  /**
   From any journal faithful resuming can lead past a gate exactly when the run is in a
   phase whose own gates were not entered in order since the last edit.
   */
  lemma MaySkipIff(moves: seq<Entry>)
    requires Chained(moves) && Replay(moves) !in TERMINAL_STATES
    ensures var p := Phase(moves, |moves|);
      MaySkipGates(moves) <==> Stage(p) >= 1 && !Reached(moves, |moves|, Stage(p))
  {
    var p := Phase(moves, |moves|);
    if GatesHold(moves, |moves|) {
      PhaseIsActive(moves);
      forall c ensures !PastGates(moves, c) {
        HoldingCannotSkip(moves, c);
      }
    } else {
      BrokenPhase(moves);
      var c := BrokenCanSkip(moves);
    }
  }

  lemma PhaseIsActive(moves: seq<Entry>)
    requires Chained(moves) && Replay(moves) !in TERMINAL_STATES
    ensures Phase(moves, |moves|) in ACTIVE_STATES
  {
    hide LegalTransitions;
    ThreeKinds(Replay(moves));
    if moves != [] && Replay(moves) in PAUSED_STATES { PausesResumable(moves[|moves| - 1].source, Replay(moves)); }
  }

  lemma ThreeKinds(s: State)
    ensures s in ACTIVE_STATES || s in PAUSED_STATES || s in TERMINAL_STATES
  {
  }

  /**
   Leaving a pause for phase `q`, as a resume does whose first reading was overtaken, can
   skip gates exactly when `q` is a gate that neither was entered in order since the last
   edit nor is the next one to enter.
   */
  lemma LeavingMaySkipIff(s: Snapshot, q: State, reason: string)
    requires Inv(s) && s.row.state in PAUSED_STATES && q in ACTIVE_STATES
    requires Allowed(s.row.state, q, reason, None, None)
    ensures var before, after := Moves(s.events), Moves(Moved(s, q, reason, None, None).events);
      MaySkipGates(after) <==>
        Stage(q) >= 1 && !Reached(before, |before|, Stage(q)) && !Reached(before, |before|, Stage(q) - 1)
  {
    hide LegalTransitions, Moves, MaySkipGates, Reached, Stage, Chained;
    MovesAppend(s.events, Event(|s.events|, Move(s.row.state, q), reason));
    LeaveIff(Moves(s.events), s.row.state, q);
  }

  lemma LeaveIff(before: seq<Entry>, pause: State, q: State)
    requires Chained(before) && Replay(before) == pause && pause in PAUSED_STATES && q in ACTIVE_STATES
    requires q in LegalTransitions(pause)
    ensures MaySkipGates(before + [Move(pause, q)]) <==>
      Stage(q) >= 1 && !Reached(before, |before|, Stage(q)) && !Reached(before, |before|, Stage(q) - 1)
  {
    hide LegalTransitions, MaySkipGates;
    var m := Move(pause, q);
    ChainedAppend(before, pause, q);
    hide Chained;
    MaySkipIff(before + [m]);
    if Stage(q) >= 1 {
      ReachedPrefix(before, [m], |before|, Stage(q));
      ReachedPrefix(before, [m], |before|, Stage(q) - 1);
    }
  }

  /** Soundness of all exits is exact: it says that no prefix of the journal could have led past a gate. */
  lemma SoundIff(moves: seq<Entry>)
    requires Chained(moves)
    ensures SoundFrom(moves, 0) <==> forall k: nat | k <= |moves| :: !MaySkipGates(moves[..k])
  {
    hide LegalTransitions, Reached;
    if SoundFrom(moves, 0) {
      forall k: nat | k <= |moves| ensures !MaySkipGates(moves[..k]) {
        NothingYet(moves);
        GatesReached(moves, 0, k);
        PrefixHolds(moves, k);
        forall c ensures !PastGates(moves[..k], c) {
          HoldingCannotSkip(moves[..k], c);
        }
      }
    }
    if forall k: nat | k <= |moves| :: !MaySkipGates(moves[..k]) {
      forall k: nat | k < |moves| ensures SoundExit(moves, k) {
        if LeavesPause(moves, k) {
          assert !MaySkipGates(moves[..k + 1]);
          ExitHolds(moves, k);
        }
      }
    }
  }

  lemma PrefixHolds(moves: seq<Entry>, k: nat)
    requires k <= |moves|
    ensures GatesHold(moves[..k], k) <==> GatesHold(moves, k)
  {
    assert moves == moves[..k] + moves[k..];
    HoldPrefix(moves[..k], moves[k..], k);
  }

  lemma ExitHolds(moves: seq<Entry>, k: nat)
    requires Chained(moves) && LeavesPause(moves, k) && !MaySkipGates(moves[..k + 1])
    ensures SoundExit(moves, k)
  {
    hide LegalTransitions, Reached;
    var prefix, q := moves[..k + 1], moves[k].target;
    assert Chained(prefix);
    MaySkipIff(prefix);
    if Stage(q) >= 1 {
      assert moves == prefix + moves[k + 1..];
      ReachedPrefix(prefix, moves[k + 1..], k + 1, Stage(q));
    } else if Stage(q) < 0 {
      PausedEntry(moves, k);
    }
  }

  lemma FaithfulAppendIff(moves: seq<Entry>, m: Entry)
    requires ResumesFaithfully(moves)
    ensures ResumesFaithfully(moves + [m]) <==>
      (moves != [] && m.Move? && moves[|moves| - 1].Move? && m.source in PAUSED_STATES && m.target in ACTIVE_STATES ==>
         m.target == moves[|moves| - 1].source)
  {
    var longer := moves + [m];
    forall k: nat | k < |moves| && LeavesPause(longer, k) ensures longer[k].target == longer[k - 1].source {
      assert LeavesPause(moves, k);
    }
    if moves != [] && LeavesPause(longer, |moves|) {
      assert longer[|moves|] == m && longer[|moves| - 1] == moves[|moves| - 1];
    }
    if ResumesFaithfully(longer) && moves != [] && m.Move? && moves[|moves| - 1].Move?
       && m.source in PAUSED_STATES && m.target in ACTIVE_STATES
    {
      assert LeavesPause(longer, |moves|);
    }
  }

  /** A move leaves the journal faithful exactly when it does not leave a pause for some other phase. */
  lemma FaithfulMoveIff(s: Snapshot, to: State, reason: string, failure: Option<ErrorClass>, stopReason: Option<string>)
    requires Inv(s) && ResumesFaithfully(Moves(s.events)) && to in LegalTransitions(s.row.state)
    ensures ResumesFaithfully(Moves(Moved(s, to, reason, failure, stopReason).events)) <==>
      (s.row.state in PAUSED_STATES && to in ACTIVE_STATES ==> s.row.resume == Some(to))
  {
    hide LegalTransitions, Moves, ResumesFaithfully;
    MovesAppend(s.events, Event(|s.events|, Move(s.row.state, to), reason));
    FaithfulAppendIff(Moves(s.events), Move(s.row.state, to));
  }

  /** The moves of a run in which a stale resume jumps from a pause of the correction to the final tests. */
  function OvertakenMoves(): seq<Entry> {
    [Move(Created, PlanValidation), Move(PlanValidation, BaselineValidation), Move(BaselineValidation, Implementation),
     Move(Implementation, ScopeValidation), Move(ScopeValidation, FastTests), Move(FastTests, AgyAudit),
     Move(AgyAudit, ClaudeReview), Move(ClaudeReview, FinalTests),
     Move(FinalTests, PausedHumanDecision), // read by both resumes
     Move(PausedHumanDecision, FinalTests), Move(FinalTests, Correction), Move(Correction, PausedHumanDecision),
     Move(PausedHumanDecision, FinalTests), // the stale one
     Move(FinalTests, ReadyForHumanReview)]
  }

  lemma OvertakenChained()
    ensures Chained(OvertakenMoves())
  {
    var moves := OvertakenMoves();
    assert PausedHumanDecision in LegalTransitions(FinalTests) && PausedHumanDecision in LegalTransitions(Correction);
    assert FinalTests in LegalTransitions(PausedHumanDecision);
    forall k | 0 <= k < |moves| ensures moves[k].target in LegalTransitions(moves[k].source) {
    }
    hide LegalTransitions;
  }

  /** Such a run is chained and legal throughout, and becomes ready although no gate followed its correction. */
  lemma OvertakenResumeSkipsGates()
    ensures var moves := OvertakenMoves();
      && Chained(moves) && Replay(moves) == ReadyForHumanReview
      && moves[10].target == Correction
      && (forall j | 10 < j < 14 :: moves[j].target !in {ScopeValidation, FastTests, AgyAudit, ClaudeReview})
      && !Reached(moves, 13, 5) && !SoundFrom(moves, 0)
  {
    var moves := OvertakenMoves();
    OvertakenChained();
    hide Chained;
    assert !Reached(moves, 11, 4) && !Reached(moves, 11, 5);
    assert !Reached(moves, 12, 4) && !Reached(moves, 12, 5);
    assert LeavesPause(moves, 12) && !Reached(moves, 13, 5) && !SoundExit(moves, 12);
  }
}
