/**
 The orchestrator's phase handlers and what they do to the findings of a run.  Agents,
 commands and the working tree answer arbitrarily; between two steps the diff may change.
 */
module Orchestrators {
  import opened Wrappers
  import opened Texts
  import opened Workflows
  import opened Findings
  import opened FindingLedgers

  datatype Policy = Policy(
    milestone: string, requireAgy: bool, generateBundle: bool, enforceAcceptance: bool,
    maxCorrectionRounds: nat, requiredScore: nat, maxAttempts: nat)

  /** Whose failures are counted for retries. */
  datatype Owner = Codex | Auditor | Reviewer

  datatype AuditReport = AuditReport(passed: bool, summary: string, findings: seq<string>)

  datatype ReviewDecision = Approve | RequestChanges | HumanDecision

  datatype ReviewReport = ReviewReport(decision: ReviewDecision, summary: string, findings: seq<string>)

  /**
   How an agent or command call ends: a report, a transient failure (of the repair that a
   first, malformed answer got, when `repaired`), a fatal answer, an exception, or any of
   these after the lease was lost, which `_assert_lease` then raises.
   */
  datatype Answer<T> = Reports(report: T) | Retries(repaired: bool) | Fatal | Raises | Unleased

  /** What a step heard: the audit's answer unless it was cached or disabled, the review's, or a command's. */
  datatype Heard =
    | Audited(said: Option<Answer<AuditReport>>)
    | Reviewed(review: Answer<ReviewReport>)
    | Tested(tests: Answer<()>)
    | Worked(answer: Answer<()>)

  /** How a handler ends; `step` turns a raised exception into a failure, but passes a lost lease on. */
  datatype Ending = Finished | Raised | NoLease

  datatype Outcome = Returned | LeaseLost | OverAtLimit

  /** How `run_until_blocked` came to its end. */
  datatype Cause = AtRest | ByCancellation | ByLimit | ByLostLease

  const MAX_SCORE: nat := 100

  // ---------- What every step keeps ----------

  /**
   The orchestrator's findings are P1.  An audit finding is bound to a diff whose failing
   report is cached, and is never resolved.
   */
  ghost predicate RowInv(f: Finding, milestone: string, audits: map<Diff, AuditReport>) {
    && f.milestone == milestone && f.severity == P1 && f.role in {Agy, Claude}
    && (f.role == Agy ==> f.diff in audits && !audits[f.diff].passed && f.status != Resolved)
  }

  ghost predicate RowsInv(rows: seq<Finding>, milestone: string, audits: map<Diff, AuditReport>) {
    forall i | 0 <= i < |rows| :: RowInv(rows[i], milestone, audits)
  }

  /** Every finding is resolved and bound to this diff. */
  ghost predicate AllSettled(rows: seq<Finding>, diff: Diff) {
    forall i | 0 <= i < |rows| :: rows[i].status == Resolved && rows[i].diff == diff
  }

  ghost predicate Gated(p: Policy) {
    p.generateBundle || p.enforceAcceptance
  }

  /** Findings stay bound to the diff they were raised on, and an invalidated one never changes again. */
  ghost predicate Later(a: seq<Finding>, b: seq<Finding>) {
    && SameFindings(a, b)
    && forall i | 0 <= i < |a| :: b[i].diff == a[i].diff && (a[i].status == Invalidated ==> b[i] == a[i])
  }

  lemma LaterTransitive(a: seq<Finding>, b: seq<Finding>, c: seq<Finding>)
    requires Later(a, b) && Later(b, c)
    ensures Later(a, c)
  {
    forall i | 0 <= i < |a| ensures Relabelled(a[i], c[i]) {
      assert Relabelled(a[i], b[i]) && Relabelled(b[i], c[i]);
    }
  }

  /** `after` is `before` with every live finding of another diff invalidated. */
  ghost predicate Refreshed(before: seq<Finding>, after: seq<Finding>, diff: Diff) {
    |after| == |before| && forall i | 0 <= i < |before| ::
      after[i] ==
        if before[i].status != Invalidated && before[i].diff != diff
        then before[i].(status := Invalidated) else before[i]
  }

  /** `after` is `before` with the open findings of this role on this diff resolved. */
  ghost predicate Approved(before: seq<Finding>, after: seq<Finding>, role: Role, diff: Diff, summary: string) {
    |after| == |before|
    && forall i | 0 <= i < |before| :: ApprovedAs(before[i], after[i], role, diff, summary)
  }

  ghost predicate ApprovedAs(before: Finding, after: Finding, role: Role, diff: Diff, summary: string) {
    after ==
      if before.role == role && before.diff == diff && before.status == Open
      then before.(status := Resolved, verifiedBy := [role, Gate],
                   resolution := Some("Verified resolved by " + Token(role) + ": " + summary))
      else before
  }

  /** `after` is `before` and one open P1 finding for each of the problems, in their order. */
  ghost predicate Recorded(before: seq<Finding>, after: seq<Finding>, milestone: string, role: Role, diff: Diff,
                           problems: seq<string>) {
    && |after| == |before| + |problems| && after[..|before|] == before
    && forall k | 0 <= k < |problems| :: RaisedAs(after[|before| + k], milestone, role, diff, problems[k])
  }

  ghost predicate RaisedAs(f: Finding, milestone: string, role: Role, diff: Diff, problem: string) {
    f.milestone == milestone && f.role == role && f.severity == P1 && f.diff == diff && f.problem == problem
    && f.status == Open && f.resolution == None && f.verifiedBy == []
  }

  /** The ledger takes a finding for each of these problems. */
  predicate Recordable(milestone: string, problems: seq<string>) {
    forall k | 0 <= k < |problems| :: ValidMilestone(milestone) && !Blank(problems[k])
  }

  /** A cached report is used again for the same diff. */
  ghost predicate AuditsKept(a: map<Diff, AuditReport>, b: map<Diff, AuditReport>) {
    forall d | d in a :: d in b && b[d] == a[d]
  }

  ghost predicate RunInv(policy: Policy, state: State, resume: Option<State>, rows: seq<Finding>,
                         audits: map<Diff, AuditReport>, finalDiff: Diff) {
    && (state in PAUSED_STATES ==>
        resume.Some? && resume.value in ACTIVE_STATES && resume.value in LegalTransitions(state))
    && RowsInv(rows, policy.milestone, audits)
    && (state == ReadyForHumanReview && Gated(policy) ==> AllSettled(rows, finalDiff))
  }

  /**
   Where bundle generation or acceptance is enforced, a run that is ready for human review
   had every finding raised on the very diff that is now final, and none from the audit.
   */
  lemma ReadyOnlyOnTheSameDiff(policy: Policy, state: State, resume: Option<State>, before: seq<Finding>,
                               rows: seq<Finding>, audits: map<Diff, AuditReport>, finalDiff: Diff)
    requires RunInv(policy, state, resume, rows, audits, finalDiff) && Later(before, rows)
    requires state == ReadyForHumanReview && Gated(policy)
    ensures forall i | 0 <= i < |before| ::
      before[i].diff == finalDiff && before[i].status != Invalidated && before[i].role == Claude
        && rows[i].status == Resolved
  {
    forall i | 0 <= i < |before|
      ensures before[i].diff == finalDiff && before[i].status != Invalidated && before[i].role == Claude
              && rows[i].status == Resolved
    {
      assert RowInv(rows[i], policy.milestone, audits);
      assert Relabelled(before[i], rows[i]);
    }
  }

  /** So once the audit has rejected a diff, or a finding was invalidated, such a run never becomes ready. */
  lemma RejectedNeverReady(policy: Policy, state: State, resume: Option<State>, before: seq<Finding>,
                           rows: seq<Finding>, audits: map<Diff, AuditReport>, finalDiff: Diff)
    requires RunInv(policy, state, resume, rows, audits, finalDiff) && Later(before, rows) && Gated(policy)
    requires exists i ::
      0 <= i < |before| && (before[i].role == Agy || before[i].status == Invalidated || before[i].diff != finalDiff)
    ensures state != ReadyForHumanReview
  {
    if state == ReadyForHumanReview {
      ReadyOnlyOnTheSameDiff(policy, state, resume, before, rows, audits, finalDiff);
    }
  }

  /** The phases a step may lead to after what it heard. */
  ghost predicate Leads(from: State, heard: Heard, to: State) {
    match heard
    case Audited(None) => from == AgyAudit && to in {ClaudeReview, Correction, Failed}
    case Audited(Some(Reports(report))) =>
      from == AgyAudit && if report.passed then to == ClaudeReview else to in {Correction, Failed}
    case Audited(Some(Retries(_))) => from == AgyAudit && to in {PausedQuota, Failed}
    case Audited(Some(_)) => from == AgyAudit && to == Failed
    case Reviewed(Reports(report)) =>
      from == ClaudeReview &&
      (match report.decision
       case Approve => to == FinalTests
       case HumanDecision => to == PausedHumanDecision
       case RequestChanges => to in {Correction, Failed})
    case Reviewed(Retries(_)) => from == ClaudeReview && to in {PausedQuota, Failed}
    case Reviewed(_) => from == ClaudeReview && to == Failed
    case Tested(Reports(_)) => from == FinalTests && to in {ReadyForHumanReview, Failed}
    case Tested(Retries(_)) => from == FinalTests && to in {Correction, Failed}
    case Tested(_) => from == FinalTests && to == Failed
    case Worked(Reports(_)) =>
      (match from
       case Created => to == PlanValidation
       case PlanValidation => to == BaselineValidation
       case BaselineValidation => to == Implementation
       case Implementation => to == ScopeValidation
       case Correction => to == ScopeValidation
       case ScopeValidation => to == FastTests
       case FastTests => to == AgyAudit
       case _ => false)
    case Worked(Retries(_)) =>
      if from == FastTests then to in {Correction, Failed}
      else from in {Implementation, Correction} && to in {PausedQuota, Failed}
    case Worked(_) => from !in {AgyAudit, ClaudeReview, FinalTests} && to == Failed
  }

  predicate LostIn(heard: Heard) {
    match heard
    case Audited(said) => said == Some(Unleased)
    case Reviewed(review) => review == Unleased
    case Tested(tests) => tests == Unleased
    case Worked(answer) => answer == Unleased
  }

  lemma NothingStuck(state: State)
    requires state in ACTIVE_STATES
    ensures state !in LegalTransitions(state) && Failed in LegalTransitions(state)
  {
  }

  class Orchestrator {
    const ledger: FindingLedger
    const policy: Policy
    var state: State
    var resume: Option<State>
    var correctionRounds: nat
    /** How often each agent has failed in a row. */
    var retries: map<Owner, nat>
    var audits: map<Diff, AuditReport>
    var diff: Diff
    ghost var finalDiff: Diff

    ghost predicate Valid()
      reads this, ledger
    {
      && ledger.Valid() && RunInv(policy, state, resume, ledger.rows, audits, finalDiff)
      && forall o | o in retries :: retries[o] <= policy.maxAttempts
    }

    function Failures(o: Owner): nat
      reads this
    {
      if o in retries then retries[o] else 0
    }

    constructor (ledger: FindingLedger, policy: Policy, diff: Diff)
      requires ledger.Valid() && ledger.rows == []
      ensures Valid() && state == Created && this.ledger == ledger && this.policy == policy
    {
      this.ledger, this.policy, this.diff := ledger, policy, diff;
      state, resume, correctionRounds, retries, audits, finalDiff := Created, None, 0, map[], map[], "";
    }

    /** `engine.transition`; that its target is legal is what every handler has to show. */
    method Go(to: State)
      requires Valid() && to in LegalTransitions(state) && to != ReadyForHumanReview
      modifies `state, `resume
      ensures Valid() && state == to
    {
      if to in PAUSED_STATES {
        PausesResumable(state, to);
      }
      resume := if to in PAUSED_STATES then Some(state) else None;
      state := to;
    }

    /** `_handle_retry_only` for an answer without a report: no more than `max_attempts` failures in a row. */
    method RetryOrFail(o: Owner, fatal: bool)
      requires Valid() && PausedQuota in LegalTransitions(state) && Failed in LegalTransitions(state)
      modifies `state, `resume, `retries
      ensures Valid() && state in LegalTransitions(old(state))
      ensures state == if fatal || old(Failures(o)) >= policy.maxAttempts then Failed else PausedQuota
      ensures retries == if state == Failed then old(retries) else old(retries)[o := old(Failures(o)) + 1]
    {
      if fatal || Failures(o) + 1 > policy.maxAttempts {
        Go(Failed);
      } else {
        retries := retries[o := Failures(o) + 1];
        Go(PausedQuota);
      }
    }

    /** `clear_retry`. */
    method ClearRetry(o: Owner)
      requires Valid()
      modifies `retries
      ensures Valid() && retries == old(retries) - {o}
    {
      retries := retries - {o};
    }

    /** `invalidate_stale` for the milestone and the current diff. */
    method InvalidateStale(d: Diff)
      requires Valid() && state != ReadyForHumanReview
      modifies ledger
      ensures Valid() && Later(old(ledger.rows), ledger.rows) && Refreshed(old(ledger.rows), ledger.rows, d)
      ensures forall i | 0 <= i < |ledger.rows| :: ledger.rows[i].status == Invalidated || ledger.rows[i].diff == d
    {
      hide NumberedIds, LegalTransitions;
      ghost var before := ledger.rows;
      var _ := ledger.InvalidateStale(policy.milestone, d);
      forall i | 0 <= i < |before|
        ensures Relabelled(before[i], ledger.rows[i]) && RowInv(ledger.rows[i], policy.milestone, audits)
        ensures ledger.rows[i].status == Invalidated || ledger.rows[i].diff == d
        ensures before[i].milestone == policy.milestone
      {
        assert RowInv(before[i], policy.milestone, audits);
      }
    }

    /** `_raise_review_findings`: one P1 finding a problem; a blank problem raises, after those before it. */
    method RaiseReviewFindings(role: Role, problems: seq<string>, d: Diff) returns (raised: bool)
      requires Valid() && state != ReadyForHumanReview && role in {Agy, Claude}
      requires role == Agy ==> d in audits && !audits[d].passed
      modifies ledger
      ensures Valid() && Later(old(ledger.rows), ledger.rows)
      ensures raised <==> !Recordable(policy.milestone, problems)
      ensures !raised ==> Recorded(old(ledger.rows), ledger.rows, policy.milestone, role, d, problems)
      ensures raised ==>
        exists k ::
          0 <= k < |problems| && (Blank(problems[k]) || !ValidMilestone(policy.milestone))
          && Recorded(old(ledger.rows), ledger.rows, policy.milestone, role, d, problems[..k])
    {
      hide NumberedIds, LegalTransitions, FindingId, Points, ValidMilestone, Blank;
      for k := 0 to |problems|
        invariant Valid() && Later(old(ledger.rows), ledger.rows) && Recordable(policy.milestone, problems[..k])
        invariant Recorded(old(ledger.rows), ledger.rows, policy.milestone, role, d, problems[..k])
      {
        ghost var before := ledger.rows;
        var finding := ledger.RaiseFinding(policy.milestone, role, P1, d, problems[k]);
        if finding.Err? {
          return true;
        }
        RecordedNext(old(ledger.rows), before, finding.value, policy.milestone, role, d, problems, k);
      }
      assert problems[..|problems|] == problems;
      return false;
    }

    /** `_resolve_role_findings`: only open findings of this role on this very diff. */
    method ResolveRoleFindings(role: Role, d: Diff, summary: string)
      requires Valid() && state != ReadyForHumanReview
      requires role == Agy ==> d in audits && audits[d].passed
      modifies ledger
      ensures Valid() && Later(old(ledger.rows), ledger.rows)
      ensures Approved(old(ledger.rows), ledger.rows, role, d, summary)
      ensures role == Agy ==> ledger.rows == old(ledger.rows)
    {
      hide NumberedIds, LegalTransitions, FindingId, Points, Blank, Later, RunInv;
      var listed, resolution := ledger.rows, "Verified resolved by " + Token(role) + ": " + summary;
      assert !Blank(resolution) by { NotBlank(resolution); }
      LaterRefl(listed, audits);
      for k := 0 to |listed|
        invariant Valid() && Later(listed, ledger.rows) && |ledger.rows| == |listed|
        invariant role == Agy ==> ledger.rows == listed
        invariant forall i | k <= i < |listed| :: ledger.rows[i] == listed[i]
        invariant forall i | 0 <= i < k :: ApprovedAs(listed[i], ledger.rows[i], role, d, summary)
      {
        var f := listed[k];
        RowHolds(policy, state, resume, ledger.rows, audits, finalDiff, k);
        if f.role == role && f.status == Open && f.diff == d {
          ghost var before := ledger.rows;
          OneResolved(policy, state, resume, before, k, resolution, [role, Gate], audits, finalDiff);
          var resolved := ledger.ResolveFinding(f.id, resolution, [role, Gate], d);
          assert resolved.Ok? && ledger.rows == before[k := ResolvedAs(before[k], resolution, [role, Gate], d)];
          LaterTransitive(listed, before, ledger.rows);
        }
      }
    }

    /**
     `_agy_audit`.  `said` is what the auditor answered, unless the audit is disabled or has a
     cached report; `live` are the findings once the stale ones are invalidated.
     */
    method RunAudit()
      returns (ending: Ending, ghost said: Option<Answer<AuditReport>>, ghost live: seq<Finding>)
      requires Valid() && state == AgyAudit
      modifies this, ledger
      ensures Valid() && Later(old(ledger.rows), ledger.rows) && AuditsKept(old(audits), audits)
      ensures if ending.Finished? then state in LegalTransitions(old(state)) else state == old(state)
      ensures diff == old(diff) && correctionRounds == old(correctionRounds)
      ensures said.None? <==> !policy.requireAgy || diff in old(audits)
      ensures audits ==
        if said.Some? && said.value.Reports? then old(audits)[diff := said.value.report] else old(audits)
      ensures !policy.requireAgy ==>
        ending.Finished? && state == ClaudeReview && ledger.rows == old(ledger.rows) && retries == old(retries)
      ensures policy.requireAgy ==> Refreshed(old(ledger.rows), live, diff)
      ensures said.Some? && !said.value.Reports? ==> ledger.rows == live
      ensures said.Some? && said.value.Reports? ==> Failures(Auditor) == 0
      ensures forall o | o != Auditor :: Failures(o) == old(Failures(o))
      ensures ending.NoLease? <==> said == Some(Unleased)
      ensures said == Some(Raises) ==> ending.Raised?
      ensures said == Some(Fatal) ==> ending.Finished? && state == Failed
      ensures said.Some? && said.value.Retries? ==>
        var failures := if said.value.repaired then 0 else old(Failures(Auditor));
        && ending.Finished? && state == (if failures >= policy.maxAttempts then Failed else PausedQuota)
        && (state == PausedQuota ==> Failures(Auditor) == failures + 1)
      ensures policy.requireAgy && (said.Some? ==> said.value.Reports?) ==>
        var report := audits[diff];
        var problems := if report.findings != [] then report.findings else [report.summary];
        if report.passed then ending.Finished? && state == ClaudeReview && ledger.rows == live
        else if Recordable(policy.milestone, problems) then
          && ending.Finished? && state == Correction
          && Recorded(live, ledger.rows, policy.milestone, Agy, diff, problems)
        else ending.Raised?
    {
      hide NumberedIds, RunInv, Recorded, Refreshed, Approved, Recordable, Later, LegalTransitions;
      LaterRefl(ledger.rows, audits);
      AuditExits(state);
      live := ledger.rows;
      if !policy.requireAgy {
        Go(ClaudeReview);
        return Finished, None, live;
      }
      var d := diff;
      InvalidateStale(d);
      live, said := ledger.rows, None;
      if d !in audits {
        var answer: Answer<AuditReport> := *;
        said := Some(answer);
        match answer {
          case Raises => return Raised, said, live;
          case Unleased =>
            var repairing: bool := *;
            if repairing {
              ClearRetry(Auditor);
            }
            return NoLease, said, live;
          case Retries(repaired) =>
            if repaired {
              ClearRetry(Auditor);
            }
            RetryOrFail(Auditor, false);
            return Finished, said, live;
          case Fatal => RetryOrFail(Auditor, true); return Finished, said, live;
          case Reports(report) =>
            ClearRetry(Auditor);
            AuditCached(policy, state, resume, ledger.rows, audits, d, report, finalDiff);
            audits := audits[d := report];
        }
      }
      var report := audits[d];
      if !report.passed {
        var raised :=
          RaiseReviewFindings(Agy, if report.findings != [] then report.findings else [report.summary], d);
        LaterTransitive(old(ledger.rows), live, ledger.rows);
        if raised {
          return Raised, said, live;
        }
        Go(Correction);
        return Finished, said, live;
      }
      ResolveRoleFindings(Agy, d, report.summary);
      Go(ClaudeReview);
      return Finished, said, live;
    }

    /** `_claude_review` and `_apply_review`; `live` are the findings once the stale ones are invalidated. */
    method RunReview() returns (ending: Ending, ghost answer: Answer<ReviewReport>, ghost live: seq<Finding>)
      requires Valid() && state == ClaudeReview
      modifies this, ledger
      ensures Valid() && Later(old(ledger.rows), ledger.rows)
      ensures if ending.Finished? then state in LegalTransitions(old(state)) else state == old(state)
      ensures audits == old(audits) && diff == old(diff) && correctionRounds == old(correctionRounds)
      ensures Refreshed(old(ledger.rows), live, diff)
      ensures !answer.Reports? ==> ledger.rows == live
      ensures (ending.NoLease? <==> answer.Unleased?) && (answer.Raises? ==> ending.Raised?)
      ensures answer.Fatal? ==> ending.Finished? && state == Failed
      ensures answer.Retries? ==>
        var failures := if answer.repaired then 0 else old(Failures(Reviewer));
        && ending.Finished? && state == (if failures >= policy.maxAttempts then Failed else PausedQuota)
        && (state == PausedQuota ==> Failures(Reviewer) == failures + 1)
      ensures answer.Reports? ==> Failures(Reviewer) == 0
      ensures forall o | o != Reviewer :: Failures(o) == old(Failures(o))
      ensures answer.Reports? ==>
        var report := answer.report;
        match report.decision
        case Approve =>
          ending.Finished? && state == FinalTests && Approved(live, ledger.rows, Claude, diff, report.summary)
        case HumanDecision => ending.Finished? && state == PausedHumanDecision && ledger.rows == live
        case RequestChanges =>
          var problems := if report.findings != [] then report.findings else [report.summary];
          if Recordable(policy.milestone, problems) then
            && ending.Finished?
            && state == (if correctionRounds >= policy.maxCorrectionRounds then Failed else Correction)
            && Recorded(live, ledger.rows, policy.milestone, Claude, diff, problems)
          else ending.Raised?
    {
      hide NumberedIds, RunInv, Recorded, Refreshed, Approved, Recordable, Later;
      var d := diff;
      InvalidateStale(d);
      live := ledger.rows;
      var reviewed: Answer<ReviewReport> := *;
      answer, ending := reviewed, Finished;
      match reviewed {
        case Raises => ending := Raised;
        case Unleased =>
          var repairing: bool := *;
          if repairing {
            ClearRetry(Reviewer);
          }
          ending := NoLease;
        case Retries(repaired) =>
          if repaired {
            ClearRetry(Reviewer);
          }
          RetryOrFail(Reviewer, false);
        case Fatal => RetryOrFail(Reviewer, true);
        case Reports(report) =>
          ClearRetry(Reviewer);
          match report.decision {
            case RequestChanges =>
              var raised :=
                RaiseReviewFindings(Claude, if report.findings != [] then report.findings else [report.summary], d);
              LaterTransitive(old(ledger.rows), live, ledger.rows);
              if raised {
                return Raised, answer, live;
              }
              Go(if correctionRounds >= policy.maxCorrectionRounds then Failed else Correction);
            case Approve =>
              ResolveRoleFindings(Claude, d, report.summary);
              LaterTransitive(old(ledger.rows), live, ledger.rows);
              Go(FinalTests);
            case HumanDecision =>
              Go(PausedHumanDecision);
          }
      }
    }

    /**
     `_final_tests`.  `evidence` is the bundle's answer: it verifies, and its tests, gates and
     artifacts are in order.  Ready for human review comes exactly with passed tests, that
     evidence where a bundle is made, and every finding settled where anything is enforced.
     */
    method RunFinalTests() returns (ending: Ending, ghost tests: Answer<()>, ghost evidence: bool)
      requires Valid() && state == FinalTests
      modifies this, ledger
      ensures Valid() && Later(old(ledger.rows), ledger.rows)
      ensures if ending.Finished? then state in LegalTransitions(old(state)) else state == old(state)
      ensures diff == old(diff) && audits == old(audits) && correctionRounds == old(correctionRounds)
      ensures retries == old(retries) && (state == ReadyForHumanReview ==> finalDiff == diff)
      ensures if tests.Reports? then Refreshed(old(ledger.rows), ledger.rows, diff) else ledger.rows == old(ledger.rows)
      ensures (ending.Raised? <==> tests.Raises?) && (ending.NoLease? <==> tests.Unleased?)
      ensures tests.Fatal? ==> state == Failed
      ensures tests.Retries? ==> state == if correctionRounds >= policy.maxCorrectionRounds then Failed else Correction
      ensures tests.Reports? ==> state in {ReadyForHumanReview, Failed}
      ensures tests.Reports? ==>
        (state == ReadyForHumanReview <==>
         && (Gated(policy) ==> AllSettled(ledger.rows, diff) && MAX_SCORE >= policy.requiredScore)
         && (policy.generateBundle ==> evidence))
    {
      hide NumberedIds, RowsInv, LegalTransitions, BundleReady, Refreshed, Later;
      LaterRefl(ledger.rows, audits);
      Exits(state);
      var ran: Answer<()>, problems: bool, evidenceOk: bool := *, *, *;
      ending, tests, evidence := Finished, ran, !problems && evidenceOk;
      match ran {
        case Raises => ending := Raised; return;
        case Unleased => ending := NoLease; return;
        case Fatal => Go(Failed); return;
        case Retries(_) =>
          Go(if correctionRounds >= policy.maxCorrectionRounds then Failed else Correction);
          return;
        case Reports(_) =>
      }
      var final := diff;
      InvalidateStale(final);
      var findings := ledger.rows;
      var score := Score(final, MAX_SCORE);
      var decision := EvaluateAcceptance(policy.milestone, findings, score, final, policy.requiredScore, true, true,
                                         true);
      AcceptedIff(policy.milestone, findings, score, final, policy.requiredScore, true, true, true);
      AcceptedSettled(findings, policy.milestone, audits, final);
      BundleReadyIff(decision, score, policy.requiredScore, findings, evidenceOk, final);
      if policy.generateBundle {
        if problems || !BundleReady(decision, score, policy.requiredScore, findings, evidenceOk) {
          Go(Failed);
          return;
        }
      }
      if policy.enforceAcceptance && !decision.accepted {
        Go(Failed);
        return;
      }
      state, resume, finalDiff := ReadyForHumanReview, None, final;
    }

    /**
     The handlers that do not touch the findings: `_created`, `_plan_validation`, `_baseline`,
     `_scope`, `_fast_tests`, `_implementation` and `_correction`.
     */
    method OtherPhase() returns (ending: Ending, ghost answer: Answer<()>)
      requires Valid() && state in ACTIVE_STATES && state !in {AgyAudit, ClaudeReview, FinalTests}
      modifies `state, `resume, `correctionRounds, `retries
      ensures Valid()
      ensures if ending.Finished? then state in LegalTransitions(old(state)) else state == old(state)
      ensures correctionRounds == old(correctionRounds) + (if old(state) == Correction then 1 else 0)
      ensures (ending.Raised? <==> answer.Raises?) && (ending.NoLease? <==> answer.Unleased?)
      ensures answer.Unleased? ==> old(state) in {BaselineValidation, FastTests, Implementation, Correction}
      ensures answer.Retries? ==> old(state) in {FastTests, Implementation, Correction} && !answer.repaired
      ensures answer.Fatal? ==> old(state) != Created && state == Failed
      ensures answer.Reports? ==>
        match old(state)
        case Created => state == PlanValidation
        case PlanValidation => state == BaselineValidation
        case BaselineValidation => state == Implementation
        case ScopeValidation => state == FastTests
        case FastTests => state == AgyAudit
        case _ => state == ScopeValidation
      ensures answer.Retries? && old(state) == FastTests ==>
        state == if correctionRounds >= policy.maxCorrectionRounds then Failed else Correction
      ensures answer.Retries? && old(state) in {Implementation, Correction} ==>
        && state == (if old(Failures(Codex)) >= policy.maxAttempts then Failed else PausedQuota)
        && (state == PausedQuota ==> Failures(Codex) == old(Failures(Codex)) + 1)
      ensures answer.Reports? && old(state) in {Implementation, Correction} ==> Failures(Codex) == 0
      ensures forall o | o != Codex :: Failures(o) == old(Failures(o))
    {
      hide RunInv, LegalTransitions;
      PhaseExits(state);
      if state == Correction {
        correctionRounds := correctionRounds + 1;
      }
      var outcome: Answer<()> := *;
      if outcome.Unleased? && state in {Created, PlanValidation, ScopeValidation} {
        outcome := Raises;
      }
      if outcome.Retries? {
        outcome := if state in {FastTests, Implementation, Correction} then Retries(false) else Reports(());
      }
      if outcome.Fatal? && state == Created {
        outcome := Reports(());
      }
      answer := outcome;
      ending := if outcome.Raises? then Raised else if outcome.Unleased? then NoLease else Finished;
      if !ending.Finished? {
        return;
      }
      var retries, rejected := outcome.Retries?, outcome.Fatal?;
      if state == Created {
        Go(PlanValidation);
      } else if state == PlanValidation {
        Go(if rejected then Failed else BaselineValidation);
      } else if state == BaselineValidation {
        Go(if rejected then Failed else Implementation);
      } else if state == ScopeValidation {
        Go(if rejected then Failed else FastTests);
      } else if state == FastTests {
        if rejected {
          Go(Failed);
        } else if retries {
          Go(if correctionRounds >= policy.maxCorrectionRounds then Failed else Correction);
        } else {
          Go(AgyAudit);
        }
      } else if rejected || retries {
        RetryOrFail(Codex, rejected);
      } else {
        ClearRetry(Codex);
        Go(ScopeValidation);
      }
    }

    /**
     `step`: the handler of the current phase; what it raises fails the run, except for a lost
     lease, which is raised inside the handler or by the check after it.
     */
    method Step() returns (leaseLost: bool, ghost heard: Heard)
      requires Valid() && state in ACTIVE_STATES
      modifies this, ledger
      ensures Valid() && Later(old(ledger.rows), ledger.rows) && AuditsKept(old(audits), audits)
      ensures if LostIn(heard) then leaseLost && state == old(state)
              else state != old(state) && state in LegalTransitions(old(state)) && Leads(old(state), heard, state)
      ensures old(state) !in {AgyAudit, ClaudeReview, FinalTests} ==> ledger.rows == old(ledger.rows) && heard.Worked?
    {
      hide Later, AuditsKept, RowsInv, NumberedIds, LegalTransitions, Recorded, Refreshed, Approved;
      NothingStuck(state);
      LaterRefl(ledger.rows, audits);
      var ending: Ending;
      ghost var live;
      if state == AgyAudit {
        ghost var said;
        ending, said, live := RunAudit();
        heard := Audited(said);
      } else if state == ClaudeReview {
        ghost var review;
        ending, review, live := RunReview();
        heard := Reviewed(review);
      } else if state == FinalTests {
        ghost var tests, evidence;
        ending, tests, evidence := RunFinalTests();
        heard := Tested(tests);
      } else {
        ghost var answer;
        ending, answer := OtherPhase();
        heard := Worked(answer);
      }
      match ending {
        case NoLease => return true, heard;
        case Raised => Go(Failed); return false, heard;
        case Finished =>
          leaseLost := *;
      }
    }

    /**
     `run_until_blocked`: it comes back with the run paused or over.  Losing the lease raises,
     and so does a run that is over exactly when the steps are used up.  `trail` are the
     phases it went through, one step after another, and `heard` what led from each to the
     next.
     */
    method RunUntilBlocked(maxSteps: nat)
      returns (outcome: Outcome, ghost trail: seq<State>, ghost heard: seq<Heard>, ghost cause: Cause)
      requires Valid()
      modifies this, ledger
      ensures Valid() && Later(old(ledger.rows), ledger.rows) && AuditsKept(old(audits), audits)
      ensures Travelled(trail, heard) && trail[0] == old(state) && |heard| <= maxSteps
      ensures var last := trail[|heard|];
        match cause
        case AtRest => outcome == Returned && state == last && state in TERMINAL_STATES + PAUSED_STATES
        case ByCancellation => outcome == Returned && state == Cancelled && last !in TERMINAL_STATES
        case ByLostLease => outcome == LeaseLost && state == last
        case ByLimit =>
          |heard| == maxSteps &&
          if last in TERMINAL_STATES then outcome == OverAtLimit && state == last
          else outcome == Returned && state == Failed
      ensures heard == [] ==> ledger.rows == old(ledger.rows)
    {
      hide Later, AuditsKept, RowsInv, NumberedIds, LegalTransitions, Leads;
      LaterRefl(ledger.rows, audits);
      trail, heard := [state], [];
      for n := 0 to maxSteps
        invariant Valid() && Later(old(ledger.rows), ledger.rows) && AuditsKept(old(audits), audits)
        invariant Travelled(trail, heard) && |heard| == n && forall k | 0 <= k < n :: !LostIn(heard[k])
        invariant trail[0] == old(state) && trail[n] == state
        invariant heard == [] ==> ledger.rows == old(ledger.rows)
      {
        var leaseLost: bool, cancelled: bool := *, *;
        if leaseLost {
          return LeaseLost, trail, heard, ByLostLease;
        }
        if cancelled && state !in TERMINAL_STATES {
          CanEnd(state);
          Go(Cancelled);
          return Returned, trail, heard, ByCancellation;
        }
        if state in TERMINAL_STATES || state in PAUSED_STATES {
          return Returned, trail, heard, AtRest;
        }
        diff := *;
        ghost var rows, kept := ledger.rows, audits;
        var lost;
        ghost var said;
        NotActive(state);
        lost, said := Step();
        LaterTransitive(old(ledger.rows), rows, ledger.rows);
        AuditsTransitive(old(audits), kept, audits);
        TravelledNext(trail, heard, said, state);
        trail, heard := trail + [state], heard + [said];
        if lost {
          return LeaseLost, trail, heard, ByLostLease;
        }
      }
      if state in TERMINAL_STATES {
        return OverAtLimit, trail, heard, ByLimit;
      }
      CanEnd(state);
      Go(Failed);
      return Returned, trail, heard, ByLimit;
    }

    /** `resume` of a paused run, back into the phase it interrupted. */
    method ResumeRun()
      requires Valid() && state in PAUSED_STATES
      modifies `state, `resume
      ensures Valid() && state in ACTIVE_STATES && Some(state) == old(resume)
    {
      Go(resume.value);
    }
  }

  /** Every step started in a phase in progress and took a legal edge explained by what it heard, or lost the lease. */
  ghost predicate Travelled(trail: seq<State>, heard: seq<Heard>) {
    |trail| == |heard| + 1 && forall k | 0 <= k < |heard| ::
      trail[k] in ACTIVE_STATES &&
      if LostIn(heard[k]) then k == |heard| - 1 && trail[k + 1] == trail[k]
      else trail[k + 1] in LegalTransitions(trail[k]) && Leads(trail[k], heard[k], trail[k + 1])
  }

  lemma TravelledNext(trail: seq<State>, heard: seq<Heard>, said: Heard, to: State)
    requires Travelled(trail, heard) && forall k | 0 <= k < |heard| :: !LostIn(heard[k])
    requires var last := trail[|heard|];
      && last in ACTIVE_STATES
      && if LostIn(said) then to == last else to in LegalTransitions(last) && Leads(last, said, to)
    ensures Travelled(trail + [to], heard + [said])
  {
    hide LegalTransitions, Leads, LostIn;
  }

  lemma NotActive(state: State)
    ensures state in ACTIVE_STATES || state in TERMINAL_STATES || state in PAUSED_STATES
  {
  }

  lemma NotBlank(text: string)
    requires text != "" && !IsSpace(text[0])
    ensures !Blank(text)
  {
  }

  lemma RecordedNext(before: seq<Finding>, rows: seq<Finding>, f: Finding, milestone: string, role: Role, diff: Diff,
                     problems: seq<string>, k: nat)
    requires k < |problems| && Recorded(before, rows, milestone, role, diff, problems[..k])
    requires RaisedAs(f, milestone, role, diff, problems[k])
    ensures Recorded(before, rows + [f], milestone, role, diff, problems[..k + 1])
  {
    hide RaisedAs;
    assert (rows + [f])[..|before|] == rows[..|before|];
    var longer, told := rows + [f], problems[..k + 1];
    forall j | 0 <= j < |told| ensures RaisedAs(longer[|before| + j], milestone, role, diff, told[j]) {
      assert j < k ==> told[j] == problems[..k][j];
    }
  }

  lemma CanEnd(state: State)
    requires state !in TERMINAL_STATES
    ensures Failed in LegalTransitions(state) && Cancelled in LegalTransitions(state)
  {
  }

  lemma AuditsTransitive(a: map<Diff, AuditReport>, b: map<Diff, AuditReport>, c: map<Diff, AuditReport>)
    requires AuditsKept(a, b) && AuditsKept(b, c)
    ensures AuditsKept(a, c)
  {
  }

  lemma LaterRefl(rows: seq<Finding>, audits: map<Diff, AuditReport>)
    ensures Later(rows, rows) && AuditsKept(audits, audits)
  {
  }

  lemma Exits(state: State)
    requires state == FinalTests
    ensures ReadyForHumanReview in LegalTransitions(state) && Failed in LegalTransitions(state)
            && Correction in LegalTransitions(state)
  {
  }

  lemma RowHolds(policy: Policy, state: State, resume: Option<State>, rows: seq<Finding>,
                 audits: map<Diff, AuditReport>, finalDiff: Diff, i: nat)
    requires i < |rows| && RunInv(policy, state, resume, rows, audits, finalDiff)
    ensures RowInv(rows[i], policy.milestone, audits)
  {
  }

  lemma OneResolved(policy: Policy, state: State, resume: Option<State>, rows: seq<Finding>, i: nat,
                    resolution: string, verifiedBy: seq<Role>, audits: map<Diff, AuditReport>, finalDiff: Diff)
    requires i < |rows| && RunInv(policy, state, resume, rows, audits, finalDiff) && state != ReadyForHumanReview
    requires rows[i].role == Claude && rows[i].status == Open
    ensures var resolved := rows[i := ResolvedAs(rows[i], resolution, verifiedBy, rows[i].diff)];
      RunInv(policy, state, resume, resolved, audits, finalDiff) && Later(rows, resolved)
  {
    hide LegalTransitions;
    var resolved := rows[i := ResolvedAs(rows[i], resolution, verifiedBy, rows[i].diff)];
    forall j | 0 <= j < |rows| ensures RowInv(resolved[j], policy.milestone, audits) {
      assert RowInv(rows[j], policy.milestone, audits);
    }
  }

  lemma AuditCached(policy: Policy, state: State, resume: Option<State>, rows: seq<Finding>,
                    audits: map<Diff, AuditReport>, d: Diff, report: AuditReport, finalDiff: Diff)
    requires RunInv(policy, state, resume, rows, audits, finalDiff) && d !in audits
    ensures RunInv(policy, state, resume, rows, audits[d := report], finalDiff)
  {
    hide LegalTransitions;
    forall i | 0 <= i < |rows| ensures RowInv(rows[i], policy.milestone, audits[d := report]) {
      assert RowInv(rows[i], policy.milestone, audits);
    }
  }

  lemma AuditExits(state: State)
    requires state == AgyAudit
    ensures forall to | to in {ClaudeReview, Correction, PausedQuota, Failed} :: to in LegalTransitions(state)
  {
  }

  /** The edges of the phases without findings. */
  lemma PhaseExits(state: State)
    requires state in ACTIVE_STATES
    ensures Failed in LegalTransitions(state)
    ensures state == Created ==> PlanValidation in LegalTransitions(state)
    ensures state == PlanValidation ==> BaselineValidation in LegalTransitions(state)
    ensures state == BaselineValidation ==> Implementation in LegalTransitions(state)
    ensures state == ScopeValidation ==> FastTests in LegalTransitions(state)
    ensures state == FastTests ==> AgyAudit in LegalTransitions(state) && Correction in LegalTransitions(state)
    ensures state in {Implementation, Correction} ==>
      ScopeValidation in LegalTransitions(state) && PausedQuota in LegalTransitions(state)
  {
  }

  /** For the orchestrator's P1 findings acceptance means that all of them are settled. */
  lemma AcceptedSettled(rows: seq<Finding>, milestone: string, audits: map<Diff, AuditReport>, diff: Diff)
    requires RowsInv(rows, milestone, audits)
    ensures AllSettled(rows, diff) <==> forall f | f in rows && f.milestone == milestone ::
      f.diff == diff && f.status != Invalidated && (BlocksAcceptance(f.severity) ==> f.status == Resolved)
  {
    forall i | 0 <= i < |rows| ensures RowInv(rows[i], milestone, audits) && rows[i] in rows {
    }
    if forall f | f in rows && f.milestone == milestone ::
      f.diff == diff && f.status != Invalidated && (BlocksAcceptance(f.severity) ==> f.status == Resolved)
    {
      forall i | 0 <= i < |rows| ensures rows[i].status == Resolved && rows[i].diff == diff {
        assert rows[i] in rows;
      }
    }
  }

  lemma BundleReadyIff(decision: Decision, score: Score, required: nat, findings: seq<Finding>, evidenceOk: bool,
                       diff: Diff)
    requires score.total >= required ==> (decision.accepted <==> AllSettled(findings, diff))
    requires score.total < required ==> !decision.accepted
    ensures BundleReady(decision, score, required, findings, evidenceOk) <==> decision.accepted && evidenceOk
  {
    if decision.accepted {
      forall f | f in findings ensures f.status == Resolved {
        var i :| 0 <= i < |findings| && findings[i] == f;
      }
    }
  }
}
