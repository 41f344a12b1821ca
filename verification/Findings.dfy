/** Review findings as values: their ids, what may happen to them, and the acceptance rule. */
module Findings {
  import opened Wrappers
  import opened Texts

  datatype Severity = P0 | P1 | P2 | P3

  datatype Role = Agy | Claude | Scientific | Security | Gate

  datatype FindingStatus = Open | Resolved | Invalidated

  type Diff = string

  datatype Finding = Finding(
    id: string, milestone: string, role: Role, severity: Severity, diff: Diff, problem: string,
    status: FindingStatus, resolution: Option<string>, verifiedBy: seq<Role>)

  predicate BlocksAcceptance(s: Severity) {
    s.P0? || s.P1?
  }

  predicate OpenBlocker(f: Finding) {
    f.status == Open && BlocksAcceptance(f.severity)
  }

  // ---------- Ids ----------

  function Token(r: Role): string {
    match r
    case Agy => "AGY"
    case Claude => "CLAUDE"
    case Scientific => "SCI"
    case Security => "SEC"
    case Gate => "GATE"
  }

  /** `M\d{2,}` */
  predicate ValidMilestone(m: string) {
    |m| >= 3 && m[0] == 'M' && forall i | 1 <= i < |m| :: IsDigit(m[i])
  }

  /** `{milestone}-{role}-P{ordinal:03d}` */
  function FindingId(milestone: string, role: Role, ordinal: nat): string {
    milestone + ['-'] + (Token(role) + ['-'] + (['P'] + Padded(ordinal, 3)))
  }

  lemma TokensDiffer(a: Role, b: Role)
    requires Token(a) == Token(b)
    ensures a == b
  {
    if |Token(a)| == 3 {
      assert Token(a)[0] == Token(b)[0] && Token(a)[1] == Token(b)[1];
    }
  }

  lemma NoDash(milestone: string, role: Role)
    requires ValidMilestone(milestone)
    ensures '-' !in milestone && '-' !in Token(role)
  {
    assert forall i | 0 <= i < |milestone| :: milestone[i] == 'M' || IsDigit(milestone[i]);
  }

  /** An id tells milestone, role and ordinal apart. */
  lemma FindingIdsDiffer(m: string, r: Role, n: nat, m': string, r': Role, n': nat)
    requires ValidMilestone(m) && ValidMilestone(m') && FindingId(m, r, n) == FindingId(m', r', n')
    ensures m == m' && r == r' && n == n'
  {
    NoDash(m, r);
    NoDash(m', r');
    var tail, tail' := ['P'] + Padded(n, 3), ['P'] + Padded(n', 3);
    SplitAt(m, Token(r) + ['-'] + tail, m', Token(r') + ['-'] + tail', '-');
    SplitAt(Token(r), tail, Token(r'), tail', '-');
    TokensDiffer(r, r');
    assert Padded(n, 3) == tail[1..] && Padded(n', 3) == tail'[1..];
    PaddedValue(n, 3);
    PaddedValue(n', 3);
  }

  /** An id begins with milestone, role and "P", as a finding's own check demands, and ends in its number. */
  lemma FindingIdShape(milestone: string, role: Role, ordinal: nat)
    ensures var id, head := FindingId(milestone, role, ordinal), milestone + "-" + Token(role) + "-P";
      && head <= id && |id| >= |head| + 3
      && (forall i | |head| <= i < |id| :: IsDigit(id[i])) && Value(id[|head|..]) == ordinal
  {
    var id, head := FindingId(milestone, role, ordinal), milestone + "-" + Token(role) + "-P";
    PaddedValue(ordinal, 3);
    hide Padded, Value;
    assert id == head + Padded(ordinal, 3);
    assert id[|head|..] == Padded(ordinal, 3);
  }

  /** `_points_for`: the findings this role has raised for this milestone. */
  function Points(rows: seq<Finding>, milestone: string, role: Role): nat {
    if rows == [] then 0
    else
      var last := rows[|rows| - 1];
      Points(rows[..|rows| - 1], milestone, role) + if last.milestone == milestone && last.role == role then 1 else 0
  }

  predicate RaisedBy(f: Finding, milestone: string, role: Role) {
    f.milestone == milestone && f.role == role
  }

  ghost function RowsBy(rows: seq<Finding>, milestone: string, role: Role): set<int> {
    set i | 0 <= i < |rows| && RaisedBy(rows[i], milestone, role)
  }

  lemma RowsByNext(rows: seq<Finding>, f: Finding, milestone: string, role: Role)
    ensures RowsBy(rows + [f], milestone, role) ==
      RowsBy(rows, milestone, role) + if RaisedBy(f, milestone, role) then {|rows|} else {}
    ensures |rows| !in RowsBy(rows, milestone, role)
  {
    hide RaisedBy;
  }

  lemma {:induction false} PointsAreRows(rows: seq<Finding>, milestone: string, role: Role)
    ensures Points(rows, milestone, role) == |RowsBy(rows, milestone, role)|
  {
    if rows != [] {
      var before, last := rows[..|rows| - 1], rows[|rows| - 1];
      PointsAreRows(before, milestone, role);
      RowsByNext(before, last, milestone, role);
      assert before + [last] == rows;
      hide RowsBy;
    }
  }

  /** `SELECT COUNT(*)` over the rows of the milestone and the role. */
  lemma PointsCounted(rows: seq<Finding>, milestone: string, role: Role)
    ensures Points(rows, milestone, role) ==
      |set i | 0 <= i < |rows| && rows[i].milestone == milestone && rows[i].role == role|
  {
    PointsAreRows(rows, milestone, role);
    assert RowsBy(rows, milestone, role) ==
      set i | 0 <= i < |rows| && rows[i].milestone == milestone && rows[i].role == role;
  }

  /** Every finding got the next id of its milestone and role. */
  ghost predicate NumberedIds(rows: seq<Finding>) {
    forall i | 0 <= i < |rows| ::
      && ValidMilestone(rows[i].milestone)
      && rows[i].id == FindingId(rows[i].milestone, rows[i].role,
                                 Points(rows[..i], rows[i].milestone, rows[i].role) + 1)
  }

  lemma {:induction false} PointsGrow(rows: seq<Finding>, i: nat, j: nat, milestone: string, role: Role)
    requires i <= j <= |rows|
    ensures Points(rows[..i], milestone, role) <= Points(rows[..j], milestone, role)
    decreases j
  {
    if i < j {
      PointsGrow(rows, i, j - 1, milestone, role);
      assert rows[..j][..j - 1] == rows[..j - 1];
    }
  }

  /** No two findings of a run share an id, so no insertion violates the primary key. */
  lemma IdsNeverCollide(rows: seq<Finding>, i: nat, j: nat)
    requires NumberedIds(rows) && i < j < |rows|
    ensures rows[i].id != rows[j].id
  {
    hide FindingId, ValidMilestone;
    var m, r := rows[i].milestone, rows[i].role;
    PointsGrow(rows, i + 1, j, m, r);
    assert rows[..i + 1][..i] == rows[..i];
    if rows[i].id == rows[j].id {
      FindingIdsDiffer(m, r, Points(rows[..i], m, r) + 1,
                       rows[j].milestone, rows[j].role, Points(rows[..j], rows[j].milestone, rows[j].role) + 1);
    }
  }

  // ---------- How findings may change ----------

  predicate Relabelled(a: Finding, b: Finding) {
    b.id == a.id && b.milestone == a.milestone && b.role == a.role && b.severity == a.severity && b.problem == a.problem
  }

  /** Findings are never removed or renumbered. */
  ghost predicate SameFindings(a: seq<Finding>, b: seq<Finding>) {
    |a| <= |b| && forall i | 0 <= i < |a| :: Relabelled(a[i], b[i])
  }

  lemma {:induction false} PointsSame(a: seq<Finding>, b: seq<Finding>, n: nat, milestone: string, role: Role)
    requires SameFindings(a, b) && n <= |a|
    ensures Points(a[..n], milestone, role) == Points(b[..n], milestone, role)
  {
    if n > 0 {
      PointsSame(a, b, n - 1, milestone, role);
      assert a[..n][..n - 1] == a[..n - 1] && b[..n][..n - 1] == b[..n - 1];
      assert Relabelled(a[n - 1], b[n - 1]);
    }
  }

  lemma UpdatesKeepIds(a: seq<Finding>, b: seq<Finding>)
    requires NumberedIds(a) && SameFindings(a, b) && |a| == |b|
    ensures NumberedIds(b)
  {
    hide FindingId, ValidMilestone, Points;
    forall i | 0 <= i < |b|
      ensures ValidMilestone(b[i].milestone)
      ensures b[i].id == FindingId(b[i].milestone, b[i].role, Points(b[..i], b[i].milestone, b[i].role) + 1)
    {
      PointsSame(a, b, i, b[i].milestone, b[i].role);
      assert Relabelled(a[i], b[i]);
    }
  }

  lemma RaisingKeepsIds(rows: seq<Finding>, f: Finding)
    requires NumberedIds(rows) && ValidMilestone(f.milestone)
    requires f.id == FindingId(f.milestone, f.role, Points(rows, f.milestone, f.role) + 1)
    ensures NumberedIds(rows + [f])
  {
    hide FindingId, ValidMilestone, Points;
    forall i | 0 <= i <= |rows| ensures (rows + [f])[..i] == rows[..i] {
    }
    assert rows[..|rows|] == rows;
  }

  predicate IsStale(f: Finding, milestone: string, diff: Diff) {
    f.milestone == milestone && f.status != Invalidated && f.diff != diff
  }

  /** `invalidate_stale` on one row. */
  function Invalidate(f: Finding, milestone: string, diff: Diff): Finding {
    if IsStale(f, milestone, diff) then f.(status := Invalidated) else f
  }

  // ---------- Acceptance ----------

  datatype Score = Score(diff: Diff, total: nat)

  datatype Reason =
    | OpenBlockers(ids: seq<string>) | RequireReview(ids: seq<string>) | ScoreOfOtherDiff | ScoreTooLow
    | GatesFailed | DeliverablesMissing | ChecksumsInvalid

  datatype Decision = Decision(accepted: bool, openBlockers: seq<string>, reasons: seq<Reason>)

  predicate BlockerOf(f: Finding, milestone: string) {
    f.milestone == milestone && OpenBlocker(f)
  }

  predicate NeedsReview(f: Finding, milestone: string, diff: Diff) {
    f.milestone == milestone && (f.status == Invalidated || f.diff != diff)
  }

  function BlockerIds(findings: seq<Finding>, milestone: string): seq<string> {
    if findings == [] then []
    else (if BlockerOf(findings[0], milestone) then [findings[0].id] else []) + BlockerIds(findings[1..], milestone)
  }

  function StaleIds(findings: seq<Finding>, milestone: string, diff: Diff): seq<string> {
    if findings == [] then []
    else
      (if NeedsReview(findings[0], milestone, diff) then [findings[0].id] else [])
      + StaleIds(findings[1..], milestone, diff)
  }

  function When(holds: bool, reason: Reason): (r: seq<Reason>)
    ensures forall other :: other in r <==> holds && other == reason
  {
    if holds then [reason] else []
  }

  function EvaluateAcceptance(milestone: string, findings: seq<Finding>, score: Score, finalDiff: Diff, required: nat,
                              gatesPassed: bool, deliverablesPresent: bool, checksumsValid: bool): Decision {
    var blockers, stale := BlockerIds(findings, milestone), StaleIds(findings, milestone, finalDiff);
    var reasons :=
      When(blockers != [], OpenBlockers(blockers)) + When(stale != [], RequireReview(stale))
      + When(score.diff != finalDiff, ScoreOfOtherDiff) + When(score.total < required, ScoreTooLow)
      + When(!gatesPassed, GatesFailed) + When(!deliverablesPresent, DeliverablesMissing)
      + When(!checksumsValid, ChecksumsInvalid);
    Decision(reasons == [], blockers, reasons)
  }

  lemma {:induction false} NoBlockersIff(findings: seq<Finding>, milestone: string)
    ensures BlockerIds(findings, milestone) == [] <==> forall f | f in findings :: !BlockerOf(f, milestone)
  {
    if findings != [] {
      NoBlockersIff(findings[1..], milestone);
      assert findings == [findings[0]] + findings[1..];
    }
  }

  lemma {:induction false} NoStaleIff(findings: seq<Finding>, milestone: string, diff: Diff)
    ensures StaleIds(findings, milestone, diff) == [] <==> forall f | f in findings :: !NeedsReview(f, milestone, diff)
  {
    if findings != [] {
      NoStaleIff(findings[1..], milestone, diff);
      assert findings == [findings[0]] + findings[1..];
    }
  }

  /**
   The charter's conjunctive rule: accepted exactly when every P0 or P1 finding of the
   milestone is resolved, all its findings are bound to the final diff and none is
   invalidated, and score, gates, deliverables and checksums are in order.
   */
  lemma AcceptedIff(milestone: string, findings: seq<Finding>, score: Score, finalDiff: Diff, required: nat,
                    gatesPassed: bool, deliverablesPresent: bool, checksumsValid: bool)
    ensures EvaluateAcceptance(milestone, findings, score, finalDiff, required, gatesPassed, deliverablesPresent,
                               checksumsValid).accepted
            <==>
            && (forall f | f in findings && f.milestone == milestone ::
                  f.diff == finalDiff && f.status != Invalidated
                  && (BlocksAcceptance(f.severity) ==> f.status == Resolved))
            && score.diff == finalDiff && score.total >= required && gatesPassed && deliverablesPresent
            && checksumsValid
  {
    NoBlockersIff(findings, milestone);
    NoStaleIff(findings, milestone, finalDiff);
  }

  lemma {:induction false} IdsListed(findings: seq<Finding>, milestone: string, diff: Diff, id: string)
    ensures id in BlockerIds(findings, milestone) <==>
      exists f :: f in findings && f.id == id && f.milestone == milestone && f.status == Open && f.severity in {P0, P1}
    ensures id in StaleIds(findings, milestone, diff) <==>
      exists f :: f in findings && f.id == id && f.milestone == milestone && (f.status == Invalidated || f.diff != diff)
  {
    if findings != [] {
      IdsListed(findings[1..], milestone, diff, id);
      assert findings == [findings[0]] + findings[1..];
      assert forall f :: f in findings <==> f == findings[0] || f in findings[1..];
    }
  }

  lemma ReasonsListed(milestone: string, findings: seq<Finding>, score: Score, finalDiff: Diff, required: nat,
                      gatesPassed: bool, deliverablesPresent: bool, checksumsValid: bool, reason: Reason)
    ensures var d := EvaluateAcceptance(milestone, findings, score, finalDiff, required, gatesPassed,
                                        deliverablesPresent, checksumsValid);
      var stale := StaleIds(findings, milestone, finalDiff);
      && d.openBlockers == BlockerIds(findings, milestone)
      && (reason in d.reasons <==>
            match reason
            case OpenBlockers(ids) => ids == d.openBlockers && ids != []
            case RequireReview(ids) => ids == stale && ids != []
            case ScoreOfOtherDiff => score.diff != finalDiff
            case ScoreTooLow => score.total < required
            case GatesFailed => !gatesPassed
            case DeliverablesMissing => !deliverablesPresent
            case ChecksumsInvalid => !checksumsValid)
  {
    hide When, BlockerIds, StaleIds;
  }

  /**
   What a decision tells: its open blockers are exactly the open P0 and P1 findings of the
   milestone, each reason is given exactly when it holds, and the one for a new review names
   exactly the invalidated findings and those bound to another diff.
   */
  lemma ReasonsExact(milestone: string, findings: seq<Finding>, score: Score, finalDiff: Diff, required: nat,
                     gatesPassed: bool, deliverablesPresent: bool, checksumsValid: bool)
    ensures var d := EvaluateAcceptance(milestone, findings, score, finalDiff, required, gatesPassed,
                                        deliverablesPresent, checksumsValid);
      && (forall id :: id in d.openBlockers <==>
            exists f :: f in findings && f.id == id && f.milestone == milestone && f.status == Open
                        && f.severity in {P0, P1})
      && (forall ids | RequireReview(ids) in d.reasons :: forall id ::
            id in ids <==>
              exists f :: f in findings && f.id == id && f.milestone == milestone
                          && (f.status == Invalidated || f.diff != finalDiff))
      && ((exists ids :: RequireReview(ids) in d.reasons) <==>
            exists f :: f in findings && f.milestone == milestone && (f.status == Invalidated || f.diff != finalDiff))
      && ((exists ids :: OpenBlockers(ids) in d.reasons) <==> d.openBlockers != [])
      && (ScoreOfOtherDiff in d.reasons <==> score.diff != finalDiff)
      && (ScoreTooLow in d.reasons <==> score.total < required)
      && (GatesFailed in d.reasons <==> !gatesPassed)
      && (DeliverablesMissing in d.reasons <==> !deliverablesPresent)
      && (ChecksumsInvalid in d.reasons <==> !checksumsValid)
  {
    forall reason {
      ReasonsListed(milestone, findings, score, finalDiff, required, gatesPassed, deliverablesPresent, checksumsValid,
                    reason);
    }
    ReasonsListed(milestone, findings, score, finalDiff, required, gatesPassed, deliverablesPresent, checksumsValid,
                  GatesFailed);
    forall id { IdsListed(findings, milestone, finalDiff, id); }
    NoStaleIff(findings, milestone, finalDiff);
    var d := EvaluateAcceptance(milestone, findings, score, finalDiff, required, gatesPassed, deliverablesPresent,
                                checksumsValid);
    hide BlockerIds, StaleIds, EvaluateAcceptance;
    if d.openBlockers != [] { assert OpenBlockers(d.openBlockers) in d.reasons; }
    if StaleIds(findings, milestone, finalDiff) != [] {
      assert RequireReview(StaleIds(findings, milestone, finalDiff)) in d.reasons;
    }
    if f :| f in findings && f.milestone == milestone && (f.status == Invalidated || f.diff != finalDiff) {
      assert NeedsReview(f, milestone, finalDiff);
    }
  }

  /** `readiness_reasons` is empty; `evidenceOk` stands for its tests, scientific gates and artifact digests. */
  predicate BundleReady(decision: Decision, score: Score, required: nat, findings: seq<Finding>, evidenceOk: bool) {
    && decision.accepted
    && score.total >= required
    && (forall f | f in findings :: BlocksAcceptance(f.severity) ==> f.status == Resolved)
    && evidenceOk
  }
}
