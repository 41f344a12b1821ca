/** The text a provider call is identified by, and exactly which requests share it with others. */
module CallIds {
  import opened Texts
  import opened Budgets

  const NUL: char := '\0'

  datatype Request = Request(place: Place, provider: string, invocation: string, task: string)

  /** The text whose SHA-256 is the call id. */
  function CallId(r: Request): string {
    r.place.project + [NUL] + r.place.milestone + [NUL] + r.provider + [NUL] + r.invocation + [NUL] + r.task
  }

  /** Only the task text may hold a NUL. */
  predicate Plain(r: Request) {
    NUL !in r.place.project && NUL !in r.place.milestone && NUL !in r.provider && NUL !in r.invocation
  }

  lemma Nested(r: Request)
    ensures CallId(r) ==
      r.place.project + [NUL] + (r.place.milestone + [NUL] + (r.provider + [NUL] + (r.invocation + [NUL] + r.task)))
  {
    var d := r.invocation + [NUL] + r.task;
    var c := r.provider + [NUL] + d;
    assert r.provider + [NUL] + r.invocation + [NUL] + r.task == c;
    var b := r.place.milestone + [NUL] + c;
    assert r.place.milestone + [NUL] + r.provider + [NUL] + r.invocation + [NUL] + r.task == b;
  }

  /** Different plain requests have different call ids. */
  lemma PlainIdsDiffer(r: Request, other: Request)
    requires Plain(r) && Plain(other) && CallId(r) == CallId(other)
    ensures r == other
  {
    var d, d' := r.invocation + [NUL] + r.task, other.invocation + [NUL] + other.task;
    var c, c' := r.provider + [NUL] + d, other.provider + [NUL] + d';
    var b, b' := r.place.milestone + [NUL] + c, other.place.milestone + [NUL] + c';
    Nested(r);
    Nested(other);
    hide CallId;
    SplitAt(r.place.project, b, other.place.project, b', NUL);
    SplitAt(r.place.milestone, c, other.place.milestone, c', NUL);
    SplitAt(r.provider, d, other.provider, d', NUL);
    SplitAt(r.invocation, r.task, other.invocation, other.task, NUL);
  }

  function Nuls(s: string): nat {
    if s == "" then 0 else Nuls(s[1..]) + if s[0] == NUL then 1 else 0
  }

  lemma {:induction false} NulsConcat(a: string, b: string)
    ensures Nuls(a + b) == Nuls(a) + Nuls(b)
    decreases |a|
  {
    if a == "" {
      assert a + b == b;
    } else {
      NulsConcat(a[1..], b);
      assert (a + b)[1..] == a[1..] + b;
    }
  }

  lemma {:induction false} NulsIff(s: string)
    ensures Nuls(s) > 0 <==> NUL in s
  {
    if s != "" {
      NulsIff(s[1..]);
      assert s == [s[0]] + s[1..];
    }
  }

  lemma NulsJoined(a: string, b: string)
    ensures Nuls(a + [NUL] + b) == Nuls(a) + 1 + Nuls(b)
  {
    NulsConcat(a + [NUL], b);
    NulsConcat(a, [NUL]);
    assert [NUL][1..] == "";
  }

  lemma NulsOfId(r: Request)
    ensures Nuls(CallId(r)) ==
      4 + Nuls(r.place.project) + Nuls(r.place.milestone) + Nuls(r.provider) + Nuls(r.invocation) + Nuls(r.task)
  {
    Nested(r);
    var d := r.invocation + [NUL] + r.task;
    var c := r.provider + [NUL] + d;
    NulsJoined(r.invocation, r.task);
    NulsJoined(r.provider, d);
    NulsJoined(r.place.milestone, c);
    NulsJoined(r.place.project, r.place.milestone + [NUL] + c);
    hide CallId, Nuls;
  }

  /** Cut at the first NUL. */
  lemma {:induction false} FirstNul(s: string) returns (head: string, rest: string)
    requires Nuls(s) > 0
    ensures NUL !in head && s == head + [NUL] + rest && Nuls(rest) == Nuls(s) - 1
    decreases |s|
  {
    if s[0] == NUL {
      head, rest := "", s[1..];
    } else {
      var inner: string;
      inner, rest := FirstNul(s[1..]);
      head := [s[0]] + inner;
      assert head + [NUL] + rest == [s[0]] + (inner + [NUL] + rest);
    }
  }

  /** Every call id is that of some plain request: cut it at its first four NULs. */
  lemma PlainTwin(r: Request) returns (twin: Request)
    ensures Plain(twin) && CallId(twin) == CallId(r)
  {
    NulsOfId(r);
    hide CallId, Nuls;
    var project, s1 := FirstNul(CallId(r));
    var milestone, s2 := FirstNul(s1);
    var provider, s3 := FirstNul(s2);
    var invocation, task := FirstNul(s3);
    twin := Request(Place(project, milestone), provider, invocation, task);
    Nested(twin);
  }

  /** A request shares its call id with another, plain request exactly when it is not plain itself. */
  lemma SharedWithPlainIff(r: Request)
    ensures (exists other :: Plain(other) && other != r && CallId(other) == CallId(r)) <==> !Plain(r)
  {
    hide CallId;
    if Plain(r) {
      forall other | Plain(other) && CallId(other) == CallId(r) ensures other == r {
        PlainIdsDiffer(other, r);
      }
    } else {
      var twin := PlainTwin(r);
      assert Plain(twin) && twin != r;
    }
  }

  /** Moving the first NUL of the task to the front gives another request with the same id. */
  lemma ShiftedTwin(r: Request) returns (twin: Request)
    requires NUL in r.task && Plain(r)
    ensures twin != r && CallId(twin) == CallId(r)
  {
    NulsIff(r.task);
    var head, rest := FirstNul(r.task);
    twin := Request(Place(r.place.project + [NUL] + r.place.milestone, r.provider), r.invocation, head, rest);
    assert twin.place.project[|r.place.project|] == NUL;
    assert CallId(twin) ==
      r.place.project + [NUL] + r.place.milestone + [NUL] + r.provider + [NUL] + r.invocation + [NUL]
        + (head + [NUL] + rest);
  }

  /** A request shares its call id with any other request at all exactly when one of its five texts holds a NUL. */
  lemma SharedIff(r: Request)
    ensures (exists other :: other != r && CallId(other) == CallId(r)) <==> !Plain(r) || NUL in r.task
  {
    hide CallId, Nuls;
    if !Plain(r) {
      SharedWithPlainIff(r);
    } else if NUL in r.task {
      var twin := ShiftedTwin(r);
    } else {
      forall other | CallId(other) == CallId(r) ensures other == r {
        NulsOfId(r);
        NulsOfId(other);
        NulFree(r);
        NulFree(other);
        PlainIdsDiffer(r, other);
      }
    }
  }

  lemma NulFree(r: Request)
    ensures Plain(r) && NUL !in r.task <==>
      Nuls(r.place.project) + Nuls(r.place.milestone) + Nuls(r.provider) + Nuls(r.invocation) + Nuls(r.task) == 0
  {
    NulsIff(r.place.project);
    NulsIff(r.place.milestone);
    NulsIff(r.provider);
    NulsIff(r.invocation);
    NulsIff(r.task);
  }
}
