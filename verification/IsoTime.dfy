/** ISO 8601 timestamps in UTC, as `isoformat` prints them, and the order their text has. */
module IsoTime {
  import opened Texts
  import opened TextOrder

  /** A UTC date and time; earlier is smaller in the first field that differs. */
  datatype Instant = Instant(year: nat, month: nat, day: nat, hour: nat, minute: nat, second: nat, micro: nat)

  predicate ValidInstant(t: Instant) {
    && t.year < 10_000 && t.month < 100 && t.day < 100 && t.hour < 100 && t.minute < 100 && t.second < 100
    && t.micro < 1_000_000
  }

  function Fields(t: Instant): seq<nat> {
    [t.year, t.month, t.day, t.hour, t.minute, t.second, t.micro]
  }

  predicate Smaller(a: seq<nat>, b: seq<nat>)
    requires |a| == |b|
  {
    a != [] && (a[0] < b[0] || (a[0] == b[0] && Smaller(a[1..], b[1..])))
  }

  predicate Earlier(a: Instant, b: Instant) {
    Smaller(Fields(a), Fields(b))
  }

  lemma {:induction false} SmallerTotal(a: seq<nat>, b: seq<nat>)
    requires |a| == |b|
    ensures Smaller(a, b) || Smaller(b, a) || a == b
    ensures !(Smaller(a, b) && Smaller(b, a)) && (a == b ==> !Smaller(a, b))
  {
    if a != [] {
      SmallerTotal(a[1..], b[1..]);
      assert a == [a[0]] + a[1..] && b == [b[0]] + b[1..];
    }
  }

  lemma {:induction false} SmallerTransitive(a: seq<nat>, b: seq<nat>, c: seq<nat>)
    requires |a| == |b| == |c| && Smaller(a, b) && Smaller(b, c)
    ensures Smaller(a, c)
  {
    if a[0] == b[0] == c[0] { SmallerTransitive(a[1..], b[1..], c[1..]); }
  }

  lemma EarlierTotal(a: Instant, b: Instant)
    ensures Earlier(a, b) || Earlier(b, a) || a == b
    ensures !(Earlier(a, b) && Earlier(b, a)) && !Earlier(a, a)
  {
    SmallerTotal(Fields(a), Fields(b));
    SmallerTotal(Fields(a), Fields(a));
    if Fields(a) == Fields(b) {
      assert forall i | 0 <= i < 7 :: Fields(a)[i] == Fields(b)[i];
      assert a.year == Fields(a)[0] && a.month == Fields(a)[1] && a.day == Fields(a)[2] && a.hour == Fields(a)[3];
    }
  }

  lemma EarlierTransitive(a: Instant, b: Instant, c: Instant)
    requires Earlier(a, b) && Earlier(b, c)
    ensures Earlier(a, c)
  {
    SmallerTransitive(Fields(a), Fields(b), Fields(c));
  }

  // ---------- The text ----------

  function Pow10(w: nat): nat {
    if w == 0 then 1 else 10 * Pow10(w - 1)
  }

  /** The last `w` digits of `n`. */
  function Fixed(n: nat, w: nat): string {
    if w == 0 then "" else Fixed(n / 10, w - 1) + [Digit(n % 10)]
  }

  /** The microseconds are printed only when there are some. */
  function Fraction(micro: nat): string {
    if micro == 0 then "+00:00" else "." + (Fixed(micro, 6) + "+00:00")
  }

  datatype Column = Column(value: nat, width: nat, separator: string)

  function Columns(t: Instant): seq<Column> {
    [Column(t.year, 4, "-"), Column(t.month, 2, "-"), Column(t.day, 2, "T"),
     Column(t.hour, 2, ":"), Column(t.minute, 2, ":"), Column(t.second, 2, "")]
  }

  function Render(columns: seq<Column>, tail: string): string {
    if columns == [] then tail
    else Fixed(columns[0].value, columns[0].width) + (columns[0].separator + Render(columns[1..], tail))
  }

  /** `_iso`: `YYYY-MM-DDTHH:MM:SS[.ffffff]+00:00` */
  function Iso(t: Instant): string {
    Render(Columns(t), Fraction(t.micro))
  }

  // ---------- Its order ----------

  lemma {:induction false} LessConcat(a: string, x: string, b: string, y: string)
    requires |a| == |b|
    ensures Less(a + x, b + y) <==> Less(a, b) || (a == b && Less(x, y))
    decreases |a|
  {
    if a == [] {
      assert a + x == x && b + y == y;
      assert a == b && !Less(a, b);
    } else {
      LessConcat(a[1..], x, b[1..], y);
      assert (a + x)[1..] == a[1..] + x && (b + y)[1..] == b[1..] + y;
      assert a == [a[0]] + a[1..] && b == [b[0]] + b[1..];
    }
  }

  lemma ConcatSame(a: string, x: string, b: string, y: string)
    requires |a| == |b|
    ensures a + x == b + y <==> a == b && x == y
  {
    if a + x == b + y {
      assert a == (a + x)[..|a|] && b == (b + y)[..|b|];
      assert x == (a + x)[|a|..] && y == (b + y)[|b|..];
    }
  }

  lemma {:induction false} FixedOrder(m: nat, n: nat, w: nat)
    requires m < Pow10(w) && n < Pow10(w)
    ensures |Fixed(m, w)| == |Fixed(n, w)| == w
    ensures Less(Fixed(m, w), Fixed(n, w)) <==> m < n
    ensures Fixed(m, w) == Fixed(n, w) <==> m == n
    decreases w
  {
    if w > 0 {
      FixedOrder(m / 10, n / 10, w - 1);
      LessConcat(Fixed(m / 10, w - 1), [Digit(m % 10)], Fixed(n / 10, w - 1), [Digit(n % 10)]);
      ConcatSame(Fixed(m / 10, w - 1), [Digit(m % 10)], Fixed(n / 10, w - 1), [Digit(n % 10)]);
    }
  }

  /** Columns that differ only in their values, all of which fit. */
  ghost predicate Aligned(a: seq<Column>, b: seq<Column>) {
    && |a| == |b|
    && forall i | 0 <= i < |a| ::
         && a[i].width == b[i].width && a[i].separator == b[i].separator
         && a[i].value < Pow10(a[i].width) && b[i].value < Pow10(b[i].width)
  }

  function Values(columns: seq<Column>): seq<nat> {
    seq(|columns|, i requires 0 <= i < |columns| => columns[i].value)
  }

  lemma {:induction false} RenderOrder(a: seq<Column>, x: string, b: seq<Column>, y: string)
    requires Aligned(a, b)
    ensures Less(Render(a, x), Render(b, y)) <==>
      Smaller(Values(a), Values(b)) || (Values(a) == Values(b) && Less(x, y))
    ensures Render(a, x) == Render(b, y) <==> Values(a) == Values(b) && x == y
  {
    hide Less, Fixed, Pow10;
    if a != [] {
      var sep := a[0].separator;
      var restA, restB := Render(a[1..], x), Render(b[1..], y);
      RenderOrder(a[1..], x, b[1..], y);
      FixedOrder(a[0].value, b[0].value, a[0].width);
      LessConcat(sep, restA, sep, restB);
      LessIrreflexive(sep);
      ConcatSame(sep, restA, sep, restB);
      LessConcat(Fixed(a[0].value, a[0].width), sep + restA, Fixed(b[0].value, b[0].width), sep + restB);
      ConcatSame(Fixed(a[0].value, a[0].width), sep + restA, Fixed(b[0].value, b[0].width), sep + restB);
      assert Values(a) == [a[0].value] + Values(a[1..]) && Values(b) == [b[0].value] + Values(b[1..]);
    }
  }

  /** '+' sorts before '.', so a full second comes before its fractions. */
  lemma FractionOrder(m: nat, n: nat)
    requires m < 1_000_000 && n < 1_000_000
    ensures Less(Fraction(m), Fraction(n)) <==> m < n
    ensures Fraction(m) == Fraction(n) <==> m == n
  {
    assert Pow10(6) == 1_000_000 by { assert Pow10(3) == 1000; }
    FixedOrder(m, n, 6);
    LessConcat(Fixed(m, 6), "+00:00", Fixed(n, 6), "+00:00");
    LessIrreflexive("+00:00");
    ConcatSame(Fixed(m, 6), "+00:00", Fixed(n, 6), "+00:00");
    LessConcat(".", Fixed(m, 6) + "+00:00", ".", Fixed(n, 6) + "+00:00");
    ConcatSame(".", Fixed(m, 6) + "+00:00", ".", Fixed(n, 6) + "+00:00");
    LessIrreflexive(".");
    assert "+00:00"[0] == '+' && Fraction(m) != "" && Fraction(n) != "";
  }

  /** Comparing timestamps as text is comparing them as instants, with and without microseconds. */
  lemma IsoOrder(a: Instant, b: Instant)
    requires ValidInstant(a) && ValidInstant(b)
    ensures Less(Iso(a), Iso(b)) <==> Earlier(a, b)
    ensures Iso(a) == Iso(b) <==> a == b
  {
    assert Pow10(2) == 100 && Pow10(4) == 10_000;
    RenderOrder(Columns(a), Fraction(a.micro), Columns(b), Fraction(b.micro));
    FractionOrder(a.micro, b.micro);
    FieldsSplit(a, b);
  }

  lemma {:induction false} SmallerSnoc(a: seq<nat>, b: seq<nat>, x: nat, y: nat)
    requires |a| == |b|
    ensures Smaller(a + [x], b + [y]) <==> Smaller(a, b) || (a == b && x < y)
  {
    if a != [] {
      SmallerSnoc(a[1..], b[1..], x, y);
      assert (a + [x])[1..] == a[1..] + [x] && (b + [y])[1..] == b[1..] + [y];
      assert a == [a[0]] + a[1..] && b == [b[0]] + b[1..];
    }
  }

  lemma FieldsSplit(a: Instant, b: Instant)
    ensures Earlier(a, b) <==>
      Smaller(Values(Columns(a)), Values(Columns(b))) || (Values(Columns(a)) == Values(Columns(b)) && a.micro < b.micro)
    ensures a == b <==> Values(Columns(a)) == Values(Columns(b)) && a.micro == b.micro
  {
    var x, y := Values(Columns(a)), Values(Columns(b));
    assert Fields(a) == x + [a.micro] && Fields(b) == y + [b.micro];
    SmallerSnoc(x, y, a.micro, b.micro);
    if x == y {
      assert forall i | 0 <= i < 6 :: x[i] == y[i];
      assert a.year == x[0] && a.month == x[1] && a.day == x[2] && a.hour == x[3] && a.minute == x[4]
              && a.second == x[5];
      assert b.year == y[0] && b.month == y[1] && b.day == y[2] && b.hour == y[3] && b.minute == y[4]
              && b.second == y[5];
    }
  }
}
