/** For which pair of windows, the one written with and the one queried with, pruning by label is sound. */
module Pruning {
  import opened Core
  import opened Windows

  // ---- Greatest common divisors ----

  function Gcd(a: nat, b: nat): (g: nat)
    requires a + b > 0
    ensures g > 0
    decreases b
  {
    if b == 0 then a else Gcd(b, a % b)
  }

  lemma GcdStep(a: nat, b: nat)
    requires b > 0
    ensures Gcd(a, b) == Gcd(b, a % b)
  {
  }

  lemma GcdOfZero(a: nat)
    requires a > 0
    ensures Gcd(a, 0) == a
  {
  }

  lemma {:induction false} GcdDivides(a: nat, b: nat) returns (p: nat, q: nat)
    requires a + b > 0
    ensures a == Gcd(a, b) * p && b == Gcd(a, b) * q
    decreases b
  {
    hide Gcd;
    if b == 0 {
      GcdOfZero(a);
      p, q := 1, 0;
    } else {
      var d, r := a / b, a % b;
      var p', q' := GcdDivides(b, r);
      p, q := d * p' + q', p';
      GcdStep(a, b);
      DivMod(a, b);
      DividesStep(a, b, d, r, Gcd(b, r), p', q');
    }
  }

  lemma DividesStep(a: nat, b: nat, d: nat, r: nat, g: nat, p: nat, q: nat)
    requires a == b * d + r && b == g * p && r == g * q
    ensures a == g * (d * p + q)
  {
    assert g * (d * p + q) == g * (d * p) + g * q;
    assert g * (d * p) == (g * p) * d;
  }

  /** Some integer combination of the two is their greatest common divisor. */
  lemma {:induction false} Bezout(a: nat, b: nat) returns (x: int, y: int)
    requires a + b > 0
    ensures a * x + b * y == Gcd(a, b)
    decreases b
  {
    hide Gcd;
    if b == 0 {
      GcdOfZero(a);
      x, y := 1, 0;
    } else {
      var d, r := a / b, a % b;
      var x', y' := Bezout(b, r);
      x, y := y', x' - d * y';
      GcdStep(a, b);
      DivMod(a, b);
      BezoutStep(a, b, d, r, x', y');
    }
  }

  lemma DivMod(a: nat, b: nat)
    requires b > 0
    ensures a == b * (a / b) + a % b
  {
  }

  lemma BezoutStep(a: nat, b: nat, d: nat, r: nat, x: int, y: int)
    requires a == b * d + r
    ensures a * y + b * (x - d * y) == b * x + r * y
  {
    assert a * y == b * (d * y) + r * y;
    assert b * (x - d * y) == b * x - b * (d * y);
  }

  lemma Grows(n: nat, a: int, b: int)
    requires a <= b
    ensures n * a <= n * b
  {
  }

  lemma OneLess(n: nat, a: int)
    ensures n * (a - 1) == n * a - n
  {
  }

  lemma Remainder(value: int, n: nat, quotient: int, r: nat)
    requires r < n && value == n * quotient + r
    ensures value % n == r && value / n == quotient
  {
    SameDivision(n, value / n, value % n, quotient, r);
  }

  lemma SameDivision(n: nat, q: int, r: nat, q': int, r': nat)
    requires r < n && r' < n && n * q + r == n * q' + r'
    ensures q == q' && r == r'
  {
    if q < q' {
      Grows(n, q, q' - 1);
      OneLess(n, q');
    } else if q' < q {
      Grows(n, q', q - 1);
      OneLess(n, q);
    }
  }

  // ---- How far into its hour a window can start ----

  const HOUR: nat := 3600

  /** The latest start of a window within an hour, in seconds. */
  function LatestOffset(w: nat): int
    requires w > 0
  {
    HOUR - Gcd(w, HOUR)
  }

  lemma GcdIsSmall(w: nat)
    requires w > 0
    ensures 0 < Gcd(w, HOUR) <= HOUR && Gcd(w, HOUR) <= w
  {
    hide Gcd;
    var p, q := GcdDivides(w, HOUR);
    var g := Gcd(w, HOUR);
    assert p > 0 && q > 0;
    Grows(g, 1, p);
    Grows(g, 1, q);
  }

  /** No window starts later than that. */
  lemma OffsetIsBounded(w: nat, j: int)
    requires w > 0
    ensures (w * j) % HOUR <= LatestOffset(w)
  {
    var g := Gcd(w, HOUR);
    var p, m := GcdDivides(w, HOUR);
    GcdIsSmall(w);
    var h := (w * j) / HOUR;
    var k := p * j - m * h;
    Factored(g, p, m, j, h);
    hide Gcd;
    assert (w * j) % HOUR == w * j - HOUR * h == g * k;
    BelowMultiple(g, k, m);
  }

  lemma Factored(g: nat, p: nat, m: nat, j: int, h: int)
    ensures (g * p) * j - (g * m) * h == g * (p * j - m * h)
  {
    assert (g * p) * j == g * (p * j) && (g * m) * h == g * (m * h);
  }

  lemma BelowMultiple(g: nat, k: int, m: nat)
    requires g > 0 && g * k < g * m
    ensures g * k <= g * m - g
  {
    if k >= m {
      Grows(g, m, k);
    } else {
      Grows(g, k, m - 1);
      OneLess(g, m);
    }
  }

  /** And some window does start there. */
  lemma LatestStart(w: nat) returns (j: nat)
    requires w > 0
    ensures j < HOUR && (w * j) % HOUR == LatestOffset(w)
  {
    GcdIsSmall(w);
    var g := Gcd(w, HOUR);
    var x, y := Bezout(w, HOUR);
    j := (-x) % HOUR;
    hide Gcd;
    StartsThere(w, g, x, y, (-x) / HOUR, j);
    Remainder(w * j, HOUR, y - w * ((-x) / HOUR) - 1, HOUR - g);
  }

  lemma StartsThere(w: nat, g: nat, x: int, y: int, c: int, j: int)
    requires w * x + HOUR * y == g && -x == HOUR * c + j
    ensures w * j == HOUR * (y - w * c - 1) + (HOUR - g)
  {
    calc {
      w * j;
      { assert j == -x - HOUR * c; }
      w * (-x - HOUR * c);
      { MultipliesOut(w, x, c); }
      -(w * x) - HOUR * (w * c);
      HOUR * y - g - HOUR * (w * c);
    }
  }

  lemma MultipliesOut(w: nat, x: int, c: int)
    ensures w * (-x - HOUR * c) == -(w * x) - HOUR * (w * c)
  {
    assert w * (-x - HOUR * c) == w * (-x) - w * (HOUR * c);
  }

  // ---- The exact condition ----

  /** No dated instant is ever pruned by a time filter that admits it. */
  ghost predicate PruningSound(libs: Libs, writtenSecs: nat, queriedSecs: nat) {
    forall t :: Dated(libs, t) ==> NeverPruned(libs, t, writtenSecs, queriedSecs)
  }

  /** The queried window reaches past the end of every written one. */
  predicate Reaches(writtenSecs: nat, queriedSecs: nat) {
    Span(queriedSecs) >= Span(writtenSecs) + LatestOffset(Span(writtenSecs))
  }

  lemma ReachesContains(libs: Libs, t: Instant, writtenSecs: nat, queriedSecs: nat)
    requires libs.Lawful() && Dated(libs, t) && Reaches(writtenSecs, queriedSecs)
    ensures BoundsContain(libs, t, writtenSecs, queriedSecs)
  {
    hide Libs.Lawful, LatestOffset;
    var w, secs := Span(writtenSecs), Seconds(t);
    LabelParses(libs, t, writtenSecs);
    GcdIsSmall(w);
    assert LatestOffset(w) == HOUR - Gcd(w, HOUR) by { OffsetMeans(w); }
    StartIsMultiple(secs, writtenSecs);
    OffsetIsBounded(w, secs / w);
    var hour := LabelHour(libs, t, writtenSecs);
    assert 3600 * hour <= secs < 3600 * hour + Span(queriedSecs);
  }

  lemma OffsetMeans(w: nat)
    requires w > 0
    ensures LatestOffset(w) == HOUR - Gcd(w, HOUR)
  {
  }

  lemma StartIsMultiple(secs: int, windowSecs: nat)
    ensures WindowStart(secs, windowSecs) == Span(windowSecs) * (secs / Span(windowSecs))
    ensures WindowStart(secs, windowSecs) <= secs < WindowStart(secs, windowSecs) + Span(windowSecs)
  {
  }

  /** The last whole second of the window that starts latest in its hour. */
  lemma LatestWindowLoses(libs: Libs, writtenSecs: nat, queriedSecs: nat) returns (t: Instant)
    requires libs.Lawful() && CoversAllOffsets(libs, writtenSecs) && !Reaches(writtenSecs, queriedSecs)
    ensures Dated(libs, t) && !BoundsContain(libs, t, writtenSecs, queriedSecs)
  {
    hide Libs.Lawful, LatestOffset;
    var w := Span(writtenSecs);
    var j := LatestStart(w);
    t := (w * j + (w - 1)) * NANOS;
    EndsInRange(w, j);
    LastSecond(writtenSecs, j);
    LabelParses(libs, t, writtenSecs);
    hide WindowStart, Seconds;
    assert LabelHour(libs, t, writtenSecs) == (w * j) / HOUR by { assert libs.Representable(w * j); }
    EndsTooEarly(w, Span(queriedSecs), w * j);
  }

  /** Counted from the start of the hour of such a window, a shorter span ends before its last second. */
  lemma EndsTooEarly(w: nat, q: nat, start: int)
    requires w > 0 && start % HOUR == LatestOffset(w) && q < w + LatestOffset(w)
    ensures HOUR * (start / HOUR) + q <= start + (w - 1)
  {
    hide LatestOffset;
    assert start == HOUR * (start / HOUR) + start % HOUR;
  }

  lemma EndsInRange(w: nat, j: nat)
    requires w > 0 && j < HOUR
    ensures 0 <= w * j && w * j + w <= w * HOUR
  {
    Grows(w, j, HOUR - 1);
    OneLess(w, HOUR);
    Grows(w, 0, j);
  }

  lemma LastSecond(windowSecs: nat, j: nat)
    ensures var w := Span(windowSecs);
      && Seconds((w * j + (w - 1)) * NANOS) == w * j + (w - 1)
      && WindowStart(w * j + (w - 1), windowSecs) == w * j
  {
    var w := Span(windowSecs);
    Remainder(w * j + (w - 1), w, j, w - 1);
  }

  /** Dates reach over the windows of every offset. */
  predicate CoversAllOffsets(libs: Libs, windowSecs: nat) {
    libs.Representable(0) && libs.Representable(Span(windowSecs) * HOUR)
  }

  /** An archive written with windows of `w` seconds and queried with `q` is pruned soundly exactly when
      `q` is at least `w + 3600 - gcd(w, 3600)`, both taken as at least 1. */
  lemma PruningSoundIffReaches(libs: Libs, writtenSecs: nat, queriedSecs: nat)
    requires libs.Lawful() && CoversAllOffsets(libs, writtenSecs)
    ensures PruningSound(libs, writtenSecs, queriedSecs) <==>
      Span(queriedSecs) >= Span(writtenSecs) + 3600 - Gcd(Span(writtenSecs), 3600)
  {
    hide Libs.Lawful, BoundsContain, NeverPruned;
    if Reaches(writtenSecs, queriedSecs) {
      forall t | Dated(libs, t) ensures NeverPruned(libs, t, writtenSecs, queriedSecs) {
        ReachesContains(libs, t, writtenSecs, queriedSecs);
        NeverPrunedIffContained(libs, t, writtenSecs, queriedSecs);
      }
    } else {
      var t := LatestWindowLoses(libs, writtenSecs, queriedSecs);
      NeverPrunedIffContained(libs, t, writtenSecs, queriedSecs);
    }
  }

  /** A window reaches when queried as it was written exactly when it is whole hours. */
  lemma ReachesItselfIffWholeHours(windowSecs: nat)
    ensures Reaches(windowSecs, windowSecs) <==> Span(windowSecs) % 3600 == 0
  {
    hide Gcd;
    var w := Span(windowSecs);
    GcdIsSmall(w);
    var p, _ := GcdDivides(w, HOUR);
    if Gcd(w, HOUR) == HOUR {
      Remainder(w, HOUR, p, 0);
    }
    if w % HOUR == 0 {
      WholeHoursGcd(w);
    }
  }

  lemma WholeHoursGcd(w: nat)
    requires w > 0 && w % HOUR == 0
    ensures Gcd(w, HOUR) == HOUR
  {
    assert Gcd(w, HOUR) == Gcd(HOUR, 0);
  }

  /** An archive of one-minute windows, which loses records when queried as it was written, is safe to query
      with hours, and with nothing much shorter. */
  lemma MinutesQueriedAsHours(libs: Libs, queriedSecs: nat)
    requires libs.Lawful() && CoversAllOffsets(libs, 60)
    ensures PruningSound(libs, 60, queriedSecs) <==> queriedSecs >= 3600
  {
    PruningSoundIffReaches(libs, 60, queriedSecs);
    assert Gcd(60, 3600) == 60 by {
      assert Gcd(60, 3600) == Gcd(3600, 60) == Gcd(60, 0) == 60;
    }
  }
}
