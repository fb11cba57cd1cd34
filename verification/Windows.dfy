/** Window labels, the bounds read back from them, and when pruning by those bounds is sound. */
module Windows {
  import opened Core

  function Seconds(t: Instant): int {
    t / NANOS
  }

  /** `window_secs.max(1)`. */
  function Span(windowSecs: nat): (w: nat)
    ensures w >= 1
  {
    if windowSecs == 0 then 1 else windowSecs
  }

  function WindowStart(secs: int, windowSecs: nat): int {
    secs - secs % Span(windowSecs)
  }

  /** The hour printed for `t`: that of its window's start, or its own when the start is too early
      to be a date. */
  function LabelHour(libs: Libs, t: Instant, windowSecs: nat): int {
    var start := WindowStart(Seconds(t), windowSecs);
    (if libs.Representable(start) then start else Seconds(t)) / 3600
  }

  function WindowLabel(libs: Libs, t: Instant, windowSecs: nat): Text {
    libs.printHour(LabelHour(libs, t, windowSecs))
  }

  datatype Bounds = Bounds(start: Instant, end: Instant)

  function WindowBounds(libs: Libs, window: Text, windowSecs: nat): Option<Bounds> {
    match libs.parseHour(window)
    case None => None
    case Some(hour) => Some(Bounds(3600 * hour * NANOS, (3600 * hour + Span(windowSecs)) * NANOS))
  }

  /** `window_might_overlap`. */
  predicate WindowMightOverlap(libs: Libs, window: Text, windowSecs: nat, since: Option<Instant>, until: Option<Instant>) {
    match WindowBounds(libs, window, windowSecs)
    case None => true
    case Some(b) =>
      && !(since.Some? && b.end <= since.value)
      && !(until.Some? && b.start > until.value)
  }

  predicate TimeMatches(t: Instant, since: Option<Instant>, until: Option<Instant>) {
    (since.Some? ==> since.value <= t) && (until.Some? ==> t <= until.value)
  }

  /** No time filter that admits `t` prunes the label `t` was stored under. */
  ghost predicate NeverPruned(libs: Libs, t: Instant, writtenSecs: nat, queriedSecs: nat) {
    forall since, until ::
      TimeMatches(t, since, until) ==>
        WindowMightOverlap(libs, WindowLabel(libs, t, writtenSecs), queriedSecs, since, until)
  }

  /** `t` lies inside the bounds read back from its label. */
  predicate BoundsContain(libs: Libs, t: Instant, writtenSecs: nat, queriedSecs: nat) {
    match WindowBounds(libs, WindowLabel(libs, t, writtenSecs), queriedSecs)
    case None => false
    case Some(b) => b.start <= t < b.end
  }

  predicate Dated(libs: Libs, t: Instant) {
    libs.Representable(Seconds(t))
  }

  lemma MultipleOfHours(secs: int, w: nat)
    requires w > 0 && w % 3600 == 0
    ensures WindowStart(secs, w) % 3600 == 0
  {
    var k := w / 3600;
    var q := secs / w;
    assert WindowStart(secs, w) == w * q;
    assert w * q == 3600 * (k * q);
  }

  /** The label of a dated instant always reads back as the hour printed. */
  lemma LabelParses(libs: Libs, t: Instant, w: nat)
    requires libs.Lawful() && Dated(libs, t)
    ensures libs.parseHour(WindowLabel(libs, t, w)) == Some(LabelHour(libs, t, w))
  {
    var hour := LabelHour(libs, t, w);
    assert libs.Representable(3600 * hour);
  }

  /** When the window is whole hours, every instant lies in the bounds of its own label. */
  lemma WholeHoursContain(libs: Libs, t: Instant, writtenSecs: nat, queriedSecs: nat)
    requires libs.Lawful() && Dated(libs, t)
    requires 0 < writtenSecs <= queriedSecs && writtenSecs % 3600 == 0
    ensures BoundsContain(libs, t, writtenSecs, queriedSecs)
  {
    LabelParses(libs, t, writtenSecs);
    MultipleOfHours(Seconds(t), writtenSecs);
    var hour := LabelHour(libs, t, writtenSecs);
    assert 3600 * hour <= Seconds(t) < 3600 * hour + queriedSecs;
  }

  /** An instant is never pruned exactly when its label's bounds contain it. */
  lemma NeverPrunedIffContained(libs: Libs, t: Instant, writtenSecs: nat, queriedSecs: nat)
    requires libs.Lawful() && Dated(libs, t)
    ensures NeverPruned(libs, t, writtenSecs, queriedSecs) <==> BoundsContain(libs, t, writtenSecs, queriedSecs)
  {
    LabelParses(libs, t, writtenSecs);
    var stored := WindowLabel(libs, t, writtenSecs);
    if NeverPruned(libs, t, writtenSecs, queriedSecs) {
      assert TimeMatches(t, Some(t), Some(t));
      assert WindowMightOverlap(libs, stored, queriedSecs, Some(t), Some(t));
    }
  }

  /** The last whole second of the first window that does not start on an hour. */
  function LostInstant(windowSecs: nat): Instant {
    (2 * Span(windowSecs) - 1) * NANOS
  }

  predicate CoversTwoWindows(libs: Libs, windowSecs: nat) {
    libs.Representable(0) && libs.Representable(2 * Span(windowSecs))
  }

  lemma PartialHoursLose(libs: Libs, windowSecs: nat)
    requires libs.Lawful() && CoversTwoWindows(libs, windowSecs)
    requires Span(windowSecs) % 3600 != 0
    ensures Dated(libs, LostInstant(windowSecs))
    ensures !BoundsContain(libs, LostInstant(windowSecs), windowSecs, windowSecs)
  {
    var t, w := LostInstant(windowSecs), Span(windowSecs);
    assert Seconds(t) == 2 * w - 1;
    assert WindowStart(Seconds(t), windowSecs) == w by {
      assert (2 * w - 1) % w == w - 1 by { LastInWindow(w); }
    }
    LabelParses(libs, t, windowSecs);
  }

  lemma LastInWindow(w: nat)
    requires w >= 1
    ensures (2 * w - 1) % w == w - 1
  {
    var q, r := (2 * w - 1) / w, (2 * w - 1) % w;
    assert 2 * w - 1 == q * w + r;
    assert q <= 0 ==> q * w <= 0;
    assert q >= 2 ==> q * w >= 2 * w;
  }

  /** Pruning with the window the archive was written with is sound for every dated instant exactly
      when the window is a whole number of hours. */
  lemma PruningSoundIffWholeHours(libs: Libs, windowSecs: nat)
    requires libs.Lawful() && CoversTwoWindows(libs, windowSecs)
    ensures (forall t :: Dated(libs, t) ==> NeverPruned(libs, t, windowSecs, windowSecs))
      <==> Span(windowSecs) % 3600 == 0
  {
    if Span(windowSecs) % 3600 == 0 {
      forall t | Dated(libs, t) ensures NeverPruned(libs, t, windowSecs, windowSecs) {
        WholeHoursContain(libs, t, windowSecs, windowSecs);
        NeverPrunedIffContained(libs, t, windowSecs, windowSecs);
      }
    } else {
      PartialHoursLose(libs, windowSecs);
      NeverPrunedIffContained(libs, LostInstant(windowSecs), windowSecs, windowSecs);
    }
  }

  lemma FirstWindow(w: nat)
    requires w >= 1
    ensures Seconds((w - 1) * NANOS) == w - 1 && WindowStart(w - 1, w) == 0
  {
  }

  lemma ShorterWindowLoses(libs: Libs, writtenSecs: nat, queriedSecs: nat)
    requires libs.Lawful() && CoversTwoWindows(libs, writtenSecs)
    requires writtenSecs % 3600 == 0 && Span(queriedSecs) < writtenSecs
    ensures Dated(libs, (writtenSecs - 1) * NANOS)
    ensures !NeverPruned(libs, (writtenSecs - 1) * NANOS, writtenSecs, queriedSecs)
  {
    var t := (writtenSecs - 1) * NANOS;
    hide WindowStart, NeverPruned;
    FirstWindow(writtenSecs);
    LabelParses(libs, t, writtenSecs);
    NeverPrunedIffContained(libs, t, writtenSecs, queriedSecs);
  }

  /** For whole-hour windows, querying with another window is sound exactly when it is no shorter
      than the one the archive was written with. */
  lemma PruningSoundIffNotShorter(libs: Libs, writtenSecs: nat, queriedSecs: nat)
    requires libs.Lawful() && CoversTwoWindows(libs, writtenSecs)
    requires 0 < writtenSecs && writtenSecs % 3600 == 0
    ensures (forall t :: Dated(libs, t) ==> NeverPruned(libs, t, writtenSecs, queriedSecs))
      <==> writtenSecs <= Span(queriedSecs)
  {
    if writtenSecs <= Span(queriedSecs) {
      forall t | Dated(libs, t) ensures NeverPruned(libs, t, writtenSecs, queriedSecs) {
        WholeHoursContain(libs, t, writtenSecs, Span(queriedSecs));
        NeverPrunedIffContained(libs, t, writtenSecs, queriedSecs);
      }
    } else {
      ShorterWindowLoses(libs, writtenSecs, queriedSecs);
    }
  }

  /** For example, with one-minute windows a record at 15:30:10 is labelled with hour 15,
      whose bounds end at 15:01, so a query since 15:20 skips it. */
  lemma MinuteWindowLosesRecord(libs: Libs)
    requires libs.Lawful() && libs.Representable(0) && libs.Representable(86400)
    ensures var t, since := (15 * 3600 + 30 * 60 + 10) * NANOS, (15 * 3600 + 20 * 60) * NANOS;
      && TimeMatches(t, Some(since), None)
      && !WindowMightOverlap(libs, WindowLabel(libs, t, 60), 60, Some(since), None)
  {
    var t := (15 * 3600 + 30 * 60 + 10) * NANOS;
    LabelParses(libs, t, 60);
    assert LabelHour(libs, t, 60) == 15;
  }

  /** With whole-hour windows, two instants share a label exactly when they share a window. */
  lemma SameLabelIffSameWindow(libs: Libs, t: Instant, u: Instant, w: nat)
    requires libs.Lawful() && Dated(libs, t) && Dated(libs, u)
    requires libs.Representable(WindowStart(Seconds(t), w)) && libs.Representable(WindowStart(Seconds(u), w))
    requires w > 0 && w % 3600 == 0
    ensures WindowLabel(libs, t, w) == WindowLabel(libs, u, w)
      <==> WindowStart(Seconds(t), w) == WindowStart(Seconds(u), w)
  {
    LabelParses(libs, t, w);
    LabelParses(libs, u, w);
    MultipleOfHours(Seconds(t), w);
    MultipleOfHours(Seconds(u), w);
  }

  lemma FlooredTo(secs: int, w: nat)
    requires w >= 1
    ensures secs - secs % w == w * (secs / w) <= secs < w * (secs / w) + w
  {
  }

  /** The label of an instant, in plain numbers: the hour of the start of its window, counted in whole windows
      of at least a second from 1970, or its own hour when that start is too early to be a date. */
  lemma LabelReads(libs: Libs, t: Instant, windowSecs: nat)
    requires libs.Lawful() && Dated(libs, t)
    ensures var secs, w := t / 1_000_000_000, if windowSecs == 0 then 1 else windowSecs;
      var start := w * (secs / w);
      libs.parseHour(WindowLabel(libs, t, windowSecs)) ==
        Some((if libs.minSecs <= start <= libs.maxSecs then start else secs) / 3600)
  {
    LabelParses(libs, t, windowSecs);
    FlooredTo(t / 1_000_000_000, if windowSecs == 0 then 1 else windowSecs);
  }

  /** A label is kept exactly when it is no hour, or some instant of its window, the end excluded, lies in the
      asked range, both ends included. */
  lemma KeptIffCommonInstant(libs: Libs, window: Text, windowSecs: nat, since: Option<Instant>, until: Option<Instant>)
    requires since.Some? && until.Some? ==> since.value <= until.value
    ensures WindowMightOverlap(libs, window, windowSecs, since, until) <==>
      match libs.parseHour(window)
      case None => true
      case Some(h) =>
        var w := if windowSecs == 0 then 1 else windowSecs;
        exists t :: 3600 * h * 1_000_000_000 <= t < (3600 * h + w) * 1_000_000_000 && TimeMatches(t, since, until)
  {
    match libs.parseHour(window)
    case None =>
    case Some(h) =>
      if WindowMightOverlap(libs, window, windowSecs, since, until) {
        var start := 3600 * h * 1_000_000_000;
        var t := if since.Some? && since.value > start then since.value else start;
        assert TimeMatches(t, since, until);
      }
  }

  /** Pruning by the upper end of the range loses nothing, whatever the windows. */
  lemma UntilNeverLoses(libs: Libs, t: Instant, writtenSecs: nat, queriedSecs: nat, until: Option<Instant>)
    requires libs.Lawful() && Dated(libs, t) && TimeMatches(t, None, until)
    ensures WindowMightOverlap(libs, WindowLabel(libs, t, writtenSecs), queriedSecs, None, until)
  {
    LabelParses(libs, t, writtenSecs);
  }
}
