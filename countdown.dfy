/**
 * `_get_tf_seconds` and `_update_countdown`: the interval table, the next
 * candle close and the "Close in mm:ss" label. The clock reading arrives as
 * an integer count of microseconds since the Unix epoch (the value
 * `now.timestamp()` would return, times a million).
 */
module Countdown {
  import opened Text

  const MicrosPerSecond: int := 1_000_000

  /** The interval tags the table knows, in its order. */
  const IntervalTags: seq<string> :=
    ["1m", "3m", "5m", "15m", "30m", "1h", "2h", "4h", "6h", "8h", "12h", "1d", "3d", "1w"]

  /** The fallback for an unknown tag: thirty minutes. */
  const DefaultSeconds: nat := 1800

  const IntervalTable: map<string, nat> := map[
    "1m" := 60, "3m" := 180, "5m" := 300, "15m" := 900, "30m" := 1800,
    "1h" := 3600, "2h" := 7200, "4h" := 14400, "6h" := 21600, "8h" := 28800, "12h" := 43200,
    "1d" := 86400, "3d" := 259200, "1w" := 604800]

  /** `m.get(tf, 1800)`. */
  function TfSeconds(tf: string): (r: nat)
    ensures r > 0 && r % 60 == 0
    ensures tf !in IntervalTags ==> r == DefaultSeconds
  {
    if tf in IntervalTable then IntervalTable[tf] else DefaultSeconds
  }

  /** Seconds per unit letter of an interval tag. */
  function UnitSeconds(u: char): (r: nat)
  {
    match u
    case 'm' => 60
    case 'h' => 3600
    case 'd' => 86400
    case 'w' => 604800
    case _ => 0
  }

  /** An interval tag's meaning read off its spelling: a count and a unit letter. */
  function SpelledSeconds(tag: string): (r: nat)
    requires |tag| >= 2 && forall i :: 0 <= i < |tag| - 1 ==> IsDigit(tag[i])
  {
    DecimalValue(tag[..|tag| - 1]) * UnitSeconds(tag[|tag| - 1])
  }

  lemma SpelledOneDigit(tag: string)
    requires |tag| == 2 && IsDigit(tag[0])
    ensures SpelledSeconds(tag) == DigitValue(tag[0]) * UnitSeconds(tag[1])
  {
    var p := tag[..1];
    assert p[..0] == [] && p[0] == tag[0];
    assert DecimalValue(p) == DecimalValue(p[..0]) * 10 + DigitValue(p[0]);
  }

  lemma SpelledTwoDigits(tag: string)
    requires |tag| == 3 && IsDigit(tag[0]) && IsDigit(tag[1])
    ensures SpelledSeconds(tag) == (DigitValue(tag[0]) * 10 + DigitValue(tag[1])) * UnitSeconds(tag[2])
  {
    var p := tag[..2];
    var h := p[..1];
    assert h[..0] == [] && h[0] == tag[0] && p[1] == tag[1];
    assert DecimalValue(h) == DecimalValue(h[..0]) * 10 + DigitValue(h[0]);
    assert DecimalValue(p) == DecimalValue(h) * 10 + DigitValue(p[1]);
  }

  /** The tag is a count followed by a unit letter, and the table gives the duration that spells. */
  predicate SpellsItsSeconds(tag: string)
  {
    |tag| >= 2 && (forall j :: 0 <= j < |tag| - 1 ==> IsDigit(tag[j]))
    && TfSeconds(tag) == SpelledSeconds(tag)
  }

  /** A tag whose table entry is the duration its spelling gives. */
  lemma SpelledTag(tag: string)
    requires 2 <= |tag| <= 3 && (forall j :: 0 <= j < |tag| - 1 ==> IsDigit(tag[j]))
    requires |tag| == 2 ==> TfSeconds(tag) == DigitValue(tag[0]) * UnitSeconds(tag[1])
    requires |tag| == 3 ==> TfSeconds(tag) == (DigitValue(tag[0]) * 10 + DigitValue(tag[1])) * UnitSeconds(tag[2])
    ensures SpellsItsSeconds(tag)
  {
    if |tag| == 2 {
      SpelledOneDigit(tag);
    } else {
      SpelledTwoDigits(tag);
    }
  }

  lemma TagSpellsItsSeconds(i: nat)
    requires i < |IntervalTags|
    ensures SpellsItsSeconds(IntervalTags[i])
  {
    var tag := IntervalTags[i];
    if i < 5 {
      assert tag in ["1m", "3m", "5m", "15m", "30m"];
    } else if i < 11 {
      assert tag in ["1h", "2h", "4h", "6h", "8h", "12h"];
    } else {
      assert tag in ["1d", "3d", "1w"];
    }
    SpelledTag(tag);
  }

  /** The tags are exactly the table's keys. */
  lemma TableKeys()
    ensures forall tag :: tag in IntervalTable <==> tag in IntervalTags
  {
  }

  /** Every entry of the table is the duration its tag spells. */
  lemma TableMatchesSpelling()
    ensures forall i :: 0 <= i < |IntervalTags| ==> SpellsItsSeconds(IntervalTags[i])
  {
    forall i | 0 <= i < |IntervalTags|
      ensures SpellsItsSeconds(IntervalTags[i])
    {
      TagSpellsItsSeconds(i);
    }
  }

  /** Python's `int()` on a quotient: truncation toward zero. */
  function TruncDiv(a: int, b: int): (q: int)
    requires b > 0
    ensures a >= 0 ==> 0 <= a - q * b < b
    ensures a < 0 ==> -b < a - q * b <= 0
  {
    if a >= 0 then a / b else -((-a) / b)
  }

  /** `(int(now.timestamp()) // tf_sec + 1) * tf_sec`; Python's `//` floors, as Dafny's `/` does for a positive divisor. */
  function NextClose(nowMicros: int, tf: nat): int
    requires tf > 0
  {
    (TruncDiv(nowMicros, MicrosPerSecond) / tf + 1) * tf
  }

  /** `max(0, int(next_close_ts - now.timestamp()))`, in whole seconds. */
  function Remaining(nowMicros: int, tf: nat): nat
    requires tf > 0
  {
    var d := TruncDiv(NextClose(nowMicros, tf) * MicrosPerSecond - nowMicros, MicrosPerSecond);
    if d > 0 then d else 0
  }

  lemma SmallMultipleIsZero(d: int, tf: nat)
    requires tf > 0 && 0 <= d * tf < tf
    ensures d == 0
  {
  }

  lemma MultipleMod(k: int, tf: nat)
    requires tf > 0
    ensures (k * tf) % tf == 0 && (k * tf) / tf == k
  {
    var x, r := (k * tf) / tf, (k * tf) % tf;
    assert k * tf == x * tf + r;
    assert (k - x) * tf == r;
    SmallMultipleIsZero(k - x, tf);
  }

  /** The next close is the first multiple of the interval strictly after the current whole second. */
  lemma NextCloseIsNextBoundary(nowMicros: int, tf: nat)
    requires tf > 0
    ensures var s := TruncDiv(nowMicros, MicrosPerSecond);
      var n := NextClose(nowMicros, tf);
      && n % tf == 0 && s < n && n - tf <= s
  {
    var s := TruncDiv(nowMicros, MicrosPerSecond);
    var q := s / tf;
    assert s == q * tf + s % tf;
    assert NextClose(nowMicros, tf) == (q + 1) * tf == q * tf + tf;
    MultipleMod(q + 1, tf);
  }

  /** The first multiple of `tf` after `s` is the only one in `(s, s + tf]`. */
  lemma NextBoundaryUnique(s: int, n: int, m: int, tf: nat)
    requires tf > 0 && n % tf == 0 && m % tf == 0
    requires s < n <= s + tf && s < m <= s + tf
    ensures n == m
  {
    var a, b := n / tf, m / tf;
    assert n == a * tf && m == b * tf;
    if n >= m {
      assert (a - b) * tf == n - m;
      SmallMultipleIsZero(a - b, tf);
    } else {
      assert (b - a) * tf == m - n;
      SmallMultipleIsZero(b - a, tf);
    }
  }

  /** The remaining time never goes negative and never exceeds one interval. */
  lemma RemainingBounds(nowMicros: int, tf: nat)
    requires tf > 0
    ensures 0 <= Remaining(nowMicros, tf) <= tf
  {
    NextCloseIsNextBoundary(nowMicros, tf);
    var s := TruncDiv(nowMicros, MicrosPerSecond);
    var n := NextClose(nowMicros, tf);
    var gap := n * MicrosPerSecond - nowMicros;
    assert gap == (n - s) * MicrosPerSecond - (nowMicros - s * MicrosPerSecond);
    assert 1 <= n - s <= tf;
    assert 0 < gap < (tf + 1) * MicrosPerSecond;
  }

  /** On a whole second the label shows exactly the seconds to the next close, at least one. */
  lemma RemainingOnWholeSecond(nowMicros: int, tf: nat)
    requires tf > 0 && nowMicros % MicrosPerSecond == 0
    ensures Remaining(nowMicros, tf) == NextClose(nowMicros, tf) - nowMicros / MicrosPerSecond
    ensures 1 <= Remaining(nowMicros, tf)
  {
    NextCloseIsNextBoundary(nowMicros, tf);
    var s := nowMicros / MicrosPerSecond;
    assert nowMicros == s * MicrosPerSecond;
    assert TruncDiv(nowMicros, MicrosPerSecond) == s;
    var n := NextClose(nowMicros, tf);
    assert n * MicrosPerSecond - nowMicros == (n - s) * MicrosPerSecond;
  }

  /** After the epoch and on a whole second, the remainder is the interval minus the time already spent in it. */
  lemma RemainingClosedForm(nowMicros: int, tf: nat)
    requires tf > 0 && nowMicros >= 0 && nowMicros % MicrosPerSecond == 0
    ensures Remaining(nowMicros, tf) == tf - (nowMicros / MicrosPerSecond) % tf
  {
    RemainingOnWholeSecond(nowMicros, tf);
    var s := nowMicros / MicrosPerSecond;
    assert TruncDiv(nowMicros, MicrosPerSecond) == s;
    assert s == (s / tf) * tf + s % tf;
  }

  /** The label's minutes and seconds fields. */
  datatype Clock = Clock(minutes: nat, seconds: nat)

  /** `mm = remain // 60; ss = remain % 60`. */
  function Split(remain: nat): (c: Clock)
    ensures c.minutes * 60 + c.seconds == remain && c.seconds < 60
  {
    Clock(remain / 60, remain % 60)
  }

  /** `f"Close in {mm:02d}:{ss:02d}"`. */
  function Label(c: Clock): (r: string)
    ensures |r| >= 14 && r[..9] == "Close in "
  {
    "Close in " + TwoDigits(c.minutes) + ":" + TwoDigits(c.seconds)
  }

  /** The two fields of the label read back as the remaining minutes and seconds. */
  lemma LabelReadsBack(remain: nat)
    ensures var c := Split(remain);
      var l := Label(c);
      var mm := l[9..|l| - 3];
      (forall i :: 0 <= i < |mm| ==> IsDigit(mm[i]))
      && DecimalValue(mm) * 60 + DecimalValue(l[|l| - 2..]) == remain
  {
    var c := Split(remain);
    TwoDigitsRoundTrip(c.minutes);
    TwoDigitsRoundTrip(c.seconds);
    assert |TwoDigits(c.seconds)| == 2;
    var l := Label(c);
    assert l[9..|l| - 3] == TwoDigits(c.minutes);
    assert l[|l| - 2..] == TwoDigits(c.seconds);
  }

  /**
   * project.py reads the clock with `datetime.utcnow().timestamp()`: a naive
   * UTC wall time that `timestamp()` interprets as local time, so the value
   * is the true epoch time minus the local offset from UTC.
   */
  function NaiveStamp(nowMicros: int, utcOffsetSeconds: int): (r: int)
    ensures utcOffsetSeconds == 0 ==> r == nowMicros
  {
    nowMicros - utcOffsetSeconds * MicrosPerSecond
  }

  /**
   * In a zone seven hours ahead of UTC with the 4h interval, at a close
   * (epoch 0), the naive reading shows three hours left instead of four.
   */
  lemma NaiveCountdownIsShifted()
    ensures Remaining(NaiveStamp(0, 25200), TfSeconds("4h")) == 10800
    ensures Remaining(0, TfSeconds("4h")) == 14400
  {
    assert TfSeconds("4h") == 14400;
    assert TruncDiv(-25200 * MicrosPerSecond, MicrosPerSecond) == -25200;
    assert -25200 / 14400 == -2;
    assert NextClose(NaiveStamp(0, 25200), 14400) == -14400;
    RemainingClosedForm(0, 14400);
  }
}
