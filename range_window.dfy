/**
 * `_apply_timeframe`: the range buttons' view filter. The window is anchored
 * on the newest key of the series, never on the wall clock, and keeps the rows
 * whose key is at or after the window's start.
 */
module RangeWindow {
  import opened Wrappers
  import opened Candles

  /** One day in milliseconds, the unit of `pd.Timedelta(days=5)` on a millisecond key. */
  const DayMs: int := 86_400_000

  /** The range tags the Overview page offers. */
  const RangeTags: seq<string> := ["5D", "1M", "3M", "6M", "YTD", "1Y", "5Y", "ALL"]

  /**
   * The calendar arithmetic pandas performs and which is not part of this
   * model: `t - DateOffset(months=n)`, `t - DateOffset(years=n)` and
   * January 1 of `t`'s year, each on millisecond keys.
   */
  datatype Calendar = Calendar(
    monthsBefore: (int, nat) -> int,
    yearsBefore: (int, nat) -> int,
    yearStart: int -> int)

  /** All that is assumed of the calendar: stepping back never moves forward. */
  ghost predicate Sound(cal: Calendar)
  {
    && (forall t: int, n: nat :: cal.monthsBefore(t, n) <= t)
    && (forall t: int, n: nat :: cal.yearsBefore(t, n) <= t)
    && (forall t: int :: cal.yearStart(t) <= t)
  }

  /** A calendar that is sound; the identity calendar shows there is one. */
  type SoundCalendar = cal: Calendar | Sound(cal)
    witness Calendar((t: int, n: nat) => t, (t: int, n: nat) => t, (t: int) => t)

  /** `df.index.max()` of a non-empty series. */
  function MaxKey(s: Series): (r: int)
    requires |s| > 0
    ensures forall i :: 0 <= i < |s| ==> s[i].time <= r
    ensures exists i :: 0 <= i < |s| && s[i].time == r
  {
    if |s| == 1 then s[0].time
    else
      var m := MaxKey(s[1..]);
      assert exists i :: 1 <= i < |s| && s[i].time == m by {
        var j :| 0 <= j < |s[1..]| && s[1..][j].time == m;
        assert s[j + 1].time == m;
      }
      if s[0].time >= m then s[0].time else m
  }

  /** The start of the window a tag selects, or `None` for `ALL` and for any tag not in the list. */
  function WindowStart(tag: string, anchor: int, cal: Calendar): (r: Option<int>)
    ensures r.Some? <==> tag in RangeTags && tag != "ALL"
    ensures tag == "5D" ==> r == Some(anchor - 5 * DayMs)
    ensures Sound(cal) && r.Some? ==> r.value <= anchor
  {
    if tag == "5D" then Some(anchor - 5 * DayMs)
    else if tag == "1M" then Some(cal.monthsBefore(anchor, 1))
    else if tag == "3M" then Some(cal.monthsBefore(anchor, 3))
    else if tag == "6M" then Some(cal.monthsBefore(anchor, 6))
    else if tag == "YTD" then Some(cal.yearStart(anchor))
    else if tag == "1Y" then Some(cal.yearsBefore(anchor, 1))
    else if tag == "5Y" then Some(cal.yearsBefore(anchor, 5))
    else None
  }

  /** `df.loc[df.index >= start]`: the rows keyed at or after `start`, in their order. */
  function Since(s: Series, start: int): (r: Series)
    ensures |r| <= |s|
  {
    if |s| == 0 then []
    else (if s[0].time >= start then [s[0]] else []) + Since(s[1..], start)
  }

  /** The window holds exactly the rows keyed at or after `start`, whatever their order. */
  lemma {:induction false} SinceMembers(s: Series, start: int)
    ensures forall c :: c in Since(s, start) <==> c in s && c.time >= start
  {
    if |s| > 0 {
      SinceMembers(s[1..], start);
      assert s == [s[0]] + s[1..];
    }
  }

  /** `_apply_timeframe(tf)` on the series `s`; `s` itself is never changed. */
  function Select(s: Series, tag: string, cal: Calendar): (r: Series)
    ensures |s| == 0 ==> r == []
    ensures tag !in RangeTags || tag == "ALL" ==> r == s
    ensures |r| <= |s|
    ensures forall c :: c in r ==> c in s
  {
    if |s| == 0 then s
    else
      match WindowStart(tag, MaxKey(s), cal)
      case None => s
      case Some(start) => SinceMembers(s, start); Since(s, start)
  }

  /** On a key-ordered series, once one row is in the window all later ones are. */
  lemma {:induction false} SinceAll(s: Series, start: int)
    requires forall i :: 0 <= i < |s| ==> s[i].time >= start
    ensures Since(s, start) == s
  {
    if |s| > 0 {
      forall i | 0 <= i < |s| - 1
        ensures s[1..][i].time >= start
      {
        assert s[1..][i] == s[i + 1];
      }
      SinceAll(s[1..], start);
      assert Since(s, start) == [s[0]] + Since(s[1..], start);
      assert s == [s[0]] + s[1..];
    }
  }

  /** On a key-ordered series the window is a suffix: everything before it is older than `start`, everything in it is not. */
  lemma {:induction false} SinceSuffix(s: Series, start: int) returns (k: nat)
    requires KeyOrdered(s)
    ensures k <= |s| && Since(s, start) == s[k..]
    ensures forall i :: 0 <= i < k ==> s[i].time < start
    ensures forall i :: k <= i < |s| ==> s[i].time >= start
  {
    if |s| == 0 {
      k := 0;
    } else if s[0].time >= start {
      HeadAtOrAfter(s, start);
      SinceAll(s, start);
      k := 0;
    } else {
      TailOrdered(s);
      var k' := SinceSuffix(s[1..], start);
      SkipHead(s, start, k');
      k := k' + 1;
    }
  }

  /** A row older than `start` at the front shifts the tail's split point by one. */
  lemma SkipHead(s: Series, start: int, k: nat)
    requires |s| > 0 && s[0].time < start && k <= |s| - 1
    requires Since(s[1..], start) == s[1..][k..]
    requires forall i :: 0 <= i < k ==> s[1..][i].time < start
    requires forall i :: k <= i < |s| - 1 ==> s[1..][i].time >= start
    ensures Since(s, start) == s[k + 1..]
    ensures forall i :: 0 <= i < k + 1 ==> s[i].time < start
    ensures forall i :: k + 1 <= i < |s| ==> s[i].time >= start
  {
    assert Since(s, start) == Since(s[1..], start);
    assert s[1..][k..] == s[k + 1..];
    forall i | 0 <= i < k + 1
      ensures s[i].time < start
    {
      if i > 0 {
        assert s[i] == s[1..][i - 1];
      }
    }
    forall i | k + 1 <= i < |s|
      ensures s[i].time >= start
    {
      assert s[i] == s[1..][i - 1];
    }
  }

  /** Once the oldest row is in the window, every row is. */
  lemma HeadAtOrAfter(s: Series, start: int)
    requires KeyOrdered(s) && |s| > 0 && s[0].time >= start
    ensures forall i :: 0 <= i < |s| ==> s[i].time >= start
  {
    forall i | 0 < i < |s|
      ensures s[i].time >= start
    {
      assert s[0].time <= s[i].time;
    }
  }

  lemma TailOrdered(s: Series)
    requires KeyOrdered(s) && |s| > 0
    ensures KeyOrdered(s[1..])
  {
    forall i, j | 0 <= i < j < |s| - 1
      ensures s[1..][i].time <= s[1..][j].time
    {
      assert s[i + 1].time <= s[j + 1].time;
    }
  }

  /** For a sorted series, `MaxKey` is the key of the last row. */
  lemma MaxKeyIsLast(s: Series)
    requires |s| > 0 && KeyOrdered(s)
    ensures MaxKey(s) == s[|s| - 1].time
  {
  }

  /**
   * For a windowed tag on a sorted, non-empty series: the result is a suffix,
   * holds exactly the rows keyed at or after the start computed from the
   * newest key, and always holds the newest row itself.
   */
  lemma SelectWindow(s: Series, tag: string, cal: Calendar) returns (k: nat)
    requires Sound(cal) && KeyOrdered(s) && |s| > 0
    requires tag in RangeTags && tag != "ALL"
    ensures k < |s| && Select(s, tag, cal) == s[k..]
    ensures var start := WindowStart(tag, s[|s| - 1].time, cal).value;
      && (forall i :: 0 <= i < k ==> s[i].time < start)
      && (forall i :: k <= i < |s| ==> s[i].time >= start)
  {
    MaxKeyIsLast(s);
    var start := WindowStart(tag, MaxKey(s), cal).value;
    k := SinceSuffix(s, start);
  }

  /** Whatever the tag, a sorted window stays sorted and, on a non-empty series, is non-empty and ends with the newest row. */
  lemma SelectKeepsNewest(s: Series, tag: string, cal: Calendar)
    requires Sound(cal) && KeyOrdered(s) && |s| > 0
    ensures var w := Select(s, tag, cal);
      |w| > 0 && w[|w| - 1] == s[|s| - 1] && KeyOrdered(w)
  {
    if tag in RangeTags && tag != "ALL" {
      var k := SelectWindow(s, tag, cal);
      SuffixOrdered(s, k);
    }
  }

  lemma SuffixOrdered(s: Series, k: nat)
    requires KeyOrdered(s) && k < |s|
    ensures var w := s[k..]; |w| > 0 && w[|w| - 1] == s[|s| - 1] && KeyOrdered(w)
  {
    var w := s[k..];
    forall i, j | 0 <= i < j < |w|
      ensures w[i].time <= w[j].time
    {
      assert w[i] == s[k + i] && w[j] == s[k + j];
    }
  }
}
