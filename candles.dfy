/**
 * The chart's candle series (the `self.df` DataFrame of `TVLineChart`) and the
 * stream handler's update of it: assign the row at the period-start key,
 * sort by key, keep the newest 1500 rows.
 */
module Candles {
  import opened Wrappers
  import opened Retention

  /** One row of the series: the period-start key in epoch milliseconds and the five float columns. */
  datatype Candle = Candle(time: int, open: real, high: real, low: real, close: real, volume: real)

  type Series = seq<Candle>

  /** Rows kept after every stream update (`iloc[-1500:]`). */
  const Cap: nat := 1500

  /** Keys strictly increase, so no key occurs twice. */
  ghost predicate StrictlySorted(s: Series)
  {
    forall i, j :: 0 <= i < j < |s| ==> s[i].time < s[j].time
  }

  /** A series as every chart holds it: sorted by key, no key twice. */
  type Sorted = s: Series | StrictlySorted(s) witness []

  /** Keys never decrease: what `sort_index()` guarantees of any frame. */
  ghost predicate KeyOrdered(s: Series)
  {
    forall i, j :: 0 <= i < j < |s| ==> s[i].time <= s[j].time
  }

  lemma StrictlyIsKeyOrdered(s: Series)
    requires StrictlySorted(s)
    ensures KeyOrdered(s)
  {
  }

  /** Position of the first row whose key is `t`. */
  function IndexOf(s: Series, t: int): (r: Option<nat>)
    ensures r.Some? ==> r.value < |s| && s[r.value].time == t
    ensures r.Some? ==> forall j :: 0 <= j < r.value ==> s[j].time != t
    ensures r.None? ==> forall j :: 0 <= j < |s| ==> s[j].time != t
  {
    if |s| == 0 then None
    else if s[0].time == t then Some(0)
    else match IndexOf(s[1..], t)
      case None => None
      case Some(i) => Some(i + 1)
  }

  predicate HasKey(s: Series, t: int)
  {
    IndexOf(s, t).Some?
  }

  /**
   * `df.loc[ts] = row`: the row at key `c.time` is overwritten when the key is
   * present, otherwise the row is appended at the end.
   */
  function LocSet(s: Series, c: Candle): (r: Series)
    ensures r == match IndexOf(s, c.time)
                   case Some(i) => s[i := c]
                   case None => s + [c]
  {
    if |s| == 0 then [c]
    else if s[0].time == c.time then [c] + s[1..]
    else [s[0]] + LocSet(s[1..], c)
  }

  /** Insert `c` in front of the first row with a larger key. */
  function Insert(s: Series, c: Candle): (r: Series)
    ensures |r| == |s| + 1
    ensures multiset(r) == multiset(s) + multiset{c}
  {
    if |s| == 0 || c.time < s[0].time then [c] + s
    else
      assert s == [s[0]] + s[1..];
      [s[0]] + Insert(s[1..], c)
  }

  /** `sort_index()`, as an insertion sort on the key. */
  function SortByKey(s: Series): (r: Series)
    ensures |r| == |s| && multiset(r) == multiset(s)
  {
    if |s| == 0 then []
    else
      assert s == s[..|s| - 1] + [s[|s| - 1]];
      Insert(SortByKey(s[..|s| - 1]), s[|s| - 1])
  }

  /** The stream handler's whole update: `df.loc[ts] = row; df = df.sort_index().iloc[-1500:]`. */
  function Upsert(s: Series, c: Candle): (r: Series)
    ensures |r| <= Cap
  {
    KeepLast(SortByKey(LocSet(s, c)), Cap)
  }

  /** Replay a sequence of stream updates in arrival order. */
  function UpsertAll(s: Series, cs: seq<Candle>): Series
    decreases |cs|
  {
    if |cs| == 0 then s else UpsertAll(Upsert(s, cs[0]), cs[1..])
  }

  /** Rows with a key before `t`, in order. */
  function Earlier(s: Series, t: int): (r: Series)
    ensures |r| <= |s|
    ensures forall i :: 0 <= i < |r| ==> r[i].time < t && r[i] in s
  {
    if |s| == 0 then []
    else (if s[0].time < t then [s[0]] else []) + Earlier(s[1..], t)
  }

  /** Rows with a key after `t`, in order. */
  function Later(s: Series, t: int): (r: Series)
    ensures |r| <= |s|
    ensures forall i :: 0 <= i < |r| ==> r[i].time > t && r[i] in s
  {
    if |s| == 0 then []
    else (if s[0].time > t then [s[0]] else []) + Later(s[1..], t)
  }

  /** The reference result of placing `c` in a sorted series: everything older, `c`, everything newer. */
  function Merged(s: Series, c: Candle): Series
  {
    Earlier(s, c.time) + [c] + Later(s, c.time)
  }

  // ---- sorting ----

  lemma {:induction false} InsertAfterAll(s: Series, c: Candle)
    requires forall i :: 0 <= i < |s| ==> s[i].time <= c.time
    ensures Insert(s, c) == s + [c]
  {
    if |s| > 0 {
      InsertAfterAll(s[1..], c);
      assert s == [s[0]] + s[1..];
    }
  }

  lemma {:induction false} InsertKeepsOrder(s: Series, c: Candle)
    requires KeyOrdered(s)
    ensures KeyOrdered(Insert(s, c))
  {
    if |s| > 0 && c.time >= s[0].time {
      InsertKeepsOrder(s[1..], c);
      var r := Insert(s[1..], c);
      forall x | x in r
        ensures s[0].time <= x.time
      {
        assert x in multiset(r);
        assert x in multiset(s[1..]) || x == c;
      }
    }
  }

  /** `SortByKey` is a sort: its result is key-ordered and a permutation of its input. */
  lemma {:induction false} SortByKeySorts(s: Series)
    ensures KeyOrdered(SortByKey(s)) && multiset(SortByKey(s)) == multiset(s)
  {
    if |s| > 0 {
      SortByKeySorts(s[..|s| - 1]);
      InsertKeepsOrder(SortByKey(s[..|s| - 1]), s[|s| - 1]);
    }
  }

  /** Sorting a series that is already strictly sorted changes nothing. */
  lemma {:induction false} SortSorted(s: Series)
    requires StrictlySorted(s)
    ensures SortByKey(s) == s
  {
    if |s| > 0 {
      var p := s[..|s| - 1];
      SortSorted(p);
      InsertAfterAll(p, s[|s| - 1]);
      assert p + [s[|s| - 1]] == s;
    }
  }

  // ---- the two filters ----

  lemma {:induction false} AllLater(s: Series, t: int)
    requires forall j :: 0 <= j < |s| ==> t < s[j].time
    ensures Earlier(s, t) == [] && Later(s, t) == s
  {
    if |s| > 0 {
      AllLater(s[1..], t);
      assert s == [s[0]] + s[1..];
    }
  }

  lemma FiltersSorted(s: Series, t: int)
    requires StrictlySorted(s)
    ensures StrictlySorted(Earlier(s, t)) && StrictlySorted(Later(s, t))
  {
    EarlierSorted(s, t);
    LaterSorted(s, t);
  }

  /** The head of a strictly sorted series is older than every other row. */
  lemma HeadFirst(s: Series)
    requires StrictlySorted(s) && |s| > 0
    ensures forall x :: x in s[1..] ==> s[0].time < x.time
  {
    forall x | x in s[1..]
      ensures s[0].time < x.time
    {
      var k :| 0 <= k < |s[1..]| && s[1..][k] == x;
      assert s[k + 1] == x;
    }
  }

  lemma {:induction false} EarlierSorted(s: Series, t: int)
    requires StrictlySorted(s)
    ensures StrictlySorted(Earlier(s, t))
  {
    if |s| > 0 {
      var r := Earlier(s[1..], t);
      EarlierSorted(s[1..], t);
      if s[0].time < t {
        HeadFirst(s);
        InFilter(r, s[1..]);
        ConcatSorted([s[0]], r);
        assert Earlier(s, t) == [s[0]] + r;
      } else {
        assert Earlier(s, t) == r;
      }
    }
  }

  lemma {:induction false} LaterSorted(s: Series, t: int)
    requires StrictlySorted(s)
    ensures StrictlySorted(Later(s, t))
  {
    if |s| > 0 {
      var r := Later(s[1..], t);
      LaterSorted(s[1..], t);
      if s[0].time > t {
        HeadFirst(s);
        InFilter(r, s[1..]);
        ConcatSorted([s[0]], r);
        assert Later(s, t) == [s[0]] + r;
      } else {
        assert Later(s, t) == r;
      }
    }
  }

  /** Membership read off an index-wise containment. */
  lemma InFilter(r: Series, s: Series)
    requires forall i :: 0 <= i < |r| ==> r[i] in s
    ensures forall x :: x in r ==> x in s
  {
  }

  lemma ConcatSorted(a: Series, b: Series)
    requires StrictlySorted(a) && StrictlySorted(b)
    requires forall x, y :: x in a && y in b ==> x.time < y.time
    ensures StrictlySorted(a + b)
  {
    forall i, j | 0 <= i < j < |a + b|
      ensures (a + b)[i].time < (a + b)[j].time
    {
      if i < |a| && j >= |a| {
        assert (a + b)[i] in a && (a + b)[j] in b;
      }
    }
  }

  /** The reference placement keeps the series strictly sorted. */
  lemma MergedSorted(s: Series, c: Candle)
    requires StrictlySorted(s)
    ensures StrictlySorted(Merged(s, c))
  {
    var e, l := Earlier(s, c.time), Later(s, c.time);
    FiltersSorted(s, c.time);
    ConcatSorted(e, [c]);
    ConcatSorted(e + [c], l);
  }

  // ---- the stream update equals the reference placement ----

  lemma MergedFront(s: Series, c: Candle)
    requires forall j :: 0 <= j < |s| ==> c.time < s[j].time
    ensures Merged(s, c) == [c] + s
  {
    AllLater(s, c.time);
    assert Merged(s, c) == [] + [c] + s;
  }

  lemma MergedCons(s: Series, c: Candle)
    requires |s| > 0 && s[0].time < c.time
    ensures Merged(s, c) == [s[0]] + Merged(s[1..], c)
  {
    var e, l := Earlier(s[1..], c.time), Later(s[1..], c.time);
    assert Earlier(s, c.time) == [s[0]] + e;
    assert Later(s, c.time) == [] + l;
    assert ([s[0]] + e) + [c] + l == [s[0]] + (e + [c] + l);
  }

  lemma MergedSkip(s: Series, c: Candle)
    requires |s| > 0 && s[0].time == c.time
    ensures Merged(s, c) == Merged(s[1..], c)
  {
    assert Earlier(s, c.time) == [] + Earlier(s[1..], c.time);
    assert Later(s, c.time) == [] + Later(s[1..], c.time);
  }

  lemma {:induction false} InsertMerges(s: Series, c: Candle)
    requires StrictlySorted(s) && !HasKey(s, c.time)
    ensures Insert(s, c) == Merged(s, c)
  {
    if |s| > 0 {
      if c.time < s[0].time {
        assert forall j :: 0 <= j < |s| ==> c.time < s[j].time;
        MergedFront(s, c);
      } else {
        assert IndexOf(s[1..], c.time).None?;
        InsertMerges(s[1..], c);
        MergedCons(s, c);
      }
    }
  }

  lemma {:induction false} OverwriteMerges(s: Series, i: nat, c: Candle)
    requires StrictlySorted(s) && i < |s| && s[i].time == c.time
    ensures s[i := c] == Merged(s, c)
  {
    if i == 0 {
      OverwriteHead(s, c);
    } else {
      OverwriteMerges(s[1..], i - 1, c);
      MergedCons(s, c);
      assert s[i := c] == [s[0]] + s[1..][i - 1 := c];
    }
  }

  lemma OverwriteHead(s: Series, c: Candle)
    requires StrictlySorted(s) && |s| > 0 && s[0].time == c.time
    ensures s[0 := c] == Merged(s, c)
  {
    var r := s[1..];
    assert forall j :: 0 <= j < |r| ==> c.time < r[j].time by {
      forall j | 0 <= j < |r|
        ensures c.time < r[j].time
      {
        assert r[j] == s[j + 1];
      }
    }
    MergedFront(r, c);
    MergedSkip(s, c);
    assert s[0 := c] == [c] + r;
  }

  /**
   * For a strictly sorted series, assigning at the key and sorting gives exactly
   * the reference placement, one row longer when the key was new.
   */
  lemma SortedLocSetIsMerged(s: Series, c: Candle)
    requires StrictlySorted(s)
    ensures SortByKey(LocSet(s, c)) == Merged(s, c)
    ensures |Merged(s, c)| == |s| + (if HasKey(s, c.time) then 0 else 1)
    ensures HasKey(s, c.time) ==> Merged(s, c) == s[IndexOf(s, c.time).value := c]
  {
    match IndexOf(s, c.time)
    case Some(i) =>
      var o := s[i := c];
      assert StrictlySorted(o) by {
        forall a, b | 0 <= a < b < |o|
          ensures o[a].time < o[b].time
        {
          assert o[a].time == s[a].time && o[b].time == s[b].time;
        }
      }
      SortSorted(o);
      OverwriteMerges(s, i, c);
    case None =>
      var o := s + [c];
      assert o[..|o| - 1] == s;
      SortSorted(s);
      InsertMerges(s, c);
  }

  /** One update is the reference placement trimmed to the newest 1500 rows. */
  lemma UpsertIsTrimmedMerge(s: Series, c: Candle)
    requires StrictlySorted(s)
    ensures Upsert(s, c) == KeepLast(Merged(s, c), Cap)
    ensures StrictlySorted(Merged(s, c))
    ensures |Merged(s, c)| == |s| + (if HasKey(s, c.time) then 0 else 1)
  {
    SortedLocSetIsMerged(s, c);
    MergedSorted(s, c);
  }

  /** In the reference placement the new row sits right after the older rows, and no other row has its key. */
  lemma MergedPosition(s: Series, c: Candle)
    ensures var e, m := Earlier(s, c.time), Merged(s, c);
            |m| == |e| + 1 + |Later(s, c.time)| && m[|e|] == c
            && forall j :: 0 <= j < |m| && j != |e| ==> m[j].time != c.time
  {
    var e, l := Earlier(s, c.time), Later(s, c.time);
    var m := Merged(s, c);
    assert m == (e + [c]) + l;
    assert (e + [c])[|e|] == c;
    forall j | 0 <= j < |m| && j != |e|
      ensures m[j].time != c.time
    {
      if j < |e| {
        assert m[j] == e[j];
      } else {
        assert m[j] == l[j - |e| - 1];
      }
    }
  }

  // ---- what one update promises ----

  /** The series stays strictly sorted by key. */
  lemma UpsertSorted(s: Series, c: Candle)
    requires StrictlySorted(s)
    ensures StrictlySorted(Upsert(s, c))
  {
    UpsertIsTrimmedMerge(s, c);
  }

  /** The new length is the old one, plus one for a new key, capped at 1500. */
  lemma UpsertLength(s: Series, c: Candle)
    requires StrictlySorted(s)
    ensures var n := |s| + (if HasKey(s, c.time) then 0 else 1);
            |Upsert(s, c)| == if n <= Cap then n else Cap
  {
    UpsertIsTrimmedMerge(s, c);
  }

  /** Updating a key that is present overwrites that row only, in place. */
  lemma UpsertOverwrites(s: Series, c: Candle)
    requires StrictlySorted(s) && HasKey(s, c.time) && |s| <= Cap
    ensures Upsert(s, c) == s[IndexOf(s, c.time).value := c]
    ensures |Upsert(s, c)| == |s|
  {
    SortedLocSetIsMerged(s, c);
  }

  /** An update of an empty series (after a failed snapshot) creates its one row. */
  lemma UpsertIntoEmpty(c: Candle)
    ensures Upsert([], c) == [c]
  {
    assert LocSet([], c) == [c];
    assert SortByKey([c]) == [c];
  }

  /** Only the oldest rows are dropped: every dropped row is older than every kept row. */
  lemma UpsertKeepsNewest(s: Series, c: Candle)
    requires StrictlySorted(s)
    ensures var m, u := Merged(s, c), Upsert(s, c);
            |u| <= |m| && u == m[|m| - |u|..]
            && forall i, j :: 0 <= i < |m| - |u| <= j < |m| ==> m[i].time < m[j].time
  {
    UpsertIsTrimmedMerge(s, c);
  }

  /**
   * The updated row is in the series exactly when fewer than 1500 rows are newer
   * than it, and then it is the only row with its key.
   */
  lemma UpsertStoresIff(s: Series, c: Candle)
    requires StrictlySorted(s)
    ensures c in Upsert(s, c) <==> |Later(s, c.time)| < Cap
    ensures forall x :: x in Upsert(s, c) && x.time == c.time ==> x == c
  {
    UpsertIsTrimmedMerge(s, c);
    TrimmedMergeStores(s, c);
  }

  lemma TrimmedMergeStores(s: Series, c: Candle)
    ensures var u := KeepLast(Merged(s, c), Cap);
      && (c in u <==> |Later(s, c.time)| < Cap)
      && forall x :: x in u && x.time == c.time ==> x == c
  {
    MergedPosition(s, c);
    var e, l := Earlier(s, c.time), Later(s, c.time);
    var m := Merged(s, c);
    var u := KeepLast(m, Cap);
    var k := |m| - |u|;
    assert u == m[k..];
    if c in u {
      var j :| 0 <= j < |u| && u[j] == c;
      assert m[k + j] == c;
      assert k + j == |e|;
    }
    if |l| < Cap {
      assert u[|e| - k] == m[|e|];
    }
    forall x | x in u && x.time == c.time
      ensures x == c
    {
      var j :| 0 <= j < |u| && u[j] == x;
      assert m[k + j] == x;
    }
  }

  lemma {:induction false} NoneLater(s: Series, t: int)
    requires forall j :: 0 <= j < |s| ==> s[j].time <= t
    ensures Later(s, t) == []
  {
    if |s| > 0 {
      NoneLater(s[1..], t);
    }
  }

  /** With nothing newer than `c`, the reference placement ends with `c`. */
  lemma MergedEndsWith(s: Series, c: Candle)
    requires Later(s, c.time) == []
    ensures var m := Merged(s, c); |m| > 0 && m[|m| - 1] == c
  {
    assert Merged(s, c) == Earlier(s, c.time) + [c];
  }

  /** A stream update at or after the newest key always lands as the last row. */
  lemma UpsertNewestLast(s: Series, c: Candle)
    requires StrictlySorted(s) && (|s| == 0 || s[|s| - 1].time <= c.time)
    ensures |Upsert(s, c)| > 0 && Upsert(s, c)[|Upsert(s, c)| - 1] == c
  {
    UpsertIsTrimmedMerge(s, c);
    TrimmedMergeEndsWith(s, c);
  }

  lemma TrimmedMergeEndsWith(s: Series, c: Candle)
    requires StrictlySorted(s) && (|s| == 0 || s[|s| - 1].time <= c.time)
    ensures var u := KeepLast(Merged(s, c), Cap); |u| > 0 && u[|u| - 1] == c
  {
    NoneNewer(s, c.time);
    NoneLater(s, c.time);
    MergedEndsWith(s, c);
    KeepLastKeepsNewest(Merged(s, c), Cap);
  }

  /** In a sorted series no key exceeds the last one. */
  lemma NoneNewer(s: Series, t: int)
    requires StrictlySorted(s) && (|s| == 0 || s[|s| - 1].time <= t)
    ensures forall j :: 0 <= j < |s| ==> s[j].time <= t
  {
    forall j | 0 <= j < |s|
      ensures s[j].time <= t
    {
      if j < |s| - 1 {
        assert s[j].time < s[|s| - 1].time;
      }
    }
  }

  lemma MergedRows(s: Series, c: Candle)
    ensures var m := Merged(s, c);
            forall p :: 0 <= p < |m| ==> m[p] == c || (m[p] in s && m[p].time != c.time)
  {
    var e, l := Earlier(s, c.time), Later(s, c.time);
    var m := Merged(s, c);
    assert m == (e + [c]) + l;
    forall p | 0 <= p < |m|
      ensures m[p] == c || (m[p] in s && m[p].time != c.time)
    {
      if p < |e| {
        assert m[p] == e[p];
      } else if p > |e| {
        assert m[p] == l[p - |e| - 1];
      }
    }
  }

  /** Every row after an update is the new row or an old row with another key. */
  lemma UpsertRows(s: Series, c: Candle)
    requires StrictlySorted(s)
    ensures forall x :: x in Upsert(s, c) ==> x == c || (x in s && x.time != c.time)
  {
    UpsertIsTrimmedMerge(s, c);
    TrimmedMergeRows(s, c);
  }

  lemma TrimmedMergeRows(s: Series, c: Candle)
    ensures forall x :: x in KeepLast(Merged(s, c), Cap) ==> x == c || (x in s && x.time != c.time)
  {
    MergedRows(s, c);
    var m := Merged(s, c);
    var u := KeepLast(m, Cap);
    forall x | x in u
      ensures x == c || (x in s && x.time != c.time)
    {
      var j :| 0 <= j < |u| && u[j] == x;
      assert m[j + |m| - |u|] == x;
    }
  }

  /** Whatever stream of updates arrives, keys stay strictly increasing and the cap holds. */
  lemma {:induction false} UpsertAllSorted(s: Series, cs: seq<Candle>)
    requires StrictlySorted(s) && |s| <= Cap
    ensures StrictlySorted(UpsertAll(s, cs)) && |UpsertAll(s, cs)| <= Cap
    decreases |cs|
  {
    if |cs| > 0 {
      UpsertSorted(s, cs[0]);
      UpsertAllSorted(Upsert(s, cs[0]), cs[1..]);
    }
  }
}
