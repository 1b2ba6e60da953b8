/** The schedule merger of Portfolio: the horizon in days, each asset's tick length and
    tick count, and one event list of all assets' ticks ordered by (elapsed day, asset). */
module Schedule {
  import opened Numeric

  /** Days per month (`dpm`); a year is twelve such months. */
  const Dpm: int := 30

  /** `get_total_days`: the horizon in days, truncated toward zero like Python's `int`. */
  function TotalDays(days: real, months: real, years: real): (r: int)
    ensures var x := days + Dpm as real * (months + 12.0 * years);
      (0.0 <= x ==> 0 <= r && r as real <= x < r as real + 1.0) &&
      (x < 0.0 ==> r <= 0 && r as real - 1.0 < x <= r as real)
  {
    Trunc(days + Dpm as real * (months + 12.0 * years))
  }

  /** The tick length `(12/freq)*dpm` in days. */
  function DayLen(freq: int): (r: real)
    requires freq != 0
    ensures r != 0.0 && (0 < freq <==> 0.0 < r)
  {
    (12.0 / freq as real) * Dpm as real
  }

  /** The number of whole ticks in `totalDays`, truncated toward zero. */
  function EventCount(freq: int, totalDays: int): int
    requires freq != 0
  {
    Trunc(totalDays as real / DayLen(freq))
  }

  /** `get_num_events`: the tick length `360/freq` and the number of whole ticks in the
      horizon: for a positive frequency and horizon, the ticks fit and one more would not. */
  function GetNumEvents(freq: int, totalDays: int): (r: (real, int))
    requires freq != 0
    ensures r.0 * freq as real == 360.0
    ensures 0 < freq && 0 <= totalDays ==>
      0 <= r.1 && r.1 as real * r.0 <= totalDays as real < (r.1 + 1) as real * r.0
    ensures 0 < freq && totalDays < 0 ==> r.1 <= 0
  {
    NumEventsBounds(DayLen(freq), totalDays, EventCount(freq, totalDays));
    (DayLen(freq), EventCount(freq, totalDays))
  }

  /** The whole-tick count brackets the horizon. */
  lemma NumEventsBounds(dayLen: real, totalDays: int, numEvents: int)
    requires dayLen != 0.0 && numEvents == Trunc(totalDays as real / dayLen)
    ensures 0.0 < dayLen && 0 <= totalDays ==>
      0 <= numEvents && numEvents as real * dayLen <= totalDays as real < (numEvents + 1) as real * dayLen
  {
    if 0.0 < dayLen && 0 <= totalDays {
      var x := totalDays as real / dayLen;
      assert x * dayLen == totalDays as real;
      var lo, hi := numEvents as real, (numEvents + 1) as real;
      assert lo <= x < hi;
      assert lo * dayLen <= x * dayLen;
      assert (hi - x) * dayLen > 0.0;
      assert x * dayLen < hi * dayLen;
      assert totalDays as real < (numEvents + 1) as real * dayLen;
    }
  }

  /** One event of the merged schedule: `(asset_idx, local_tick, elapsed_day)`. */
  datatype Entry = Entry(asset: int, tick: int, day: real)

  /** Local tick `t` of asset `a` happens at day `(t+1)*dayLen`: the first tick is one
      tick length in, not at day 0. */
  function TickEntry(a: int, t: int, dayLen: real): Entry
  {
    Entry(a, t, (t + 1) as real * dayLen)
  }

  /** The events of asset `idx`, local ticks `0 .. count-1`. */
  function AssetEntries(idx: int, dayLen: real, count: int): seq<Entry>
  {
    seq(if count < 0 then 0 else count, k => TickEntry(idx, k, dayLen))
  }

  predicate NonZero(freqs: seq<int>)
  {
    forall k :: 0 <= k < |freqs| ==> freqs[k] != 0
  }

  /** `sched_lengths`: each asset's event count. */
  function Lengths(freqs: seq<int>, totalDays: int): (r: seq<int>)
    requires NonZero(freqs)
    ensures |r| == |freqs|
  {
    seq(|freqs|, k requires 0 <= k < |freqs| => EventCount(freqs[k], totalDays))
  }

  /** The concatenation of every asset's events, in asset order, before sorting. */
  function Unmerged(freqs: seq<int>, totalDays: int): seq<Entry>
    requires NonZero(freqs)
  {
    if freqs == [] then []
    else
      var k := |freqs| - 1;
      Unmerged(freqs[..k], totalDays) + AssetEntries(k, DayLen(freqs[k]), EventCount(freqs[k], totalDays))
  }

  /** The sort key `(elapsed_day, asset_idx)`, compared lexicographically. */
  predicate KeyLe(a: Entry, b: Entry)
  {
    a.day < b.day || (a.day == b.day && a.asset <= b.asset)
  }

  predicate SortedByKey(s: seq<Entry>)
  {
    forall j1, j2 :: 0 <= j1 < j2 < |s| ==> KeyLe(s[j1], s[j2])
  }

  /** Insertion of one event before the first event whose key is not smaller. */
  function Insert(e: Entry, s: seq<Entry>): (r: seq<Entry>)
    ensures multiset(r) == multiset(s) + multiset{e}
  {
    if s == [] || KeyLe(e, s[0]) then [e] + s
    else
      assert s == [s[0]] + s[1..];
      [s[0]] + Insert(e, s[1..])
  }

  /** Sorting by `(elapsed_day, asset_idx)`: the result is ordered and holds the same events. */
  function SortEntries(s: seq<Entry>): (r: seq<Entry>)
    ensures multiset(r) == multiset(s)
    ensures SortedByKey(r)
  {
    if s == [] then []
    else
      assert s == [s[0]] + s[1..];
      var rest := SortEntries(s[1..]);
      InsertSorted(s[0], rest);
      Insert(s[0], rest)
  }

  /** Inserting into an ordered list keeps it ordered. */
  lemma {:induction false} InsertSorted(e: Entry, s: seq<Entry>)
    requires SortedByKey(s)
    ensures SortedByKey(Insert(e, s))
  {
    if s != [] && !KeyLe(e, s[0]) {
      InsertSorted(e, s[1..]);
      var r := Insert(e, s[1..]);
      forall x | x in r
        ensures KeyLe(s[0], x)
      {
        assert x in multiset(r);
      }
    }
  }

  /** `get_sched`'s result: every event, sorted by `(elapsed_day, asset_idx)`. */
  function Merged(freqs: seq<int>, totalDays: int): seq<Entry>
    requires NonZero(freqs)
  {
    SortEntries(Unmerged(freqs, totalDays))
  }

  predicate Distinct(s: seq<Entry>)
  {
    forall j1, j2 :: 0 <= j1 < j2 < |s| ==> s[j1] != s[j2]
  }

  lemma {:induction false} DistinctCounts(s: seq<Entry>)
    requires Distinct(s)
    ensures forall x :: multiset(s)[x] <= 1
  {
    if s != [] {
      assert s == [s[0]] + s[1..];
      assert Distinct(s[1..]);
      DistinctCounts(s[1..]);
      assert forall k :: 0 <= k < |s[1..]| ==> s[1..][k] == s[k + 1] != s[0];
      assert s[0] !in s[1..];
    }
  }

  lemma CountsDistinct(s: seq<Entry>)
    requires forall x :: multiset(s)[x] <= 1
    ensures Distinct(s)
  {
    forall j1, j2 | 0 <= j1 < j2 < |s|
      ensures s[j1] != s[j2]
    {
      var x := s[j1];
      assert s == s[..j2] + s[j2..];
      assert x in s[..j2];
      assert multiset(s)[x] == multiset(s[..j2])[x] + multiset(s[j2..])[x];
      assert multiset(s[j2..])[x] == 0;
      assert s[j2] in s[j2..];
    }
  }

  /** An event sits where its asset's tick says: a known asset, a tick below that asset's
      count, and the elapsed day `(tick+1)*day_len`. */
  predicate Placed(freqs: seq<int>, totalDays: int, e: Entry)
    requires NonZero(freqs)
  {
    0 <= e.asset < |freqs| &&
    0 <= e.tick < EventCount(freqs[e.asset], totalDays) &&
    e == TickEntry(e.asset, e.tick, DayLen(freqs[e.asset]))
  }

  function SumCounts(lens: seq<int>): int
  {
    if lens == [] then 0
    else SumCounts(lens[..|lens| - 1]) + (if lens[|lens| - 1] < 0 then 0 else lens[|lens| - 1])
  }

  /** Every concatenated event is placed. */
  lemma {:induction false} UnmergedPlaced(freqs: seq<int>, totalDays: int)
    requires NonZero(freqs)
    ensures forall e :: e in Unmerged(freqs, totalDays) ==> Placed(freqs, totalDays, e)
  {
    if freqs != [] {
      var k := |freqs| - 1;
      var init := freqs[..k];
      UnmergedPlaced(init, totalDays);
      var u, b := Unmerged(init, totalDays), AssetEntries(k, DayLen(freqs[k]), EventCount(freqs[k], totalDays));
      assert Unmerged(freqs, totalDays) == u + b;
      forall e | e in u + b ensures Placed(freqs, totalDays, e) {
        if e in u {
          assert Placed(init, totalDays, e);
        }
      }
    }
  }

  /** Every tick of every asset is among the concatenated events. */
  lemma {:induction false} UnmergedComplete(freqs: seq<int>, totalDays: int)
    requires NonZero(freqs)
    ensures forall a, t :: 0 <= a < |freqs| && 0 <= t < EventCount(freqs[a], totalDays) ==>
      TickEntry(a, t, DayLen(freqs[a])) in Unmerged(freqs, totalDays)
  {
    if freqs != [] {
      var k := |freqs| - 1;
      var init := freqs[..k];
      UnmergedComplete(init, totalDays);
      var u, b := Unmerged(init, totalDays), AssetEntries(k, DayLen(freqs[k]), EventCount(freqs[k], totalDays));
      assert Unmerged(freqs, totalDays) == u + b;
      forall a, t | 0 <= a < |freqs| && 0 <= t < EventCount(freqs[a], totalDays)
        ensures TickEntry(a, t, DayLen(freqs[a])) in u + b
      {
        if a < k {
          assert init[a] == freqs[a];
          assert TickEntry(a, t, DayLen(init[a])) in u;
        } else {
          assert b[t] == TickEntry(a, t, DayLen(freqs[a]));
        }
      }
    }
  }

  /** No event is listed twice, and there are as many as the counts add up to. */
  lemma {:induction false} UnmergedDistinct(freqs: seq<int>, totalDays: int)
    requires NonZero(freqs)
    ensures Distinct(Unmerged(freqs, totalDays))
    ensures |Unmerged(freqs, totalDays)| == SumCounts(Lengths(freqs, totalDays))
  {
    if freqs != [] {
      var k := |freqs| - 1;
      var init := freqs[..k];
      UnmergedDistinct(init, totalDays);
      UnmergedPlaced(init, totalDays);
      var u, b := Unmerged(init, totalDays), AssetEntries(k, DayLen(freqs[k]), EventCount(freqs[k], totalDays));
      assert Unmerged(freqs, totalDays) == u + b;
      forall j1, j2 | 0 <= j1 < j2 < |u + b| ensures (u + b)[j1] != (u + b)[j2] {
        if j2 < |u| {
          assert (u + b)[j1] == u[j1] && (u + b)[j2] == u[j2];
        } else if j1 < |u| {
          assert (u + b)[j1] in u;
          assert Placed(init, totalDays, (u + b)[j1]);
        } else {
          assert (u + b)[j1] == b[j1 - |u|] && (u + b)[j2] == b[j2 - |u|];
        }
      }
      assert Lengths(init, totalDays) == Lengths(freqs, totalDays)[..k];
    }
  }

  /** Every event of the merged schedule is placed. */
  lemma MergedPlaced(freqs: seq<int>, totalDays: int)
    requires NonZero(freqs)
    ensures forall e :: e in Merged(freqs, totalDays) ==> Placed(freqs, totalDays, e)
  {
    var m, u := Merged(freqs, totalDays), Unmerged(freqs, totalDays);
    UnmergedPlaced(freqs, totalDays);
    forall e | e in m ensures Placed(freqs, totalDays, e) {
      assert e in multiset(u);
    }
  }

  /** Every tick of every asset is in the merged schedule. */
  lemma MergedComplete(freqs: seq<int>, totalDays: int)
    requires NonZero(freqs)
    ensures forall a, t :: 0 <= a < |freqs| && 0 <= t < EventCount(freqs[a], totalDays) ==>
      TickEntry(a, t, DayLen(freqs[a])) in Merged(freqs, totalDays)
  {
    var m, u := Merged(freqs, totalDays), Unmerged(freqs, totalDays);
    UnmergedComplete(freqs, totalDays);
    forall a, t | 0 <= a < |freqs| && 0 <= t < EventCount(freqs[a], totalDays)
      ensures TickEntry(a, t, DayLen(freqs[a])) in m
    {
      assert TickEntry(a, t, DayLen(freqs[a])) in multiset(u);
    }
  }

  /** The merged schedule lists no event twice, and its length is the sum of the counts. */
  lemma MergedDistinct(freqs: seq<int>, totalDays: int)
    requires NonZero(freqs)
    ensures Distinct(Merged(freqs, totalDays))
    ensures |Merged(freqs, totalDays)| == SumCounts(Lengths(freqs, totalDays))
  {
    var m, u := Merged(freqs, totalDays), Unmerged(freqs, totalDays);
    UnmergedDistinct(freqs, totalDays);
    assert |m| == |multiset(m)| == |multiset(u)| == |u|;
    DistinctCounts(u);
    CountsDistinct(m);
  }

  /** Two events of one asset in the merged schedule never share a local tick, so no two
      steps of a replication write the same row. */
  lemma SameAssetDistinctTicks(freqs: seq<int>, totalDays: int, j1: int, j2: int)
    requires NonZero(freqs)
    requires 0 <= j1 < j2 < |Merged(freqs, totalDays)|
    requires Merged(freqs, totalDays)[j1].asset == Merged(freqs, totalDays)[j2].asset
    ensures Merged(freqs, totalDays)[j1].tick != Merged(freqs, totalDays)[j2].tick
  {
    MergedDistinct(freqs, totalDays);
    MergedPlaced(freqs, totalDays);
    var m := Merged(freqs, totalDays);
    assert m[j1] != m[j2];
    assert m[j1] in m && m[j2] in m;
    assert Placed(freqs, totalDays, m[j1]) && Placed(freqs, totalDays, m[j2]);
  }

  /** Distinct ticks of one asset fall on distinct days. */
  lemma TickOfDay(t1: int, t2: int, dayLen: real)
    requires dayLen != 0.0
    requires (t1 + 1) as real * dayLen == (t2 + 1) as real * dayLen
    ensures t1 == t2
  {
    assert ((t1 + 1) as real - (t2 + 1) as real) * dayLen == 0.0;
  }

  /** Two events with the same key are the same event. */
  predicate UniqueKeys(s: seq<Entry>)
  {
    forall x, y :: x in s && y in s && x.day == y.day && x.asset == y.asset ==> x == y
  }

  /** Any list ordered by the key that holds the same events is the same list, when keys
      are unique; so whichever stable sort the source uses, it yields SortEntries' order. */
  lemma {:induction false} SortedPermutationUnique(s: seq<Entry>, t: seq<Entry>)
    requires SortedByKey(s) && SortedByKey(t) && multiset(s) == multiset(t)
    requires UniqueKeys(s)
    ensures s == t
  {
    assert |s| == |multiset(s)| == |multiset(t)| == |t|;
    if s != [] {
      SameHead(s, t);
      SameTail(s, t);
      TailUniqueKeys(s);
      SortedPermutationUnique(s[1..], t[1..]);
      assert s == [s[0]] + s[1..] && t == [t[0]] + t[1..];
    }
  }

  /** Two key-ordered lists of the same events with unique keys start with the same event. */
  lemma SameHead(s: seq<Entry>, t: seq<Entry>)
    requires SortedByKey(s) && SortedByKey(t) && multiset(s) == multiset(t)
    requires UniqueKeys(s) && s != [] && t != []
    ensures s[0] == t[0]
  {
    assert s[0] in multiset(t) && t[0] in multiset(s);
    assert s[0] in s && t[0] in s;
    var i :| 0 <= i < |t| && t[i] == s[0];
    var k :| 0 <= k < |s| && s[k] == t[0];
    assert KeyLe(t[0], t[i]) && KeyLe(s[0], s[k]);
  }

  /** Taking the same first event off two lists of the same events leaves the same events. */
  lemma SameTail(s: seq<Entry>, t: seq<Entry>)
    requires multiset(s) == multiset(t) && s != [] && t != [] && s[0] == t[0]
    ensures multiset(s[1..]) == multiset(t[1..])
  {
    assert s == [s[0]] + s[1..] && t == [t[0]] + t[1..];
    assert multiset(s) == multiset{s[0]} + multiset(s[1..]);
    assert multiset(t) == multiset{t[0]} + multiset(t[1..]);
    forall y
      ensures multiset(s[1..])[y] == multiset(t[1..])[y]
    {
      assert multiset(s)[y] == multiset{s[0]}[y] + multiset(s[1..])[y];
      assert multiset(t)[y] == multiset{t[0]}[y] + multiset(t[1..])[y];
    }
  }

  /** Unique keys stay unique in the tail. */
  lemma TailUniqueKeys(s: seq<Entry>)
    requires UniqueKeys(s) && s != []
    ensures UniqueKeys(s[1..])
  {
    forall x, y | x in s[1..] && y in s[1..] && x.day == y.day && x.asset == y.asset
      ensures x == y
    {
      assert x in s && y in s;
    }
  }

  /** In the merged schedule an event's key determines the event. */
  lemma MergedUniqueKeys(freqs: seq<int>, totalDays: int)
    requires NonZero(freqs)
    ensures UniqueKeys(Merged(freqs, totalDays))
  {
    MergedPlaced(freqs, totalDays);
    var m := Merged(freqs, totalDays);
    forall x, y | x in m && y in m && x.day == y.day && x.asset == y.asset
      ensures x == y
    {
      SameKeyPlaced(freqs, totalDays, x, y);
    }
  }

  /** Two placed events with the same key are the same event. */
  lemma SameKeyPlaced(freqs: seq<int>, totalDays: int, x: Entry, y: Entry)
    requires NonZero(freqs) && Placed(freqs, totalDays, x) && Placed(freqs, totalDays, y)
    requires x.day == y.day && x.asset == y.asset
    ensures x == y
  {
    TickOfDay(x.tick, y.tick, DayLen(freqs[x.asset]));
  }

  /** The merged schedule is the only ordering by `(elapsed_day, asset_idx)` of the
      concatenated events. */
  lemma MergedIsTheSortedOrder(freqs: seq<int>, totalDays: int, t: seq<Entry>)
    requires NonZero(freqs)
    requires SortedByKey(t) && multiset(t) == multiset(Unmerged(freqs, totalDays))
    ensures t == Merged(freqs, totalDays)
  {
    MergedUniqueKeys(freqs, totalDays);
    SortedPermutationUnique(Merged(freqs, totalDays), t);
  }

  /** The events of asset `a`, in the order they occur in `s`. */
  function OfAsset(s: seq<Entry>, a: int): seq<Entry>
  {
    if s == [] then []
    else (if s[0].asset == a then [s[0]] else []) + OfAsset(s[1..], a)
  }

  lemma {:induction false} OfAssetMembers(s: seq<Entry>, a: int)
    ensures forall x :: x in OfAsset(s, a) ==> x in s && x.asset == a
  {
    if s != [] {
      OfAssetMembers(s[1..], a);
    }
  }

  lemma {:induction false} OfAssetAppend(s: seq<Entry>, t: seq<Entry>, a: int)
    ensures OfAsset(s + t, a) == OfAsset(s, a) + OfAsset(t, a)
  {
    if s != [] {
      var h := if s[0].asset == a then [s[0]] else [];
      assert (s + t)[0] == s[0];
      assert (s + t)[1..] == s[1..] + t;
      OfAssetAppend(s[1..], t, a);
      calc {
        OfAsset(s + t, a);
        h + OfAsset(s[1..] + t, a);
        h + (OfAsset(s[1..], a) + OfAsset(t, a));
        (h + OfAsset(s[1..], a)) + OfAsset(t, a);
        OfAsset(s, a) + OfAsset(t, a);
      }
    } else {
      assert s + t == t;
    }
  }

  /** Filtering an ordered list commutes with inserting into it. */
  lemma {:induction false} OfAssetInsert(e: Entry, s: seq<Entry>, a: int)
    requires SortedByKey(s)
    ensures OfAsset(Insert(e, s), a) == if e.asset == a then Insert(e, OfAsset(s, a)) else OfAsset(s, a)
  {
    if s == [] {
    } else if KeyLe(e, s[0]) {
      OfAssetInsertFront(e, s, a);
    } else {
      assert SortedByKey(s[1..]);
      OfAssetInsert(e, s[1..], a);
      OfAssetInsertLater(e, s, a);
    }
  }

  /** An entry that goes in front of a sorted list also goes in front of its filtered part. */
  lemma OfAssetInsertFront(e: Entry, s: seq<Entry>, a: int)
    requires SortedByKey(s) && s != [] && KeyLe(e, s[0])
    ensures OfAsset(Insert(e, s), a) == if e.asset == a then Insert(e, OfAsset(s, a)) else OfAsset(s, a)
  {
    assert Insert(e, s) == [e] + s;
    assert ([e] + s)[1..] == s;
    var f := OfAsset(s, a);
    OfAssetMembers(s, a);
    if f != [] {
      assert f[0] in s;
      assert KeyLe(s[0], f[0]);
    }
  }

  /** An entry that goes after the head of a list: the head is filtered on its own. */
  lemma OfAssetInsertLater(e: Entry, s: seq<Entry>, a: int)
    requires s != [] && !KeyLe(e, s[0])
    requires OfAsset(Insert(e, s[1..]), a) ==
      if e.asset == a then Insert(e, OfAsset(s[1..], a)) else OfAsset(s[1..], a)
    ensures OfAsset(Insert(e, s), a) == if e.asset == a then Insert(e, OfAsset(s, a)) else OfAsset(s, a)
  {
    var rest := Insert(e, s[1..]);
    assert Insert(e, s) == [s[0]] + rest;
    assert ([s[0]] + rest)[1..] == rest;
    var h := if s[0].asset == a then [s[0]] else [];
    var f := OfAsset(s[1..], a);
    assert OfAsset(Insert(e, s), a) == h + OfAsset(rest, a);
    assert OfAsset(s, a) == h + f;
    if e.asset == a && h != [] {
      assert (h + f)[0] == s[0] && (h + f)[1..] == f;
      assert Insert(e, h + f) == h + Insert(e, f);
    } else if e.asset == a {
      assert h + f == f && h + Insert(e, f) == Insert(e, f);
    }
  }

  /** Filtering a sorted list is sorting the filtered list. */
  lemma {:induction false} OfAssetSort(s: seq<Entry>, a: int)
    ensures OfAsset(SortEntries(s), a) == SortEntries(OfAsset(s, a))
  {
    if s != [] {
      OfAssetSort(s[1..], a);
      var sorted := SortEntries(s[1..]);
      OfAssetInsert(s[0], sorted, a);
      var f := OfAsset(s[1..], a);
      assert OfAsset(SortEntries(s), a) == OfAsset(Insert(s[0], sorted), a);
      if s[0].asset == a {
        assert OfAsset(s, a) == [s[0]] + f;
        assert ([s[0]] + f)[0] == s[0] && ([s[0]] + f)[1..] == f;
        assert SortEntries(OfAsset(s, a)) == Insert(s[0], SortEntries(f));
      } else {
        assert OfAsset(s, a) == f;
      }
    }
  }

  /** Sorting an ordered list leaves it as it is. */
  lemma {:induction false} SortSorted(s: seq<Entry>)
    requires SortedByKey(s)
    ensures SortEntries(s) == s
  {
    if s != [] {
      SortSorted(s[1..]);
      assert s == [s[0]] + s[1..];
    }
  }

  /** Filtering the concatenation for one asset leaves exactly that asset's block. */
  lemma {:induction false} OfAssetUnmerged(freqs: seq<int>, totalDays: int, a: int)
    requires NonZero(freqs) && 0 <= a < |freqs|
    ensures OfAsset(Unmerged(freqs, totalDays), a) ==
      AssetEntries(a, DayLen(freqs[a]), EventCount(freqs[a], totalDays))
  {
    var k := |freqs| - 1;
    var init := freqs[..k];
    var b := AssetEntries(k, DayLen(freqs[k]), EventCount(freqs[k], totalDays));
    assert Unmerged(freqs, totalDays) == Unmerged(init, totalDays) + b;
    OfAssetAppend(Unmerged(init, totalDays), b, a);
    assert forall i :: 0 <= i < |b| ==> b[i].asset == k;
    if a < k {
      OfAssetUnmerged(init, totalDays, a);
      assert init[a] == freqs[a];
      OfAssetOfOthers(b, a);
    } else {
      UnmergedPlaced(init, totalDays);
      OfAssetOfOthers(Unmerged(init, totalDays), a);
      OfAssetOfOne(b, a);
    }
  }

  lemma {:induction false} OfAssetOfOthers(s: seq<Entry>, a: int)
    requires forall x :: x in s ==> x.asset != a
    ensures OfAsset(s, a) == []
  {
    if s != [] {
      OfAssetOfOthers(s[1..], a);
    }
  }

  lemma {:induction false} OfAssetOfOne(s: seq<Entry>, a: int)
    requires forall x :: x in s ==> x.asset == a
    ensures OfAsset(s, a) == s
  {
    if s != [] {
      OfAssetOfOne(s[1..], a);
    }
  }

  /** A positive tick length puts an asset's own ticks in key order. */
  lemma AssetEntriesSorted(a: int, dayLen: real, count: int)
    requires 0.0 < dayLen
    ensures SortedByKey(AssetEntries(a, dayLen, count))
  {
    var s := AssetEntries(a, dayLen, count);
    forall j1, j2 | 0 <= j1 < j2 < |s| ensures KeyLe(s[j1], s[j2]) {
      assert (j2 - j1) as real * dayLen > 0.0;
    }
  }

  /** For an asset with a positive frequency, its events in the merged schedule are its
      own ticks `0 .. count-1` in order, at days `(tick+1)*day_len`. */
  lemma MergedPerAsset(freqs: seq<int>, totalDays: int, a: int)
    requires NonZero(freqs) && 0 <= a < |freqs| && 0 < freqs[a]
    ensures OfAsset(Merged(freqs, totalDays), a) ==
      AssetEntries(a, DayLen(freqs[a]), EventCount(freqs[a], totalDays))
  {
    OfAssetSort(Unmerged(freqs, totalDays), a);
    OfAssetUnmerged(freqs, totalDays, a);
    AssetEntriesSorted(a, DayLen(freqs[a]), EventCount(freqs[a], totalDays));
    SortSorted(AssetEntries(a, DayLen(freqs[a]), EventCount(freqs[a], totalDays)));
  }

  /** For an asset with a positive frequency, an event's local tick is the number of that
      asset's events before it in the merged schedule. */
  lemma TickIsCount(freqs: seq<int>, totalDays: int, j: int)
    requires NonZero(freqs)
    requires 0 <= j < |Merged(freqs, totalDays)|
    requires var a := Merged(freqs, totalDays)[j].asset; 0 <= a < |freqs| && 0 < freqs[a]
    ensures var m := Merged(freqs, totalDays);
      m[j].tick == |OfAsset(m[..j], m[j].asset)|
  {
    var m := Merged(freqs, totalDays);
    var a := m[j].asset;
    MergedPerAsset(freqs, totalDays, a);
    assert m == m[..j] + m[j..];
    assert m[j..] == [m[j]] + m[j + 1..];
    OfAssetAppend(m[..j], m[j..], a);
    OfAssetAppend([m[j]], m[j + 1..], a);
    var c := |OfAsset(m[..j], a)|;
    assert OfAsset(m, a)[c] == m[j];
  }

  /** `get_sched`: loops over the assets, recording each one's event count and appending its
      events, then sorts the events by `(elapsed_day, asset_idx)`. */
  method GetSched(freqs: seq<int>, years: real, months: real, days: real)
    returns (sched: seq<Entry>, schedLengths: seq<int>)
    requires NonZero(freqs)
    ensures var totalDays := TotalDays(days, months, years);
      sched == Merged(freqs, totalDays) && schedLengths == Lengths(freqs, totalDays)
    ensures SortedByKey(sched)
    ensures |schedLengths| == |freqs|
    ensures forall k :: 0 <= k < |freqs| ==>
      schedLengths[k] == GetNumEvents(freqs[k], TotalDays(days, months, years)).1
  {
    var totalDays := TotalDays(days, months, years);
    var unsorted: seq<Entry> := [];
    schedLengths := [];
    for idx := 0 to |freqs|
      invariant unsorted == Unmerged(freqs[..idx], totalDays)
      invariant schedLengths == Lengths(freqs[..idx], totalDays)
    {
      var (dayLen, numEvents) := GetNumEvents(freqs[idx], totalDays);
      schedLengths := schedLengths + [numEvents];
      unsorted := unsorted + AssetEntries(idx, dayLen, numEvents);
      assert freqs[..idx + 1][..idx] == freqs[..idx];
    }
    assert freqs[..|freqs|] == freqs;
    sched := SortEntries(unsorted);
  }
}
