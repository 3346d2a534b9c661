/** Streaming candle aggregation against its batch definition. */
module CandleStore {
  import opened Common
  import opened Money

  /** One accepted tick with the interval it falls in; times are whole microseconds since the epoch. */
  datatype Tick = Tick(time: int, bucket: int, price: real, volume: int, oi: int)

  datatype Candle = Candle(
    bucket: int, open: real, high: real, low: real, close: real, volume: int, oi: int, vwap: real)

  const MICROS := 1_000_000

  /** Whole seconds, cut toward zero. */
  function Seconds(time: int): int {
    if time >= 0 then time / MICROS else -(-time / MICROS)
  }

  /** The start of the interval a time falls in. */
  function Bucket(interval: int, time: int): int
    requires interval > 0
  {
    Seconds(time) - Seconds(time) % interval
  }

  /** Before the epoch the cut is upward. */
  lemma SecondsCutTowardZero(time: int)
    ensures time >= 0 ==> Seconds(time) * 1_000_000 <= time < Seconds(time) * 1_000_000 + 1_000_000
    ensures time <= 0 ==> Seconds(time) * 1_000_000 - 1_000_000 < time <= Seconds(time) * 1_000_000
  {
  }

  /** An interval starts at a multiple of its length, and the time's second lies in it. */
  lemma BucketHoldsTime(interval: int, time: int)
    requires interval > 0
    ensures Bucket(interval, time) % interval == 0
    ensures Bucket(interval, time) <= Seconds(time) < Bucket(interval, time) + interval
    ensures Bucket(interval, time) == Seconds(time) / interval * interval
  {
    var x := Seconds(time);
    assert x == x / interval * interval + x % interval;
    MultipleHasNoRest(interval, x / interval);
  }

  lemma MultipleHasNoRest(interval: int, q: int)
    requires interval > 0
    ensures q * interval % interval == 0
  {
    var m := q * interval;
    assert m == m / interval * interval + m % interval;
    var d := q - m / interval;
    assert d * interval == m % interval;
    QuotientOrder(interval, 0, d, 0, 0);
    QuotientOrder(interval, d, 0, 0, interval - 1);
  }

  /** Two times share an interval exactly when their seconds lie between the same multiples of its length. */
  lemma SameBucketIff(interval: int, a: int, b: int)
    requires interval > 0
    ensures Bucket(interval, a) == Bucket(interval, b) <==> Seconds(a) / interval == Seconds(b) / interval
  {
    BucketHoldsTime(interval, a);
    BucketHoldsTime(interval, b);
    SameMultipleIff(interval, Seconds(a) / interval, Seconds(b) / interval);
  }

  lemma SameMultipleIff(interval: int, p: int, q: int)
    requires interval > 0
    ensures p * interval == q * interval <==> p == q
  {
    if p * interval == q * interval {
      QuotientOrder(interval, p, q, 0, 0);
      QuotientOrder(interval, q, p, 0, 0);
    }
  }

  lemma BucketIsMonotone(interval: int, a: int, b: int)
    requires interval > 0 && a <= b
    ensures Bucket(interval, a) <= Bucket(interval, b)
  {
    var x, y := Seconds(a), Seconds(b);
    assert x <= y;
    FloorIsMonotone(interval, x, y);
  }

  lemma FloorIsMonotone(interval: int, x: int, y: int)
    requires interval > 0 && x <= y
    ensures x - x % interval <= y - y % interval
  {
    var p, q := x / interval, y / interval;
    assert x == p * interval + x % interval && y == q * interval + y % interval;
    QuotientIsMonotone(interval, p, q, x % interval, y % interval);
  }

  lemma ProductOfNonPositive(d: int, interval: int)
    requires d <= 0 && interval > 0
    ensures d * interval <= 0
  {
  }

  lemma QuotientOrder(interval: int, p: int, q: int, r: int, s: int)
    requires 0 <= r < interval && 0 <= s < interval && p * interval + r <= q * interval + s
    ensures p <= q
  {
    var d := q - p + 1;
    assert d * interval == q * interval - p * interval + interval;
    if d <= 0 {
      ProductOfNonPositive(d, interval);
    }
  }

  lemma QuotientIsMonotone(interval: int, p: int, q: int, r: int, s: int)
    requires 0 <= r < interval && 0 <= s < interval && p * interval + r <= q * interval + s
    ensures p * interval <= q * interval
  {
    QuotientOrder(interval, p, q, r, s);
    ProductOfNonPositive(p - q, interval);
    assert (p - q) * interval == p * interval - q * interval;
  }

  // The batch definition: split the whole history into intervals, then read each interval off its ticks.

  /** The closed intervals of a history, oldest first, and the one still open (empty only for no history). */
  datatype Split = Split(closed: seq<seq<Tick>>, open: seq<Tick>)

  /** All ticks of a non-empty group lie in the interval of its first one. */
  ghost predicate IsGroup(group: seq<Tick>) {
    |group| > 0 && forall i :: 0 <= i < |group| ==> group[i].bucket == group[0].bucket
  }

  function Intervals(ticks: seq<Tick>): (s: Split)
    ensures |s.open| > 0 <==> |ticks| > 0
    ensures |s.open| == 0 ==> s.closed == []
    ensures |ticks| > 0 ==> s.open[|s.open| - 1] == ticks[|ticks| - 1]
    ensures forall i :: 0 <= i < |s.closed| ==> |s.closed[i]| > 0
  {
    if |ticks| == 0 then Split([], [])
    else Next(Intervals(ticks[..|ticks| - 1]), ticks[|ticks| - 1])
  }

  function Next(s: Split, t: Tick): Split {
    if |s.open| == 0 then Split(s.closed, [t])
    else if s.open[0].bucket == t.bucket then Split(s.closed, s.open + [t])
    else Split(s.closed + [s.open], [t])
  }

  function Flatten(groups: seq<seq<Tick>>): seq<Tick> {
    if |groups| == 0 then [] else Flatten(groups[..|groups| - 1]) + groups[|groups| - 1]
  }

  ghost predicate InOrder(ticks: seq<Tick>) {
    forall i, j :: 0 <= i < j < |ticks| ==> ticks[i].bucket <= ticks[j].bucket
  }

  /** Each interval of a split is one group. */
  ghost predicate AreGroups(s: Split) {
    && (forall i :: 0 <= i < |s.closed| ==> IsGroup(s.closed[i]))
    && (|s.open| > 0 ==> IsGroup(s.open))
  }

  /** Each group of the split lies in one interval. */
  lemma {:induction false} SplitIntoGroups(ticks: seq<Tick>)
    ensures AreGroups(Intervals(ticks))
  {
    if |ticks| > 0 {
      SplitIntoGroups(ticks[..|ticks| - 1]);
      assert IsGroup([ticks[|ticks| - 1]]);
    }
  }

  lemma FlattenPush(groups: seq<seq<Tick>>, group: seq<Tick>)
    ensures Flatten(groups + [group]) == Flatten(groups) + group
  {
    assert (groups + [group])[..|groups|] == groups;
  }

  lemma ConcatIsAssociative(a: seq<Tick>, b: seq<Tick>, c: seq<Tick>)
    ensures (a + b) + c == a + (b + c)
  {
  }

  lemma NextAddsLast(s: Split, t: Tick)
    requires |s.open| == 0 ==> s.closed == []
    ensures Flatten(Next(s, t).closed) + Next(s, t).open == (Flatten(s.closed) + s.open) + [t]
  {
    if |s.open| == 0 {
      assert Flatten(s.closed) + s.open == [];
    } else if s.open[0].bucket == t.bucket {
      ConcatIsAssociative(Flatten(s.closed), s.open, [t]);
    } else {
      FlattenPush(s.closed, s.open);
    }
  }

  /** Splitting loses and reorders nothing. */
  lemma {:induction false} SplitIsPartition(ticks: seq<Tick>)
    ensures Flatten(Intervals(ticks).closed) + Intervals(ticks).open == ticks
  {
    if |ticks| > 0 {
      var rest, t := ticks[..|ticks| - 1], ticks[|ticks| - 1];
      SplitIsPartition(rest);
      NextAddsLast(Intervals(rest), t);
      InitAndLast(ticks);
    }
  }

  /** Every interval starts before the later ones. */
  ghost predicate Increasing(s: Split)
    requires forall i :: 0 <= i < |s.closed| ==> |s.closed[i]| > 0
    requires |s.open| == 0 ==> s.closed == []
  {
    && (forall i, j :: 0 <= i < j < |s.closed| ==> s.closed[i][0].bucket < s.closed[j][0].bucket)
    && (forall i :: 0 <= i < |s.closed| ==> s.closed[i][0].bucket < s.open[0].bucket)
  }

  /** In-order ticks give intervals with strictly increasing starts. */
  lemma {:induction false} StartsIncrease(ticks: seq<Tick>)
    requires InOrder(ticks)
    ensures Increasing(Intervals(ticks))
  {
    SplitIntoGroups(ticks);
    if |ticks| > 0 {
      var rest := ticks[..|ticks| - 1];
      var before := Intervals(rest);
      StartsIncrease(rest);
      SplitIntoGroups(rest);
      if |rest| > 0 {
        assert IsGroup(before.open);
        assert before.open[|before.open| - 1] == rest[|rest| - 1];
        assert before.open[0].bucket <= ticks[|ticks| - 1].bucket;
      }
    }
  }

  function Highest(ticks: seq<Tick>): real
    requires |ticks| > 0
  {
    var last := ticks[|ticks| - 1].price;
    if |ticks| == 1 then last else MaxReal(Highest(ticks[..|ticks| - 1]), last)
  }

  function Lowest(ticks: seq<Tick>): real
    requires |ticks| > 0
  {
    var last := ticks[|ticks| - 1].price;
    if |ticks| == 1 then last else MinReal(Lowest(ticks[..|ticks| - 1]), last)
  }

  /** The running maximum of the cumulative volume readings, the first one not below zero. */
  function PeakVolume(ticks: seq<Tick>): int
    requires |ticks| > 0
  {
    var last := ticks[|ticks| - 1].volume;
    if |ticks| == 1 then Max(0, last) else Max(PeakVolume(ticks[..|ticks| - 1]), last)
  }

  /** The weight of the last tick: the volume it added, at least one. */
  function LastWeight(ticks: seq<Tick>): (w: nat)
    requires |ticks| > 0
  {
    if |ticks| == 1 then 1
    else Max(1, ticks[|ticks| - 1].volume - PeakVolume(ticks[..|ticks| - 1]))
  }

  function Weight(ticks: seq<Tick>): (w: nat)
    requires |ticks| > 0
    ensures w >= 1
  {
    if |ticks| == 1 then 1 else Weight(ticks[..|ticks| - 1]) + LastWeight(ticks)
  }

  function WeightedPrice(ticks: seq<Tick>): real
    requires |ticks| > 0
  {
    var last := ticks[|ticks| - 1].price;
    if |ticks| == 1 then last else WeightedPrice(ticks[..|ticks| - 1]) + Value(last, LastWeight(ticks))
  }

  /** High and low are the greatest and the least price, and are prices of the group. */
  lemma {:induction false} HighLowAreExtremes(ticks: seq<Tick>)
    requires |ticks| > 0
    ensures forall i :: 0 <= i < |ticks| ==> Lowest(ticks) <= ticks[i].price <= Highest(ticks)
    ensures exists i :: 0 <= i < |ticks| && ticks[i].price == Highest(ticks)
    ensures exists i :: 0 <= i < |ticks| && ticks[i].price == Lowest(ticks)
  {
    var n := |ticks| - 1;
    if n == 0 {
      assert ticks[0].price == Highest(ticks) == Lowest(ticks);
    } else {
      HighLowAreExtremes(ticks[..n]);
      var h :| 0 <= h < n && ticks[..n][h].price == Highest(ticks[..n]);
      var l :| 0 <= l < n && ticks[..n][l].price == Lowest(ticks[..n]);
      assert ticks[h].price == Highest(ticks) || ticks[n].price == Highest(ticks);
      assert ticks[l].price == Lowest(ticks) || ticks[n].price == Lowest(ticks);
      forall i | 0 <= i < |ticks|
        ensures Lowest(ticks) <= ticks[i].price <= Highest(ticks)
      {
        if i < n {
          assert ticks[..n][i] == ticks[i];
        }
      }
    }
  }

  /** PeakVolume bounds every reading and is a reading (or zero for a negative first one). */
  lemma {:induction false} PeakVolumeIsRunningMaximum(ticks: seq<Tick>)
    requires |ticks| > 0
    ensures forall i :: 0 <= i < |ticks| ==> ticks[i].volume <= PeakVolume(ticks)
    ensures PeakVolume(ticks) >= Max(0, ticks[0].volume)
    ensures PeakVolume(ticks) == Max(0, ticks[0].volume)
         || exists i :: 0 <= i < |ticks| && ticks[i].volume == PeakVolume(ticks)
  {
    var n := |ticks| - 1;
    if n > 0 {
      PeakVolumeIsRunningMaximum(ticks[..n]);
      forall i | 0 <= i < |ticks|
        ensures ticks[i].volume <= PeakVolume(ticks)
      {
        if i < n {
          assert ticks[..n][i] == ticks[i];
        }
      }
      if i :| 0 <= i < n && ticks[..n][i].volume == PeakVolume(ticks[..n]) {
        assert ticks[i].volume == PeakVolume(ticks[..n]);
      }
    }
  }

  /** The exact quotient of a sum of prices and a positive weight. */
  ghost function Ratio(sum: real, weight: nat): (q: real)
    requires weight > 0
    ensures Value(q, weight) == sum
  {
    ValueIsProduct(sum / weight as real, weight);
    var q: real :| Value(q, weight) == sum;
    q
  }

  /** The volume-weighted price of a group, unrounded. */
  ghost function Vwap(ticks: seq<Tick>): (q: real)
    requires |ticks| > 0
    ensures Value(q, Weight(ticks)) == WeightedPrice(ticks)
  {
    Ratio(WeightedPrice(ticks), Weight(ticks))
  }

  lemma RatioIsQuotient(sum: real, weight: nat)
    requires weight > 0
    ensures Ratio(sum, weight) == sum / weight as real
  {
    ValueIsProduct(Ratio(sum, weight), weight);
  }

  /** The candle a group of ticks stands for. */
  ghost function CandleOf(ticks: seq<Tick>): Candle
    requires |ticks| > 0
  {
    Candle(ticks[0].bucket, ticks[0].price, Highest(ticks), Lowest(ticks), ticks[|ticks| - 1].price,
           PeakVolume(ticks) - Max(0, ticks[0].volume), ticks[|ticks| - 1].oi,
           Round4(Vwap(ticks)))
  }

  ghost function CandlesOf(groups: seq<seq<Tick>>): (c: seq<Candle>)
    requires forall i :: 0 <= i < |groups| ==> |groups[i]| > 0
    ensures |c| == |groups|
  {
    if |groups| == 0 then []
    else CandlesOf(groups[..|groups| - 1]) + [CandleOf(groups[|groups| - 1])]
  }

  /** The candles of all closed intervals. */
  ghost function Completed(ticks: seq<Tick>): seq<Candle> {
    CandlesOf(Intervals(ticks).closed)
  }

  lemma {:induction false} CandlesOfAt(groups: seq<seq<Tick>>, i: nat)
    requires i < |groups| && forall j :: 0 <= j < |groups| ==> |groups[j]| > 0
    ensures CandlesOf(groups)[i] == CandleOf(groups[i])
  {
    if i < |groups| - 1 {
      CandlesOfAt(groups[..|groups| - 1], i);
    }
  }

  /** Completed candles come in strictly increasing interval order, one for each closed interval. */
  lemma CompletedTimesIncrease(ticks: seq<Tick>, i: nat, j: nat)
    requires InOrder(ticks) && i < j < |Completed(ticks)|
    ensures Completed(ticks)[i].bucket < Completed(ticks)[j].bucket
  {
    var groups := Intervals(ticks).closed;
    SplitIntoGroups(ticks);
    StartsIncrease(ticks);
    CandlesOfAt(groups, i);
    CandlesOfAt(groups, j);
    assert groups[i][0].bucket < groups[j][0].bucket;
  }

  /** A candle read off the ticks of its interval. */
  ghost predicate Reads(c: Candle, group: seq<Tick>)
    requires |group| > 0
  {
    var first, last := group[0], group[|group| - 1];
    && c.open == first.price && c.close == last.price && c.oi == last.oi
    && (forall j :: 0 <= j < |group| ==> group[j].bucket == c.bucket && c.low <= group[j].price <= c.high)
    && c.volume >= 0
    && (forall j :: 0 <= j < |group| ==> group[j].volume - Max(0, first.volume) <= c.volume)
    && (c.volume == 0 || exists j :: 0 <= j < |group| && c.volume == group[j].volume - Max(0, first.volume))
    && (|group| == 1 ==> c.vwap == Round4(first.price))
  }

  lemma OneTickVwap(ticks: seq<Tick>)
    requires |ticks| == 1
    ensures CandleOf(ticks).vwap == Round4(ticks[0].price)
  {
    VwapIsBetweenLowAndHigh(ticks);
  }

  lemma GroupCandleReads(group: seq<Tick>)
    requires IsGroup(group)
    ensures Reads(CandleOf(group), group)
  {
    HighLowAreExtremes(group);
    PeakVolumeIsRunningMaximum(group);
    if |group| == 1 {
      OneTickVwap(group);
    }
  }

  /** Every completed candle is read off the ticks of its interval. */
  lemma CandleReadsItsTicks(ticks: seq<Tick>, i: nat)
    requires i < |Completed(ticks)|
    ensures Reads(Completed(ticks)[i], Intervals(ticks).closed[i])
  {
    SplitIntoGroups(ticks);
    CandlesOfAt(Intervals(ticks).closed, i);
    GroupCandleReads(Intervals(ticks).closed[i]);
  }

  /** One more tick pulls the volume-weighted price toward its own, by the share its added volume has. */
  lemma VwapMovesTowardTick(ticks: seq<Tick>, t: Tick)
    requires |ticks| > 0
    ensures
      && Weight(ticks + [t]) == Weight(ticks) + Max(1, t.volume - PeakVolume(ticks))
      && Value(Vwap(ticks + [t]) - t.price, Weight(ticks + [t])) == Value(Vwap(ticks) - t.price, Weight(ticks))
  {
    OneMoreWeight(ticks, t);
    AverageMoves(Vwap(ticks), Vwap(ticks + [t]), t.price, Weight(ticks), LastWeight(ticks + [t]));
  }

  lemma OneMoreWeight(ticks: seq<Tick>, t: Tick)
    requires |ticks| > 0
    ensures LastWeight(ticks + [t]) == Max(1, t.volume - PeakVolume(ticks))
    ensures Weight(ticks + [t]) == Weight(ticks) + LastWeight(ticks + [t])
    ensures WeightedPrice(ticks + [t]) == WeightedPrice(ticks) + Value(t.price, LastWeight(ticks + [t]))
  {
    assert (ticks + [t])[..|ticks|] == ticks;
  }

  lemma AverageMoves(before: real, after: real, p: real, w: nat, v: nat)
    requires Value(after, w + v) == Value(before, w) + Value(p, v)
    ensures Value(after - p, w + v) == Value(before - p, w)
  {
    ValueOfSum(p, w, v);
    ValueOfDifference(after, p, w + v);
    ValueOfDifference(before, p, w);
  }

  lemma {:induction false} ValueOfDifference(p: real, q: real, n: nat)
    ensures Value(p - q, n) == Value(p, n) - Value(q, n)
  {
    ValueIsProduct(p - q, n);
    ValueIsProduct(p, n);
    ValueIsProduct(q, n);
  }

  /** Readings that rise from tick to tick weigh every unit of added volume once. */
  lemma {:induction false} RisingReadingsWeighVolume(ticks: seq<Tick>)
    requires |ticks| > 0 && ticks[0].volume >= 0
    requires forall i :: 0 < i < |ticks| ==> ticks[i - 1].volume < ticks[i].volume
    ensures PeakVolume(ticks) == ticks[|ticks| - 1].volume
    ensures Weight(ticks) == 1 + ticks[|ticks| - 1].volume - ticks[0].volume
  {
    if |ticks| > 1 {
      RisingReadingsWeighVolume(ticks[..|ticks| - 1]);
    }
  }

  lemma {:induction false} WeightedPriceBounds(ticks: seq<Tick>, low: real, high: real)
    requires |ticks| > 0 && forall i :: 0 <= i < |ticks| ==> low <= ticks[i].price <= high
    ensures Value(low, Weight(ticks)) <= WeightedPrice(ticks) <= Value(high, Weight(ticks))
  {
    var n := |ticks| - 1;
    if n > 0 {
      var w := LastWeight(ticks);
      WeightedPriceBounds(ticks[..n], low, high);
      ValueMonotone(low, ticks[n].price, w);
      ValueMonotone(ticks[n].price, high, w);
      ValueOfSum(low, Weight(ticks[..n]), w);
      ValueOfSum(high, Weight(ticks[..n]), w);
    }
  }

  lemma {:induction false} ValueOfSum(p: real, m: nat, n: nat)
    ensures Value(p, m + n) == Value(p, m) + Value(p, n)
  {
    ValueIsProduct(p, m + n);
    ValueIsProduct(p, m);
    ValueIsProduct(p, n);
  }

  /** The volume-weighted price lies between low and high; rounded, between the rounded low and high. */
  lemma VwapIsBetweenLowAndHigh(ticks: seq<Tick>)
    requires |ticks| > 0
    ensures Lowest(ticks) <= Vwap(ticks) <= Highest(ticks)
    ensures Round4(CandleOf(ticks).low) <= CandleOf(ticks).vwap <= Round4(CandleOf(ticks).high)
  {
    HighLowAreExtremes(ticks);
    WeightedPriceBounds(ticks, Lowest(ticks), Highest(ticks));
    RatioIsBetween(Lowest(ticks), Highest(ticks), WeightedPrice(ticks), Weight(ticks));
    Round4Monotone(Lowest(ticks), Vwap(ticks));
    Round4Monotone(Vwap(ticks), Highest(ticks));
  }

  lemma RatioIsBetween(low: real, high: real, sum: real, weight: nat)
    requires weight > 0 && Value(low, weight) <= sum <= Value(high, weight)
    ensures low <= Ratio(sum, weight) <= high
  {
    var q := Ratio(sum, weight);
    if q < low {
      ProductStrict(q, low, weight);
    }
    if high < q {
      ProductStrict(high, q, weight);
    }
  }

  lemma ProductStrict(a: real, b: real, weight: nat)
    requires weight > 0 && a < b
    ensures Value(a, weight) < Value(b, weight)
  {
    ValueMonotone(a, b, weight - 1);
  }

  // The streaming form: one row for the open interval, updated tick by tick.

  datatype Row = Row(
    bucket: int, open: real, high: real, low: real, close: real, volume: int, oi: int,
    weightedPrice: real, weight: nat, lastVolume: int)

  function RowOf(ticks: seq<Tick>): Row
    requires |ticks| > 0
  {
    Row(ticks[0].bucket, ticks[0].price, Highest(ticks), Lowest(ticks), ticks[|ticks| - 1].price,
        PeakVolume(ticks) - Max(0, ticks[0].volume), ticks[|ticks| - 1].oi,
        WeightedPrice(ticks), Weight(ticks), PeakVolume(ticks))
  }

  /** The row for the first tick of an interval. */
  function FirstRow(t: Tick): Row {
    Row(t.bucket, t.price, t.price, t.price, t.price, 0, t.oi, t.price, 1, Max(0, t.volume))
  }

  /** The row after one more tick of its interval. */
  function NextRow(row: Row, t: Tick): Row {
    var delta := Max(0, t.volume - row.lastVolume);
    var weight := Max(1, delta);
    row.(high := MaxReal(row.high, t.price), low := MinReal(row.low, t.price), close := t.price,
         volume := row.volume + delta, oi := t.oi,
         weightedPrice := row.weightedPrice + Value(t.price, weight), weight := row.weight + weight,
         lastVolume := Max(row.lastVolume, t.volume))
  }

  /** The completed candle of a row. */
  ghost function FinishedRow(row: Row): Candle {
    Candle(row.bucket, row.open, row.high, row.low, row.close, row.volume, row.oi,
           Round4(if row.weight > 0 then Ratio(row.weightedPrice, row.weight) else row.close))
  }

  /** Updating a row tick by tick is the batch definition of the row. */
  lemma NextRowIsBatch(open: seq<Tick>, t: Tick)
    requires |open| > 0
    ensures RowOf(open + [t]) == NextRow(RowOf(open), t)
  {
    assert (open + [t])[..|open|] == open;
  }

  ghost predicate Stamped(interval: int, ticks: seq<Tick>)
    requires interval > 0
  {
    && (forall i :: 0 <= i < |ticks| ==> ticks[i].bucket == Bucket(interval, ticks[i].time))
    && (forall i, j :: 0 <= i < j < |ticks| ==> ticks[i].time <= ticks[j].time)
  }

  lemma StampedIsInOrder(interval: int, ticks: seq<Tick>)
    requires interval > 0 && Stamped(interval, ticks)
    ensures InOrder(ticks)
  {
    forall i, j | 0 <= i < j < |ticks|
      ensures ticks[i].bucket <= ticks[j].bucket
    {
      BucketIsMonotone(interval, ticks[i].time, ticks[j].time);
    }
  }

  /** All intervals of a history, the open one last. */
  function Groups(ticks: seq<Tick>): (g: seq<seq<Tick>>)
    ensures |ticks| > 0 ==> |g| > 0
    ensures forall i :: 0 <= i < |g| ==> |g[i]| > 0
  {
    var s := Intervals(ticks);
    if |ticks| == 0 then [] else s.closed + [s.open]
  }

  /** Every tick of a group carries the start of its own interval. */
  ghost predicate GroupStamped(interval: int, group: seq<Tick>)
    requires interval > 0
  {
    forall i :: 0 <= i < |group| ==> group[i].bucket == Bucket(interval, group[i].time)
  }

  lemma {:induction false} GroupsAreStamped(interval: int, ticks: seq<Tick>)
    requires interval > 0 && Stamped(interval, ticks)
    ensures forall g :: 0 <= g < |Groups(ticks)| ==> GroupStamped(interval, Groups(ticks)[g])
  {
    if |ticks| > 0 {
      var rest := ticks[..|ticks| - 1];
      GroupsAreStamped(interval, rest);
      NextIsStamped(interval, Intervals(rest), Groups(rest), ticks[|ticks| - 1]);
    }
  }

  lemma NextIsStamped(interval: int, s: Split, groups: seq<seq<Tick>>, t: Tick)
    requires interval > 0 && t.bucket == Bucket(interval, t.time)
    requires |s.open| == 0 ==> s.closed == []
    requires |s.open| > 0 ==> groups == s.closed + [s.open]
    requires forall g :: 0 <= g < |groups| ==> GroupStamped(interval, groups[g])
    ensures forall g :: 0 <= g < |Next(s, t).closed| ==> GroupStamped(interval, Next(s, t).closed[g])
    ensures GroupStamped(interval, Next(s, t).open)
  {
    if |s.open| > 0 {
      assert groups[|s.closed|] == s.open;
      assert forall g :: 0 <= g < |s.closed| ==> s.closed[g] == groups[g];
    }
  }

  /** Two accepted ticks share a group exactly when their seconds lie between the same multiples of the interval. */
  lemma TicksShareGroupIff(interval: int, ticks: seq<Tick>, g: nat, i: nat, h: nat, j: nat)
    requires interval > 0 && Stamped(interval, ticks) && g < |Groups(ticks)| && h < |Groups(ticks)|
    requires i < |Groups(ticks)[g]| && j < |Groups(ticks)[h]|
    ensures
      var a, b := Groups(ticks)[g][i].time, Groups(ticks)[h][j].time;
      g == h <==> Seconds(a) / interval == Seconds(b) / interval
  {
    var groups := Groups(ticks);
    GroupsAreStamped(interval, ticks);
    assert GroupStamped(interval, groups[g]) && GroupStamped(interval, groups[h]);
    StampedIsInOrder(interval, ticks);
    StartsIncrease(ticks);
    SplitIntoGroups(ticks);
    assert IsGroup(groups[g]) && IsGroup(groups[h]);
    SameBucketIff(interval, groups[g][i].time, groups[h][j].time);
  }

  /** What the store holds for one stream, beside the history it stands for. */
  datatype Stream = Stream(ticks: seq<Tick>, completed: seq<Candle>, row: Option<Row>, lastTick: Option<int>)

  /** The stored parts are the batch definition applied to the history. */
  ghost predicate StreamOk(interval: int, keep: nat, s: Stream)
    requires interval > 0
  {
    && Stamped(interval, s.ticks)
    && s.row == (if |s.ticks| > 0 then Some(RowOf(Intervals(s.ticks).open)) else None)
    && s.lastTick == (if |s.ticks| > 0 then Some(s.ticks[|s.ticks| - 1].time) else None)
    && s.completed == LastOf(Completed(s.ticks), keep)
  }

  ghost function Extended(s: Stream, t: Tick): Stream
    requires s.row.Some?
  {
    Stream(s.ticks + [t], s.completed, Some(NextRow(s.row.value, t)), Some(t.time))
  }

  /** The candle a tick of a new interval completes. */
  ghost function Finished(s: Stream): Option<Candle> {
    if s.row.Some? then Some(FinishedRow(s.row.value)) else None
  }

  /** The tick adds exactly this candle to the completed ones. */
  ghost predicate Completes(ticks: seq<Tick>, t: Tick, c: Option<Candle>) {
    Completed(ticks + [t]) == Completed(ticks) + (if c.Some? then [c.value] else [])
  }

  ghost function Started(s: Stream, t: Tick, keep: nat): Stream {
    Stream(s.ticks + [t], if s.row.Some? then LastOf(s.completed + [FinishedRow(s.row.value)], keep) else s.completed,
           Some(FirstRow(t)), Some(t.time))
  }

  ghost predicate Follows(interval: int, s: Stream, t: Tick)
    requires interval > 0
  {
    t.bucket == Bucket(interval, t.time) && (s.lastTick.Some? ==> s.lastTick.value <= t.time)
  }

  lemma StampedAppend(interval: int, keep: nat, s: Stream, t: Tick)
    requires interval > 0 && StreamOk(interval, keep, s) && Follows(interval, s, t)
    ensures Stamped(interval, s.ticks + [t])
  {
    if |s.ticks| > 0 {
      var last := s.ticks[|s.ticks| - 1];
      assert forall i :: 0 <= i < |s.ticks| ==> s.ticks[i].time <= last.time;
    }
  }

  /** No in-order tick falls before the open interval, so the second guard never fires. */
  lemma BucketNeverGoesBack(interval: int, keep: nat, s: Stream, t: Tick)
    requires interval > 0 && StreamOk(interval, keep, s) && Follows(interval, s, t) && s.row.Some?
    ensures s.row.value.bucket <= t.bucket
  {
    var open, last := Intervals(s.ticks).open, s.ticks[|s.ticks| - 1];
    SplitIntoGroups(s.ticks);
    BucketIsMonotone(interval, last.time, t.time);
    assert open[|open| - 1] == last;
  }

  /** A tick in the open interval extends the open row and completes nothing. */
  lemma StreamExtends(interval: int, keep: nat, s: Stream, t: Tick)
    requires interval > 0 && StreamOk(interval, keep, s) && Follows(interval, s, t)
    requires s.row.Some? && s.row.value.bucket == t.bucket
    ensures StreamOk(interval, keep, Extended(s, t))
    ensures Completes(s.ticks, t, None)
  {
    StampedAppend(interval, keep, s, t);
    assert (s.ticks + [t])[..|s.ticks|] == s.ticks;
    NextRowIsBatch(Intervals(s.ticks).open, t);
  }

  /** A tick in another interval completes the open one. */
  lemma CompletedGrows(ticks: seq<Tick>, t: Tick)
    requires |ticks| > 0 && Intervals(ticks).open[0].bucket != t.bucket
    ensures Intervals(ticks + [t]).open == [t]
    ensures Completed(ticks + [t]) == Completed(ticks) + [CandleOf(Intervals(ticks).open)]
  {
    var s := Intervals(ticks);
    assert (ticks + [t])[..|ticks|] == ticks;
    assert (s.closed + [s.open])[..|s.closed|] == s.closed;
  }

  lemma StreamStarts(interval: int, keep: nat, s: Stream, t: Tick)
    requires interval > 0 && keep >= 1 && StreamOk(interval, keep, s) && Follows(interval, s, t)
    requires s.row.Some? ==> s.row.value.bucket != t.bucket
    ensures StreamOk(interval, keep, Started(s, t, keep))
    ensures Completes(s.ticks, t, Finished(s))
  {
    if |s.ticks| > 0 {
      StreamRolls(interval, keep, s, t);
    } else {
      StreamOpens(interval, keep, s, t);
    }
  }

  lemma StreamRolls(interval: int, keep: nat, s: Stream, t: Tick)
    requires interval > 0 && keep >= 1 && StreamOk(interval, keep, s) && Follows(interval, s, t)
    requires s.row.Some? && s.row.value.bucket != t.bucket
    ensures StreamOk(interval, keep, Started(s, t, keep))
    ensures Completes(s.ticks, t, Finished(s))
  {
    var c, after := FinishedRow(s.row.value), Started(s, t, keep);
    StampedAppend(interval, keep, s, t);
    GroupCompletes(s.ticks, s.row.value, t);
    KeptGrow(Completed(s.ticks), Completed(after.ticks), s.completed, c, keep);
    StreamOkFrom(interval, keep, after, t);
  }

  /** The finished row of the open group is the candle that a tick of another interval completes. */
  lemma {:induction false} GroupCompletes(ticks: seq<Tick>, row: Row, t: Tick)
    requires |ticks| > 0 && row == RowOf(Intervals(ticks).open) && row.bucket != t.bucket
    ensures Intervals(ticks + [t]).open == [t]
    ensures Completed(ticks + [t]) == Completed(ticks) + [FinishedRow(row)]
  {
    CompletedGrows(ticks, t);
  }

  lemma KeptGrow(before: seq<Candle>, after: seq<Candle>, kept: seq<Candle>, c: Candle, keep: nat)
    requires keep >= 1 && kept == LastOf(before, keep) && after == before + [c]
    ensures LastOf(kept + [c], keep) == LastOf(after, keep)
  {
    LastOfAppend(before, c, keep);
  }

  lemma StreamOpens(interval: int, keep: nat, s: Stream, t: Tick)
    requires interval > 0 && keep >= 1 && StreamOk(interval, keep, s) && Follows(interval, s, t)
    requires |s.ticks| == 0
    ensures StreamOk(interval, keep, Started(s, t, keep))
    ensures Completes(s.ticks, t, Finished(s))
  {
    StampedAppend(interval, keep, s, t);
    FirstTick(t);
    assert s.ticks + [t] == [t];
    StreamOkFrom(interval, keep, Started(s, t, keep), t);
  }

  lemma FirstTick(t: Tick)
    ensures Intervals([t]) == Split([], [t])
  {
    assert [t][..0] == [];
  }

  lemma StreamOkFrom(interval: int, keep: nat, s: Stream, t: Tick)
    requires interval > 0 && Stamped(interval, s.ticks) && |s.ticks| > 0 && s.ticks[|s.ticks| - 1] == t
    requires Intervals(s.ticks).open == [t] && s.row == Some(FirstRow(t)) && s.lastTick == Some(t.time)
    requires s.completed == LastOf(Completed(s.ticks), keep)
    ensures StreamOk(interval, keep, s)
  {
    assert RowOf([t]) == FirstRow(t);
  }

  lemma StaysOk(interval: int, keep: nat, before: Stream, after: Stream)
    requires interval > 0 && before == after && StreamOk(interval, keep, before)
    ensures StreamOk(interval, keep, after)
  {
  }

  datatype TickResult = Accepted(completed: Option<Candle>) | BadPrice | OutOfOrderTick | OutOfOrderBucket

  function TicksOf(accepted: map<string, seq<Tick>>, key: string): seq<Tick> {
    if key in accepted then accepted[key] else []
  }

  /** One more tick of a stream comes after that stream's earlier ones and touches no other. */
  lemma TicksOfOneMore(accepted: map<string, seq<Tick>>, key: string, t: Tick, other: string)
    ensures TicksOf(accepted[key := TicksOf(accepted, key) + [t]], other)
         == TicksOf(accepted, other) + if other == key then [t] else []
  {
  }

  class CompletedCandleStore {
    const interval: int
    const maxCompleted: int
    var completed: map<string, seq<Candle>>
    var building: map<string, Row>
    var lastTick: map<string, int>
    /** History: the ticks accepted since the last clear, stream by stream. */
    ghost var accepted: map<string, seq<Tick>>

    constructor (interval: int, maxCompleted: int)
      requires interval > 0 && maxCompleted >= 2
      ensures Valid() && accepted == map[]
      ensures this.interval == interval && this.maxCompleted == maxCompleted
    {
      this.interval, this.maxCompleted := interval, maxCompleted;
      completed, building, lastTick, accepted := map[], map[], map[], map[];
    }

    ghost function StreamAt(key: string): Stream
      reads this
    {
      Stream(TicksOf(accepted, key),
             if key in completed then completed[key] else [],
             if key in building then Some(building[key]) else None,
             if key in lastTick then Some(lastTick[key]) else None)
    }

    ghost predicate Valid()
      reads this
    {
      && interval > 0 && maxCompleted >= 2
      && forall key :: StreamOk(interval, maxCompleted, StreamAt(key))
    }

    static method CompletedCandle(row: Row) returns (c: Candle)
      ensures c == FinishedRow(row)
    {
      var vwap := row.close;
      if row.weight > 0 {
        RatioIsQuotient(row.weightedPrice, row.weight);
        vwap := row.weightedPrice / row.weight as real;
      }
      vwap := ComputeRound4(vwap);
      c := Candle(row.bucket, row.open, row.high, row.low, row.close, row.volume, row.oi, vwap);
    }

    /** Close the open interval, if there is one, and open the tick's own. */
    method StartInterval(key: string, t: Tick) returns (finished: Option<Candle>)
      requires maxCompleted >= 2
      modifies this
      ensures StreamAt(key) == Started(old(StreamAt(key)), t, maxCompleted)
      ensures finished == Finished(old(StreamAt(key)))
      ensures forall k :: k != key ==> StreamAt(k) == old(StreamAt(k))
      ensures accepted == old(accepted)[key := TicksOf(old(accepted), key) + [t]]
    {
      lastTick := lastTick[key := t.time];
      accepted := accepted[key := TicksOf(accepted, key) + [t]];
      finished := None;
      if key in building {
        var c := CompletedCandle(building[key]);
        finished := Some(c);
        completed := completed[key := LastOf((if key in completed then completed[key] else []) + [c], maxCompleted)];
      }
      building := building[key := FirstRow(t)];
    }

    /** Fold the tick into the open interval. */
    method ExtendInterval(key: string, t: Tick)
      requires key in building
      modifies this`building, this`accepted, this`lastTick
      ensures StreamAt(key) == Extended(old(StreamAt(key)), t)
      ensures forall k :: k != key ==> StreamAt(k) == old(StreamAt(k))
      ensures accepted == old(accepted)[key := TicksOf(old(accepted), key) + [t]]
    {
      lastTick := lastTick[key := t.time];
      accepted := accepted[key := TicksOf(accepted, key) + [t]];
      var row := building[key];
      var delta := Max(0, t.volume - row.lastVolume);
      var weight := Max(1, delta);
      var worth := ComputeValue(t.price, weight);
      building := building[key := row.(
        high := MaxReal(row.high, t.price), low := MinReal(row.low, t.price), close := t.price,
        volume := row.volume + delta, oi := t.oi,
        weightedPrice := row.weightedPrice + worth, weight := row.weight + weight,
        lastVolume := Max(row.lastVolume, t.volume))];
    }

    /** Take an in-order tick into its interval. */
    method Absorb(key: string, t: Tick) returns (finished: Option<Candle>)
      requires Valid() && Follows(interval, StreamAt(key), t)
      modifies this
      ensures Valid()
      ensures accepted == old(accepted)[key := TicksOf(old(accepted), key) + [t]]
      ensures Completes(TicksOf(old(accepted), key), t, finished)
    {
      ghost var s := StreamAt(key);
      assert StreamOk(interval, maxCompleted, s);
      if key !in building || t.bucket > building[key].bucket {
        StreamStarts(interval, maxCompleted, s, t);
        finished := StartInterval(key, t);
      } else {
        BucketNeverGoesBack(interval, maxCompleted, s, t);
        StreamExtends(interval, maxCompleted, s, t);
        ExtendInterval(key, t);
        finished := None;
      }
      forall k | k != key
        ensures StreamOk(interval, maxCompleted, StreamAt(k))
      {
        StaysOk(interval, maxCompleted, old(StreamAt(k)), StreamAt(k));
      }
    }

    method AddTick(key: string, time: int, price: real, volume: int, oi: int) returns (r: TickResult)
      requires Valid()
      modifies this
      ensures Valid()
      ensures r.BadPrice? <==> price <= 0.0
      ensures
        var ticks := TicksOf(old(accepted), key);
        r.OutOfOrderTick? <==> price > 0.0 && |ticks| > 0 && time < ticks[|ticks| - 1].time
      ensures !r.OutOfOrderBucket?
      ensures r.Accepted? ==>
        var t := Tick(time, Bucket(interval, time), price, volume, oi);
        && accepted == old(accepted)[key := TicksOf(old(accepted), key) + [t]]
        && Completes(TicksOf(old(accepted), key), t, r.completed)
      ensures !r.Accepted? ==>
        && accepted == old(accepted) && completed == old(completed)
        && building == old(building) && lastTick == old(lastTick)
    {
      if price <= 0.0 {
        return BadPrice;
      }
      assert StreamOk(interval, maxCompleted, StreamAt(key));
      var t := Tick(time, Bucket(interval, time), price, volume, oi);
      if key in lastTick && time < lastTick[key] {
        return OutOfOrderTick;
      }
      if key in building && t.bucket < building[key].bucket {
        BucketNeverGoesBack(interval, maxCompleted, StreamAt(key), t);
        assert false;
        return OutOfOrderBucket;
      }
      var finished := Absorb(key, t);
      r := Accepted(finished);
    }

    /** The latest completed candles, oldest first. */
    method Latest(key: string, count: int) returns (r: Option<seq<Candle>>)
      requires Valid()
      ensures r.None? <==> count <= 0
      ensures r.Some? ==> r.value == LastOf(Completed(TicksOf(accepted, key)), Min(count, maxCompleted))
    {
      if count <= 0 {
        return None;
      }
      assert StreamOk(interval, maxCompleted, StreamAt(key));
      var rows := if key in completed then completed[key] else [];
      LastOfLastOf(Completed(TicksOf(accepted, key)), maxCompleted, count);
      r := Some(LastOf(rows, count));
    }

    method LatestPair(key: string) returns (r: Option<(Candle, Candle)>)
      requires Valid()
      ensures
        var all := Completed(TicksOf(accepted, key));
        r == if |all| >= 2 then Some((all[|all| - 2], all[|all| - 1])) else None
    {
      var rows := Latest(key, 2);
      r := if |rows.value| == 2 then Some((rows.value[0], rows.value[1])) else None;
    }

    /** Stored candles are in strictly increasing interval order. */
    lemma StoredCandlesIncrease(key: string, i: nat, j: nat)
      requires Valid() && key in completed && i < j < |completed[key]|
      ensures completed[key][i].bucket < completed[key][j].bucket
    {
      var s := StreamAt(key);
      assert StreamOk(interval, maxCompleted, s);
      StampedIsInOrder(interval, s.ticks);
      var drop := |Completed(s.ticks)| - |s.completed|;
      CompletedTimesIncrease(s.ticks, drop + i, drop + j);
    }

    method Clear()
      requires Valid()
      modifies this
      ensures Valid() && accepted == map[]
    {
      completed, building, lastTick, accepted := map[], map[], map[], map[];
    }
  }
}
