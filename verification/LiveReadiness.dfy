/** Whether the paper record is good enough to go live. */
module LiveReadiness {
  import opened Common
  import opened Money
  import opened CapitalLedger

  /** The rows that count: profit and loss of paper trades. */
  predicate Counts(row: Row) {
    row.account.Paper? && row.kind.TradePnl?
  }

  function Counted(rows: seq<Row>): seq<Row> {
    if |rows| == 0 then []
    else
      var last := rows[|rows| - 1];
      Counted(rows[..|rows| - 1]) + if Counts(last) then [last] else []
  }

  /** Put a row after all rows that are not later. */
  function Insert(sorted: seq<Row>, row: Row): (s: seq<Row>)
    ensures |s| == |sorted| + 1 && multiset(s) == multiset(sorted) + multiset{row}
  {
    if |sorted| == 0 || sorted[|sorted| - 1].at <= row.at then sorted + [row]
    else
      var n := |sorted| - 1;
      assert sorted == sorted[..n] + [sorted[n]];
      Insert(sorted[..n], row) + [sorted[n]]
  }

  /** In time order; rows of the same moment stay in ledger order. */
  function ByTime(rows: seq<Row>): (s: seq<Row>)
    ensures |s| == |rows| && multiset(s) == multiset(rows)
  {
    if |rows| == 0 then []
    else
      var n := |rows| - 1;
      assert rows == rows[..n] + [rows[n]];
      Insert(ByTime(rows[..n]), rows[n])
  }

  ghost predicate InTime(rows: seq<Row>) {
    forall i, j :: 0 <= i < j < |rows| ==> rows[i].at <= rows[j].at
  }

  ghost predicate NoneAfter(rows: seq<Row>, at: int) {
    forall i :: 0 <= i < |rows| ==> rows[i].at <= at
  }

  lemma {:induction false} InsertKeepsBound(sorted: seq<Row>, row: Row, at: int)
    requires NoneAfter(sorted, at) && row.at <= at
    ensures NoneAfter(Insert(sorted, row), at)
  {
    if |sorted| > 0 {
      InsertKeepsBound(sorted[..|sorted| - 1], row, at);
    }
  }

  lemma {:induction false} InsertKeepsTime(sorted: seq<Row>, row: Row)
    requires InTime(sorted)
    ensures InTime(Insert(sorted, row))
  {
    if |sorted| > 0 && sorted[|sorted| - 1].at > row.at {
      var n := |sorted| - 1;
      InsertKeepsTime(sorted[..n], row);
      InsertKeepsBound(sorted[..n], row, sorted[n].at);
    }
  }

  lemma {:induction false} ByTimeIsInTime(rows: seq<Row>)
    ensures InTime(ByTime(rows))
  {
    if |rows| > 0 {
      ByTimeIsInTime(rows[..|rows| - 1]);
      InsertKeepsTime(ByTime(rows[..|rows| - 1]), rows[|rows| - 1]);
    }
  }

  function Amounts(rows: seq<Row>): (a: seq<int>)
    ensures |a| == |rows| && forall i :: 0 <= i < |a| ==> a[i] == rows[i].amount
  {
    seq(|rows|, i requires 0 <= i < |rows| => rows[i].amount)
  }

  /** The trading record: amounts in time order. */
  function Record(rows: seq<Row>): seq<int> {
    Amounts(ByTime(Counted(rows)))
  }

  /** The sum of the first n amounts. */
  function Prefix(a: seq<int>, n: nat): int
    requires n <= |a|
  {
    if n == 0 then 0 else Prefix(a, n - 1) + a[n - 1]
  }

  // Drawdown by definition: the deepest fall from an earlier total to a later one.

  ghost predicate BoundsFalls(a: seq<int>, n: nat, d: int)
    requires n <= |a|
  {
    forall i, j :: 0 <= i <= j <= n ==> Prefix(a, i) - Prefix(a, j) <= d
  }

  ghost predicate IsFall(a: seq<int>, n: nat, d: int)
    requires n <= |a|
  {
    exists i, j :: 0 <= i <= j <= n && Prefix(a, i) - Prefix(a, j) == d
  }

  ghost predicate IsDrawdown(a: seq<int>, d: int) {
    BoundsFalls(a, |a|, d) && IsFall(a, |a|, d)
  }

  lemma DrawdownIsUnique(a: seq<int>, d: int, e: int)
    requires IsDrawdown(a, d) && IsDrawdown(a, e)
    ensures d == e
  {
    var i, j :| 0 <= i <= j <= |a| && Prefix(a, i) - Prefix(a, j) == d;
    var k, l :| 0 <= k <= l <= |a| && Prefix(a, k) - Prefix(a, l) == e;
    assert Prefix(a, i) - Prefix(a, j) <= e && Prefix(a, k) - Prefix(a, l) <= d;
  }

  ghost predicate IsPeak(a: seq<int>, n: nat, peak: int)
    requires n <= |a|
  {
    && (forall i :: 0 <= i <= n ==> Prefix(a, i) <= peak)
    && (exists i :: 0 <= i <= n && Prefix(a, i) == peak)
  }

  /** What the pass knows after n amounts. */
  ghost predicate Walked(a: seq<int>, n: nat, total: int, peak: int, drawdown: int)
    requires n <= |a|
  {
    total == Prefix(a, n) && IsPeak(a, n, peak) && BoundsFalls(a, n, drawdown) && IsFall(a, n, drawdown)
  }

  /** One pass: the running total, its highest value so far, and the deepest fall from that. */
  method MaxDrawdown(a: seq<int>) returns (drawdown: int, total: int)
    ensures IsDrawdown(a, drawdown) && total == Prefix(a, |a|)
  {
    total := 0;
    var peak := 0;
    drawdown := 0;
    StartOfWalk(a);
    for n := 0 to |a|
      invariant Walked(a, n, total, peak, drawdown)
    {
      StepOfWalk(a, n, total, peak, drawdown);
      total := total + a[n];
      peak := Max(peak, total);
      drawdown := Max(drawdown, peak - total);
    }
  }

  lemma StartOfWalk(a: seq<int>)
    ensures Walked(a, 0, 0, 0, 0)
  {
    assert Prefix(a, 0) - Prefix(a, 0) == 0;
  }

  lemma StepOfWalk(a: seq<int>, n: nat, total: int, peak: int, drawdown: int)
    requires n < |a| && Walked(a, n, total, peak, drawdown)
    ensures
      var total' := total + a[n];
      var peak' := Max(peak, total');
      Walked(a, n + 1, total', peak', Max(drawdown, peak' - total'))
  {
    var total' := total + a[n];
    var peak' := Max(peak, total');
    StepPeak(a, n, peak);
    StepBound(a, n, peak', drawdown);
    StepFall(a, n, peak', drawdown);
  }

  lemma StepPeak(a: seq<int>, n: nat, peak: int)
    requires n < |a| && IsPeak(a, n, peak)
    ensures IsPeak(a, n + 1, Max(peak, Prefix(a, n + 1)))
  {
    var i :| 0 <= i <= n && Prefix(a, i) == peak;
    var after := Max(peak, Prefix(a, n + 1));
    if after == peak {
      assert Prefix(a, i) == after;
    } else {
      assert Prefix(a, n + 1) == after;
    }
  }

  lemma StepBound(a: seq<int>, n: nat, peak: int, drawdown: int)
    requires n < |a| && IsPeak(a, n + 1, peak) && BoundsFalls(a, n, drawdown)
    ensures BoundsFalls(a, n + 1, Max(drawdown, peak - Prefix(a, n + 1)))
  {
    forall i, j | 0 <= i <= j <= n + 1
      ensures Prefix(a, i) - Prefix(a, j) <= Max(drawdown, peak - Prefix(a, n + 1))
    {
      if j <= n {
        assert Prefix(a, i) - Prefix(a, j) <= drawdown;
      } else {
        assert Prefix(a, i) <= peak;
      }
    }
  }

  lemma StepFall(a: seq<int>, n: nat, peak: int, drawdown: int)
    requires n < |a| && IsPeak(a, n + 1, peak) && IsFall(a, n, drawdown)
    ensures IsFall(a, n + 1, Max(drawdown, peak - Prefix(a, n + 1)))
  {
    var after := Max(drawdown, peak - Prefix(a, n + 1));
    if after == drawdown {
      var i, j :| 0 <= i <= j <= n && Prefix(a, i) - Prefix(a, j) == drawdown;
      assert Prefix(a, i) - Prefix(a, j) == after;
    } else {
      var k :| 0 <= k <= n + 1 && Prefix(a, k) == peak;
      assert Prefix(a, k) - Prefix(a, n + 1) == after;
    }
  }

  /** Rows of other kinds or accounts, wherever they stand, leave the record alone. */
  lemma {:induction false} OtherRowsDoNotCount(before: seq<Row>, row: Row, after: seq<Row>)
    requires !Counts(row)
    ensures Record(before + [row] + after) == Record(before + after)
  {
    CountedSum(before + [row], after);
    CountedSum(before, after);
    assert (before + [row])[..|before|] == before;
    assert Counted(before) + [] == Counted(before);
  }

  lemma {:induction false} CountedSum(a: seq<Row>, b: seq<Row>)
    ensures Counted(a + b) == Counted(a) + Counted(b)
  {
    if |b| == 0 {
      assert a + b == a;
    } else {
      var n := |b| - 1;
      CountedSum(a, b[..n]);
      assert (a + b)[..|a| + n] == a + b[..n];
    }
  }

  /** A paper result counts as one amount; any other row counts as nothing. */
  lemma {:induction false} CountedOfOneMore(rows: seq<Row>, row: Row)
    ensures Counted(rows + [row]) ==
      if row.account == Paper && row.kind == TradePnl then Counted(rows) + [row] else Counted(rows)
  {
    assert (rows + [row])[..|rows|] == rows;
  }

  /** The rows of one moment. */
  function Moment(rows: seq<Row>, at: int): seq<Row> {
    if |rows| == 0 then []
    else
      var last := rows[|rows| - 1];
      Moment(rows[..|rows| - 1], at) + AtMoment(last, at)
  }

  lemma {:induction false} MomentOfPush(rows: seq<Row>, row: Row, at: int)
    ensures Moment(rows + [row], at) == Moment(rows, at) + AtMoment(row, at)
  {
    assert (rows + [row])[..|rows|] == rows;
  }

  lemma {:induction false} InsertKeepsMoments(sorted: seq<Row>, row: Row, at: int)
    ensures Moment(Insert(sorted, row), at) == Moment(sorted, at) + AtMoment(row, at)
  {
    if |sorted| == 0 || sorted[|sorted| - 1].at <= row.at {
      MomentOfPush(sorted, row, at);
    } else {
      var n := |sorted| - 1;
      InsertKeepsMoments(sorted[..n], row, at);
      MomentOfPush(Insert(sorted[..n], row), sorted[n], at);
      InOneMoment(Moment(sorted[..n], at), row, sorted[n], at);
    }
  }

  function AtMoment(row: Row, at: int): seq<Row> {
    if row.at == at then [row] else []
  }

  lemma InOneMoment(rows: seq<Row>, row: Row, later: Row, at: int)
    requires row.at < later.at
    ensures rows + AtMoment(row, at) + AtMoment(later, at) == rows + AtMoment(later, at) + AtMoment(row, at)
  {
    assert AtMoment(row, at) == [] || AtMoment(later, at) == [];
  }

  /** Results of the same moment stay in the order they were booked in. */
  lemma {:induction false} ByTimeKeepsMoments(rows: seq<Row>, at: int)
    ensures Moment(ByTime(rows), at) == Moment(rows, at)
  {
    if |rows| > 0 {
      var n := |rows| - 1;
      ByTimeKeepsMoments(rows[..n], at);
      InsertKeepsMoments(ByTime(rows[..n]), rows[n], at);
    }
  }

  datatype Report = Report(
    ready: bool, closedTrades: nat, tradingDays: nat, net: int, drawdown: int, enoughTrades: bool, enoughDays: bool,
    profitable: bool, factorOk: bool, drawdownOk: bool)

  datatype Limits = Limits(minTrades: int, minDays: int, minFactor: real, drawdownPct: real)

  function Days(rows: seq<Row>): set<int> {
    set r | r in rows :: r.day
  }

  function Gains(a: seq<int>): nat {
    if |a| == 0 then 0 else Gains(a[..|a| - 1]) + Max(0, a[|a| - 1])
  }

  function Losses(a: seq<int>): nat {
    if |a| == 0 then 0 else Losses(a[..|a| - 1]) + Max(0, -a[|a| - 1])
  }

  /** Profits over losses reach the wanted factor; with no losses any profit does. */
  predicate FactorReached(gains: nat, losses: nat, least: real) {
    if losses > 0 then gains as real / losses as real >= least
    else gains > 0 || 0.0 >= least
  }

  lemma {:induction false} GainsLessLosses(a: seq<int>)
    ensures Prefix(a, |a|) == Gains(a) - Losses(a)
  {
    if |a| > 0 {
      GainsLessLosses(a[..|a| - 1]);
      PrefixOfInit(a, |a| - 1, |a| - 1);
    }
  }

  /** The amounts regardless of sign. */
  function Moved(a: seq<int>): nat {
    if |a| == 0 then 0
    else
      var last := a[|a| - 1];
      Moved(a[..|a| - 1]) + if last < 0 then -last else last
  }

  /** Every amount is a gain or a loss in full. */
  lemma {:induction false} GainsAndLosses(a: seq<int>)
    ensures Gains(a) + Losses(a) == Moved(a)
  {
    if |a| > 0 {
      GainsAndLosses(a[..|a| - 1]);
    }
  }

  /** The factor is reached when the profits are that many times the losses. */
  lemma FactorReachedIff(gains: nat, losses: nat, least: real)
    ensures FactorReached(gains, losses, least) <==>
      gains as real >= least * losses as real && (losses > 0 || gains > 0 || least <= 0.0)
  {
    if losses > 0 {
      var q, l := gains as real / losses as real, losses as real;
      assert q * l == gains as real;
      OrderOfProducts(q, least, l);
    }
  }

  lemma OrderOfProducts(p: real, q: real, l: real)
    requires l > 0.0
    ensures p >= q <==> p * l >= q * l
  {
    var d := p - q;
    assert d * l == p * l - q * l;
    if d >= 0.0 {
      assert d * l >= 0.0;
    } else {
      assert d * l < 0.0;
    }
  }

  lemma {:induction false} PrefixOfInit(a: seq<int>, n: nat, m: nat)
    requires m <= n <= |a|
    ensures Prefix(a[..n], m) == Prefix(a, m)
  {
    if m > 0 {
      PrefixOfInit(a, n, m - 1);
    }
  }

  method EvaluateLiveReadiness(rows: seq<Row>, allocation: real, limits: Limits) returns (r: Option<Report>)
    ensures r.None? <==> allocation <= 0.0
    ensures r.Some? ==>
      var a := Record(rows);
      && r.value.closedTrades == |a| && r.value.tradingDays == |Days(Counted(rows))|
      && r.value.net == Prefix(a, |a|) && IsDrawdown(a, r.value.drawdown)
      && (r.value.enoughTrades <==> |a| >= limits.minTrades)
      && (r.value.enoughDays <==> r.value.tradingDays >= limits.minDays)
      && (r.value.profitable <==> r.value.net > 0)
      && (r.value.factorOk <==> FactorReached(Gains(a), Losses(a), limits.minFactor))
      && (r.value.drawdownOk <==> Rupees(r.value.drawdown) <= allocation * limits.drawdownPct)
      && (r.value.ready <==>
           r.value.enoughTrades && r.value.enoughDays && r.value.profitable && r.value.factorOk && r.value.drawdownOk)
  {
    if allocation <= 0.0 {
      return None;
    }
    var counted := Counted(rows);
    var a := Record(rows);
    var drawdown, net := MaxDrawdown(a);
    var days := |Days(counted)|;
    var enoughTrades, enoughDays := |a| >= limits.minTrades, days >= limits.minDays;
    var factorOk := FactorReached(Gains(a), Losses(a), limits.minFactor);
    var drawdownOk := Rupees(drawdown) <= allocation * limits.drawdownPct;
    var ready := enoughTrades && enoughDays && net > 0 && factorOk && drawdownOk;
    r := Some(Report(ready, |a|, days, net, drawdown, enoughTrades, enoughDays, net > 0, factorOk, drawdownOk));
  }
}
