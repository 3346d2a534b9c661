/** The paper account's view of the trade store and the ledger. */
module PaperAccount {
  import opened Common
  import opened Money
  import opened CapitalLedger

  datatype StoredMode = StoredPaper | StoredUnknown | StoredOther

  /** A persisted trade with its net result in paise. */
  datatype StoredTrade = StoredTrade(id: nat, mode: StoredMode, open: bool, net: int)

  /** A closed paper trade, or one from before modes were recorded. */
  predicate Represents(t: StoredTrade) {
    !t.mode.StoredOther? && !t.open
  }

  function Represented(trades: seq<StoredTrade>): set<nat> {
    set t | t in trades && Represents(t) :: t.id
  }

  function StoredNet(trades: seq<StoredTrade>): int {
    if |trades| == 0 then 0
    else
      var last := trades[|trades| - 1];
      StoredNet(trades[..|trades| - 1]) + if Represents(last) then last.net else 0
  }

  /** A paper trade's row that the store does not already account for. */
  predicate IsOrphan(row: Row, represented: set<nat>) {
    row.account.Paper? && row.kind.TradePnl? && !(row.trade.Some? && row.trade.value in represented)
  }

  function OrphanNet(rows: seq<Row>, represented: set<nat>): int {
    if |rows| == 0 then 0
    else
      var last := rows[|rows| - 1];
      OrphanNet(rows[..|rows| - 1], represented) + if IsOrphan(last, represented) then last.amount else 0
  }

  /** Realized profit and loss from both sources. */
  function DurableLifetime(trades: seq<StoredTrade>, rows: seq<Row>): int {
    StoredNet(trades) + OrphanNet(rows, Represented(trades))
  }

  // Each closed trade counts once.

  lemma {:induction false} RepresentedOfOneMore(trades: seq<StoredTrade>, t: StoredTrade)
    ensures Represented(trades + [t]) == Represented(trades) + if Represents(t) then {t.id} else {}
  {
  }

  lemma StoredOfOneMore(trades: seq<StoredTrade>, t: StoredTrade)
    ensures StoredNet(trades + [t]) == StoredNet(trades) + if Represents(t) then t.net else 0
  {
    assert (trades + [t])[..|trades|] == trades;
  }

  lemma OrphansOfOneMore(rows: seq<Row>, row: Row, represented: set<nat>)
    ensures OrphanNet(rows + [row], represented)
         == OrphanNet(rows, represented) + if IsOrphan(row, represented) then row.amount else 0
  {
    assert (rows + [row])[..|rows|] == rows;
  }

  /** A ledger row for a trade the store already holds changes nothing. */
  lemma LedgerRowOfStoredTrade(trades: seq<StoredTrade>, rows: seq<Row>, row: Row)
    requires row.trade.Some? && row.trade.value in Represented(trades)
    ensures DurableLifetime(trades, rows + [row]) == DurableLifetime(trades, rows)
  {
    OrphansOfOneMore(rows, row, Represented(trades));
  }

  /** What the ledger says about one trade on the paper account. */
  function LedgerNet(rows: seq<Row>, trade: nat): int {
    if |rows| == 0 then 0
    else
      var last := rows[|rows| - 1];
      LedgerNet(rows[..|rows| - 1], trade) + if IsPnlOf(last, Paper, trade) then last.amount else 0
  }

  /** Once the store represents a trade, exactly that trade's ledger rows stop counting. */
  lemma {:induction false} OrphansWithout(rows: seq<Row>, represented: set<nat>, trade: nat)
    requires trade !in represented
    ensures OrphanNet(rows, represented + {trade}) == OrphanNet(rows, represented) - LedgerNet(rows, trade)
  {
    if |rows| > 0 {
      OrphansWithout(rows[..|rows| - 1], represented, trade);
    }
  }

  /** Storing a trade the ledger already booked with the same result changes nothing. */
  lemma StoringBookedTrade(trades: seq<StoredTrade>, rows: seq<Row>, t: StoredTrade)
    requires Represents(t) && t.id !in Represented(trades) && LedgerNet(rows, t.id) == t.net
    ensures DurableLifetime(trades + [t], rows) == DurableLifetime(trades, rows)
  {
    RepresentedOfOneMore(trades, t);
    StoredOfOneMore(trades, t);
    OrphansWithout(rows, Represented(trades), t.id);
  }

  /** With one row for each trade, what the ledger says about a booked trade is that row's amount. */
  lemma {:induction false} LedgerNetIsTheRow(rows: seq<Row>, trade: nat, i: nat)
    requires OneRowPerTrade(rows) && i < |rows| && IsPnlOf(rows[i], Paper, trade)
    ensures LedgerNet(rows, trade) == rows[i].amount
  {
    var n := |rows| - 1;
    if i < n {
      LedgerNetIsTheRow(rows[..n], trade, i);
      assert !IsPnlOf(rows[n], Paper, trade);
    } else {
      LedgerNetOfNone(rows[..n], trade);
    }
  }

  lemma {:induction false} LedgerNetOfNone(rows: seq<Row>, trade: nat)
    requires forall j :: 0 <= j < |rows| ==> !IsPnlOf(rows[j], Paper, trade)
    ensures LedgerNet(rows, trade) == 0
  {
    if |rows| > 0 {
      LedgerNetOfNone(rows[..|rows| - 1], trade);
    }
  }

  /** A stored trade counts with its result when it is closed and not of another mode, and is nothing otherwise. */
  lemma StoredTradeCountsIff(trades: seq<StoredTrade>, t: StoredTrade)
    ensures
      var counts := !t.open && t.mode in {StoredPaper, StoredUnknown};
      && StoredNet(trades + [t]) == StoredNet(trades) + (if counts then t.net else 0)
      && (t.id in Represented(trades + [t]) <==> counts || t.id in Represented(trades))
  {
    StoredOfOneMore(trades, t);
    RepresentedOfOneMore(trades, t);
  }

  /** A new row counts when it is a paper result of no stored trade, or of no trade at all. */
  lemma NewRowCountsIff(trades: seq<StoredTrade>, rows: seq<Row>, row: Row)
    ensures DurableLifetime([], []) == 0
    ensures
      var counts := row.account == Paper && row.kind == TradePnl
        && (row.trade == None || row.trade.value !in Represented(trades));
      DurableLifetime(trades, rows + [row]) == DurableLifetime(trades, rows) + if counts then row.amount else 0
  {
    OrphansOfOneMore(rows, row, Represented(trades));
  }

  /** Closing a new trade adds its result once, whichever of the ledger row and the stored trade is written,
      and whichever is written first. */
  lemma ClosedTradeCountsOnce(trades: seq<StoredTrade>, rows: seq<Row>, t: StoredTrade, row: Row)
    requires Represents(t) && t.id !in Represented(trades)
    requires IsPnlOf(row, Paper, t.id) && row.amount == t.net
    requires forall j :: 0 <= j < |rows| ==> !IsPnlOf(rows[j], Paper, t.id)
    ensures DurableLifetime(trades, rows + [row]) == DurableLifetime(trades, rows) + t.net
    ensures DurableLifetime(trades + [t], rows) == DurableLifetime(trades, rows) + t.net
    ensures DurableLifetime(trades + [t], rows + [row]) == DurableLifetime(trades, rows) + t.net
  {
    LedgerNetOfNone(rows, t.id);
    OrphansOfOneMore(rows, row, Represented(trades));
    RepresentedOfOneMore(trades, t);
    StoredOfOneMore(trades, t);
    OrphansWithout(rows, Represented(trades), t.id);
    LedgerRowOfStoredTrade(trades + [t], rows, row);
  }

  // The snapshot.

  /** Equity before it is cut off at zero: capital, the more careful of the two realized totals, and cash moves. */
  function RawEquity(capital: int, recovered: int, trades: seq<StoredTrade>, rows: seq<Row>): int {
    capital + Min(recovered, DurableLifetime(trades, rows)) + CashTotal(rows, Paper)
  }

  function AvailableEquity(capital: int, recovered: int, trades: seq<StoredTrade>, rows: seq<Row>): int {
    Max(0, RawEquity(capital, recovered, trades, rows))
  }

  method ComputeDurableLifetime(trades: seq<StoredTrade>, rows: seq<Row>) returns (realized: int)
    ensures realized == DurableLifetime(trades, rows)
  {
    realized := 0;
    for i := 0 to |trades|
      invariant realized == StoredNet(trades[..i])
    {
      assert trades[..i + 1] == trades[..i] + [trades[i]];
      StoredOfOneMore(trades[..i], trades[i]);
      if !trades[i].mode.StoredOther? && !trades[i].open {
        realized := realized + trades[i].net;
      }
    }
    assert trades[..|trades|] == trades;
    var represented := Represented(trades);
    for i := 0 to |rows|
      invariant realized == StoredNet(trades) + OrphanNet(rows[..i], represented)
    {
      assert rows[..i + 1] == rows[..i] + [rows[i]];
      OrphansOfOneMore(rows[..i], rows[i], represented);
      if rows[i].account.Paper? && rows[i].kind.TradePnl?
        && !(rows[i].trade.Some? && rows[i].trade.value in represented) {
        realized := realized + rows[i].amount;
      }
    }
    assert rows[..|rows|] == rows;
  }

  method Snapshot(capital: int, recovered: int, trades: seq<StoredTrade>, ledger: Ledger)
    returns (available: int, lifetime: int, adjustments: int)
    ensures lifetime == Min(recovered, DurableLifetime(trades, ledger.rows))
    ensures adjustments == CashTotal(ledger.rows, Paper)
    ensures available == Max(0, capital + lifetime + adjustments)
    ensures available == AvailableEquity(capital, recovered, trades, ledger.rows)
  {
    var durable := ComputeDurableLifetime(trades, ledger.rows);
    lifetime := Min(recovered, durable);
    adjustments := ledger.CashAdjustmentTotal(Paper);
    available := Max(0, capital + lifetime + adjustments);
  }

  /** Adjusting the account from its own equity to a target reaches that target exactly when the equity had not
      been cut off at zero. */
  lemma AdjustmentReachesTarget(
    capital: int, recovered: int, trades: seq<StoredTrade>, rows: seq<Row>, target: int, row: Row)
    requires target >= 0 && IsCash(row, Paper)
    requires row.amount == target - AvailableEquity(capital, recovered, trades, rows) != 0
    ensures AvailableEquity(capital, recovered, trades, rows + [row]) == target
      <==> RawEquity(capital, recovered, trades, rows) >= 0
  {
    CashOfOneMore(rows, row, Paper);
    OrphansOfOneMore(rows, row, Represented(trades));
  }

  /** The same through the ledger's own operation. */
  method AdjustTo(
    capital: int, recovered: int, trades: seq<StoredTrade>, ledger: Ledger, target: int, note: string,
    at: int, day: int)
    returns (r: Recorded, after: int)
    modifies ledger
    ensures
      var equity := old(AvailableEquity(capital, recovered, trades, ledger.rows));
      if target < 0 then r == NegativeTarget
      else if target == equity then r == ZeroAmount
      else if note == "" then r == NoNote
      else r.Written? && r.row.amount == target - equity
    ensures !r.Written? ==> ledger.rows == old(ledger.rows)
    ensures r.Written? && old(RawEquity(capital, recovered, trades, ledger.rows)) >= 0 ==> after == target
    ensures r.Written? && old(RawEquity(capital, recovered, trades, ledger.rows)) < 0 ==> after < target
  {
    var current, lifetime, adjustments := Snapshot(capital, recovered, trades, ledger);
    ghost var before := ledger.rows;
    PaiseOfRupees(current);
    PaiseOfRupees(target);
    r := ledger.AdjustPaperToTarget(Rupees(current), Rupees(target), note, false, false, at, day);
    if r.Written? {
      AdjustmentReachesTarget(capital, recovered, trades, before, target, r.row);
      CashOfOneMore(before, r.row, Paper);
      OrphansOfOneMore(before, r.row, Represented(trades));
    }
    after, lifetime, adjustments := Snapshot(capital, recovered, trades, ledger);
  }
}
