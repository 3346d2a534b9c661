/** The append-only capital ledger; stored amounts are whole paise. */
module CapitalLedger {
  import opened Common
  import opened Money

  datatype Account = Paper | Live | OtherAccount

  datatype Kind = Deposit | Withdrawal | TradePnl | AllocationChange | BalanceSync

  /** One ledger row; `at` orders rows in time, `day` is its calendar day. */
  datatype Row = Row(account: Account, kind: Kind, amount: int, note: string, trade: Option<nat>, at: int, day: int)

  datatype Recorded =
    | Written(row: Row)
    | BadAccount | ZeroAmount | NoNote | DifferentAmount | NotAllowed | NegativeTarget

  /** An amount in rupees, rounded to paise. */
  ghost function Paise(rupees: real): int {
    RoundHalfEven(rupees * 100.0)
  }

  method ComputePaise(rupees: real) returns (paise: int)
    ensures paise == Paise(rupees)
  {
    paise := ComputeRoundHalfEven(rupees * 100.0);
  }

  function Rupees(paise: int): real {
    paise as real / 100.0
  }

  lemma PaiseOfRupees(paise: int)
    ensures Paise(Rupees(paise)) == paise
  {
    NearestEvenIsUnique(Rupees(paise) * 100.0, paise);
  }

  /** A deposit or a withdrawal: money that trading did not make. */
  predicate IsCash(row: Row, account: Account) {
    row.account == account && (row.kind.Deposit? || row.kind.Withdrawal?)
  }

  predicate IsPnlOf(row: Row, account: Account, trade: nat) {
    row.account == account && row.kind.TradePnl? && row.trade == Some(trade)
  }

  function CashTotal(rows: seq<Row>, account: Account): int {
    if |rows| == 0 then 0
    else
      var last := rows[|rows| - 1];
      CashTotal(rows[..|rows| - 1], account) + if IsCash(last, account) then last.amount else 0
  }

  /** No trade has two profit-and-loss rows on one account. */
  ghost predicate OneRowPerTrade(rows: seq<Row>) {
    forall i, j, account, trade :: 0 <= i < j < |rows| ==>
      !(IsPnlOf(rows[i], account, trade) && IsPnlOf(rows[j], account, trade))
  }

  ghost predicate HasPnl(rows: seq<Row>, account: Account, trade: nat) {
    exists i :: 0 <= i < |rows| && IsPnlOf(rows[i], account, trade)
  }

  lemma AppendKeepsOneRow(rows: seq<Row>, row: Row)
    requires OneRowPerTrade(rows)
    requires row.kind.TradePnl? && row.trade.Some? ==> !HasPnl(rows, row.account, row.trade.value)
    ensures OneRowPerTrade(rows + [row])
  {
    forall i, j, account, trade | 0 <= i < j < |rows + [row]|
      ensures !(IsPnlOf((rows + [row])[i], account, trade) && IsPnlOf((rows + [row])[j], account, trade))
    {
      if j == |rows| && IsPnlOf(row, account, trade) {
        assert !HasPnl(rows, account, trade);
      }
    }
  }

  lemma CashOfOneMore(rows: seq<Row>, row: Row, account: Account)
    ensures CashTotal(rows + [row], account)
         == CashTotal(rows, account) + if IsCash(row, account) then row.amount else 0
  {
    assert (rows + [row])[..|rows|] == rows;
  }

  /** Only the account's own deposits and withdrawals move its cash, each by its amount. */
  lemma CashMovesIff(rows: seq<Row>, row: Row, account: Account)
    ensures CashTotal([], account) == 0
    ensures CashTotal(rows + [row], account) - CashTotal(rows, account)
         == if row.account == account && row.kind in {Deposit, Withdrawal} then row.amount else 0
  {
    CashOfOneMore(rows, row, account);
  }

  const TRADE_NOTE := "Net P&L for trade"

  /** The row of a closed trade. */
  function TradeRow(account: Account, trade: nat, amount: int, at: int, day: int): Row {
    Row(account, TradePnl, amount, TRADE_NOTE, Some(trade), at, day)
  }

  /** It belongs to that trade on that account and to nothing else. */
  lemma TradeRowIsPnlOf(account: Account, trade: nat, amount: int, at: int, day: int, other: Account, another: nat)
    ensures IsPnlOf(TradeRow(account, trade, amount, at, day), other, another)
      <==> other == account && another == trade
    ensures !IsCash(TradeRow(account, trade, amount, at, day), other)
  {
  }

  class Ledger {
    var rows: seq<Row>

    constructor ()
      ensures rows == []
    {
      rows := [];
    }

    /** Append one row, or refuse and change nothing. */
    method Record(account: Account, kind: Kind, amount: real, note: string, trade: Option<nat>, at: int, day: int)
      returns (r: Recorded)
      modifies this
      ensures
        if account.OtherAccount? then r == BadAccount
        else if Paise(amount) == 0 && !kind.TradePnl? then r == ZeroAmount
        else if note == "" then r == NoNote
        else r == Written(Row(account, kind, Paise(amount), note, trade, at, day))
      ensures rows == if r.Written? then old(rows) + [r.row] else old(rows)
    {
      if account.OtherAccount? {
        return BadAccount;
      }
      var paise := ComputePaise(amount);
      if paise == 0 && !kind.TradePnl? {
        return ZeroAmount;
      }
      if note == "" {
        return NoNote;
      }
      var row := Row(account, kind, paise, note, trade, at, day);
      rows := rows + [row];
      r := Written(row);
    }

    /** Book a closed trade once; asking again with the same amount returns the row already there. */
    method RecordTradePnl(account: Account, trade: nat, net: real, at: int, day: int) returns (r: Recorded)
      modifies this
      ensures !old(HasPnl(rows, account, trade)) ==>
        && r == (if account.OtherAccount? then BadAccount else Written(TradeRow(account, trade, Paise(net), at, day)))
        && rows == if r.Written? then old(rows) + [r.row] else old(rows)
      ensures old(HasPnl(rows, account, trade)) ==> rows == old(rows) && (r.Written? || r.DifferentAmount?)
      ensures r.Written? ==> r.row in rows && IsPnlOf(r.row, account, trade) && r.row.amount == Paise(net)
      ensures r.DifferentAmount? ==>
        exists i :: 0 <= i < |rows| && IsPnlOf(rows[i], account, trade) && rows[i].amount != Paise(net)
      ensures old(OneRowPerTrade(rows)) ==> OneRowPerTrade(rows)
    {
      for i := 0 to |rows|
        invariant forall j :: 0 <= j < i ==> !IsPnlOf(rows[j], account, trade)
      {
        if rows[i].account == account && rows[i].kind.TradePnl? && rows[i].trade == Some(trade) {
          assert IsPnlOf(rows[i], account, trade);
          var expected := ComputePaise(net);
          return if rows[i].amount != expected then DifferentAmount else Written(rows[i]);
        }
      }
      if OneRowPerTrade(rows) {
        AppendKeepsOneRow(rows, TradeRow(account, trade, Paise(net), at, day));
      }
      r := Record(account, TradePnl, net, TRADE_NOTE, Some(trade), at, day);
    }

    method CashAdjustmentTotal(account: Account) returns (total: int)
      ensures total == CashTotal(rows, account)
    {
      total := 0;
      for i := 0 to |rows|
        invariant total == CashTotal(rows[..i], account)
      {
        assert rows[..i + 1] == rows[..i] + [rows[i]];
        CashOfOneMore(rows[..i], rows[i], account);
        if rows[i].account == account && (rows[i].kind.Deposit? || rows[i].kind.Withdrawal?) {
          total := total + rows[i].amount;
        }
      }
      assert rows[..|rows|] == rows;
    }

    /** Deposit or withdraw the difference between the account's equity and the wanted one. */
    method AdjustPaperToTarget(
      current: real, target: real, note: string, running: bool, positionOpen: bool, at: int, day: int)
      returns (r: Recorded)
      modifies this
      ensures
        var difference := Paise(target) - Paise(current);
        if running || positionOpen then r == NotAllowed
        else if Paise(target) < 0 then r == NegativeTarget
        else if difference == 0 then r == ZeroAmount
        else if note == "" then r == NoNote
        else r == Written(Row(Paper, if difference > 0 then Deposit else Withdrawal, difference, note, None, at, day))
      ensures rows == if r.Written? then old(rows) + [r.row] else old(rows)
      ensures CashTotal(rows, Paper) == old(CashTotal(rows, Paper)) + if r.Written? then r.row.amount else 0
    {
      if running || positionOpen {
        return NotAllowed;
      }
      var have := ComputePaise(current);
      var want := ComputePaise(target);
      if want < 0 {
        return NegativeTarget;
      }
      var difference := want - have;
      var kind := if difference > 0 then Deposit else Withdrawal;
      PaiseOfRupees(difference);
      r := Record(Paper, kind, Rupees(difference), note, None, at, day);
      if r.Written? {
        CashOfOneMore(old(rows), r.row, Paper);
      }
    }
  }
}
