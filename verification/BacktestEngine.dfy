/** Replaying days of bars: at most one trade at a time, and books that balance. */
module BacktestEngine {
  import opened Common
  import opened Money
  import opened Trading
  import opened SimulatedFill
  import opened ExitManagers

  /** What one minute shows: bars by strike and leg, and the clock's gates. */
  datatype Minute = Minute(
    hasAtm: bool, bars: map<(int, Leg), Bar>, closing: bool, preclose: bool, mayEnter: bool, sideways: bool)

  /** What the strategy decides in one minute: any plan to enter, to cut, or to rotate into. */
  datatype Choice = Choice(entry: Option<Plan>, cut: bool, rotate: Option<Plan>)

  datatype Signal = EntrySignal(plan: Plan) | ExitSignal(reason: ExitReason) | CutSignal | RotationSignal(plan: Plan)

  datatype Config = Config(capital: real, lossPct: real, limits: Limits)

  function BarOf(m: Minute, strike: int, leg: Leg): Option<Bar> {
    if (strike, leg) in m.bars then Some(m.bars[(strike, leg)]) else None
  }

  /** Sum of the net results of trades. */
  ghost function NetSum(trades: seq<TradeView>): real {
    if |trades| == 0 then 0.0 else NetSum(trades[..|trades| - 1]) + trades[|trades| - 1].NetPnl()
  }

  ghost function SumOf(xs: seq<real>): real {
    if |xs| == 0 then 0.0 else SumOf(xs[..|xs| - 1]) + xs[|xs| - 1]
  }

  /** The engine's books: trades closed so far, the open one, and the running total. */
  datatype Book = Book(closed: seq<TradeView>, open: Option<TradeView>, realized: real)

  ghost predicate Balanced(b: Book) {
    && (forall i :: 0 <= i < |b.closed| ==> b.closed[i].phase.Closed?)
    && (b.open.Some? ==> !b.open.value.phase.Closed?)
    && b.realized == NetSum(b.closed)
    && WholePaise(b.realized)
  }

  /** The open trade closes as `v`, its net result added to the total. */
  ghost function Closing(b: Book, v: TradeView): Book {
    Book(b.closed + [v], None, Round2(b.realized + v.NetPnl()))
  }

  lemma RoundedSum(total: real, net: real)
    requires WholePaise(total) && WholePaise(net)
    ensures Round2(total + net) == total + net && WholePaise(total + net)
  {
    WholePaiseSum(total, net);
    Round2FixedIffWholePaise(total + net);
  }

  lemma NetIsWholePaise(v: TradeView)
    ensures WholePaise(v.NetPnl())
  {
    Round2IsWholePaise(v.CombinedPnl() - v.Costs());
  }

  lemma NetSumAppend(closed: seq<TradeView>, v: TradeView)
    ensures NetSum(closed + [v]) == NetSum(closed) + v.NetPnl()
  {
    assert (closed + [v])[..|closed|] == closed;
  }

  /** Closing keeps the books balanced, and adds the same amount to them as to any other whole-paise total. */
  lemma ClosingBalances(b: Book, v: TradeView, session: real)
    requires Balanced(b) && v.phase.Closed? && WholePaise(session)
    ensures Balanced(Closing(b, v))
    ensures Closing(b, v).realized - b.realized == Round2(session + v.NetPnl()) - session
    ensures WholePaise(Round2(session + v.NetPnl()))
  {
    NetIsWholePaise(v);
    RoundedSum(b.realized, v.NetPnl());
    RoundedSum(session, v.NetPnl());
    NetSumAppend(b.closed, v);
  }

  ghost function Equity(config: Config, realized: real): real {
    MaxReal(0.0, Round2(config.capital + realized))
  }

  function RawLossLimit(config: Config, equity: real): real {
    MaxReal(0.0, equity) * config.lossPct
  }

  ghost function LossLimit(config: Config, equity: real): real {
    Round2(RawLossLimit(config, equity))
  }

  ghost function Opening(id: nat, plan: Plan, ce: Bar, pe: Bar, config: Config, session: real): TradeView {
    Entered(id, plan, ce, pe, Equity(config, session), LossLimit(config, Equity(config, session)))
  }

  /** How the open trade is sold: both legs in the first phase, the winner afterwards. */
  ghost function Sold(v: TradeView, ce: Bar, pe: Bar, reason: ExitReason): TradeView
    requires v.phase.BothLegs? ==> CanExit(v, reason)
  {
    if v.phase.BothLegs? then ExitFilled(v, ce, pe, reason)
    else v.SingleLegExit(if v.winner.CE? then ce.close else pe.close, reason)
  }

  /** One trading day's books. */
  class DaySession {
    var realized: real

    constructor ()
      ensures realized == 0.0
    {
      realized := 0.0;
    }

    method CloseTrade(trade: Trade)
      modifies this
      ensures realized == Round2(old(realized) + trade.View().NetPnl())
    {
      var net := trade.NetPnl();
      realized := ComputeRound2(realized + net);
    }
  }

  ghost function Views(trades: seq<Trade>): (v: seq<TradeView>)
    reads trades
    ensures |v| == |trades|
  {
    if |trades| == 0 then [] else Views(trades[..|trades| - 1]) + [trades[|trades| - 1].View()]
  }

  lemma ViewsAppend(trades: seq<Trade>, last: Trade)
    ensures Views(trades + [last]) == Views(trades) + [last.View()]
  {
    assert (trades + [last])[..|trades|] == trades;
  }

  // One minute as a function of the books.

  /** The books together with the day's own total and the next free identity. */
  datatype Books = Books(book: Book, session: real, nextId: nat)

  ghost function EntryDone(b: Books, plan: Plan, m: Minute, config: Config): Books {
    var ce, pe := BarOf(m, plan.ceStrike, CE), BarOf(m, plan.peStrike, PE);
    if ce.Some? && pe.Some? && Fills(plan, ce.value, pe.value) then
      b.(book := b.book.(open := Some(Opening(b.nextId, plan, ce.value, pe.value, config, b.session))),
         nextId := b.nextId + 1)
    else b
  }

  ghost predicate CanClose(v: TradeView, reason: ExitReason, m: Minute) {
    && BarOf(m, v.ceStrike, CE).Some? && BarOf(m, v.peStrike, PE).Some?
    && (v.phase.BothLegs? ==> CanExit(v, reason))
  }

  /** The open trade has been sold as `w`: the total and the day both take its net result. */
  ghost function Settled(b: Books, w: TradeView): Books {
    b.(book := Closing(b.book, w), session := Round2(b.session + w.NetPnl()))
  }

  ghost function CloseDone(b: Books, reason: ExitReason, m: Minute): Books
    requires b.book.open.Some?
  {
    var v := b.book.open.value;
    if CanClose(v, reason, m) then
      Settled(b, Sold(v, BarOf(m, v.ceStrike, CE).value, BarOf(m, v.peStrike, PE).value, reason))
    else b
  }

  ghost function CutDone(b: Books, m: Minute): Books
    requires b.book.open.Some?
  {
    var v := b.book.open.value;
    var ce, pe := BarOf(m, v.ceStrike, CE), BarOf(m, v.peStrike, PE);
    if v.phase.BothLegs? && ce.Some? && pe.Some? then
      b.(book := b.book.(open := Some(v.HedgeCut(if v.winner.CE? then pe.value.close else ce.value.close))))
    else b
  }

  predicate HasOpen(book: Book) {
    book.open.Some? && book.open.value.IsOpen()
  }

  /** What handling one signal does; a rotation that closes may still fail to enter. */
  ghost function Handled(b: Books, s: Signal, m: Minute, config: Config): Books {
    match s
    case EntrySignal(plan) => EntryDone(b, plan, m, config)
    case ExitSignal(reason) => if HasOpen(b.book) then CloseDone(b, reason, m) else b
    case CutSignal => if b.book.open.Some? then CutDone(b, m) else b
    case RotationSignal(plan) =>
      if !HasOpen(b.book) then b
      else
        var closed := CloseDone(b, RotationExit, m);
        if closed.book.open.None? then EntryDone(closed, plan, m, config) else closed
  }

  /** The running total and the day's total move by the same amount. */
  ghost predicate InStep(b: Books, c: Books) {
    c.book.realized - b.book.realized == c.session - b.session
  }

  ghost predicate Sound(b: Books) {
    Balanced(b.book) && WholePaise(b.session)
  }

  lemma CloseIsSound(b: Books, reason: ExitReason, m: Minute)
    requires Sound(b) && b.book.open.Some?
    ensures Sound(CloseDone(b, reason, m)) && InStep(b, CloseDone(b, reason, m))
  {
    var v := b.book.open.value;
    if CanClose(v, reason, m) {
      var w := Sold(v, BarOf(m, v.ceStrike, CE).value, BarOf(m, v.peStrike, PE).value, reason);
      ClosingBalances(b.book, w, b.session);
    }
  }

  /** Every signal keeps the books balanced and the day in step, rotations that lose their replacement included. */
  lemma SignalKeepsBooks(b: Books, s: Signal, m: Minute, config: Config)
    requires Sound(b) && (s.EntrySignal? ==> b.book.open.None?)
    ensures Sound(Handled(b, s, m, config)) && InStep(b, Handled(b, s, m, config))
  {
    if b.book.open.Some? {
      match s
      case ExitSignal(reason) => CloseIsSound(b, reason, m);
      case RotationSignal(_) => CloseIsSound(b, RotationExit, m);
      case _ =>
    }
  }

  ghost function PriceOf(v: TradeView, m: Minute, leg: Leg): real {
    var ce, pe := BarOf(m, v.ceStrike, CE), BarOf(m, v.peStrike, PE);
    if ce.Some? && pe.Some? then (if leg.CE? then ce.value.close else pe.value.close) else v.Current(leg)
  }

  ghost function LookOf(v: TradeView, m: Minute): Look {
    Look(PriceOf(v, m, CE), PriceOf(v, m, PE), 50.0, m.preclose)
  }

  function RotationOf(c: Choice): Option<Signal> {
    if c.rotate.Some? then Some(RotationSignal(c.rotate.value)) else None
  }

  datatype Decision = Decision(trade: TradeView, signal: Option<Signal>)

  /** What one minute asks for when a trade is open, and what looking at it leaves on the trade. */
  ghost function Decided(v: TradeView, m: Minute, c: Choice, limits: Limits): Decision {
    if m.closing then Decision(v, Some(ExitSignal(EodSquareOff)))
    else if v.phase.BothLegs? then
      var k := Check(v, LookOf(v, m), limits);
      if k.reason.Some? then Decision(k.trade, Some(ExitSignal(k.reason.value)))
      else if v.regime.Directional? && c.cut then Decision(k.trade, Some(CutSignal))
      else Decision(k.trade, RotationOf(c))
    else if v.phase.SingleLeg? then
      var k := SingleCheck(v, LookOf(v, m), limits);
      if k.reason.Some? then Decision(k.trade, Some(ExitSignal(k.reason.value)))
      else Decision(k.trade, if m.sideways then RotationOf(c) else None)
    else Decision(v, None)
  }

  lemma LookingKeepsPhase(v: TradeView, m: Minute, c: Choice, limits: Limits)
    ensures Decided(v, m, c, limits).trade.phase == v.phase
  {
  }

  /** What one minute asks for: an entry only when nothing is open. */
  ghost function Asked(book: Book, m: Minute, c: Choice, limits: Limits): Option<Signal> {
    if HasOpen(book) then Decided(book.open.value, m, c, limits).signal
    else if m.mayEnter && c.entry.Some? then Some(EntrySignal(c.entry.value))
    else None
  }

  ghost function Looked(book: Book, m: Minute, c: Choice, limits: Limits): Book {
    if HasOpen(book) then book.(open := Some(Decided(book.open.value, m, c, limits).trade)) else book
  }

  /** One minute: look, then handle the one signal there may be. */
  ghost function MinuteDone(b: Books, m: Minute, c: Choice, config: Config): Books {
    if !m.hasAtm then b
    else
      var looked := b.(book := Looked(b.book, m, c, config.limits));
      match Asked(b.book, m, c, config.limits)
      case None => looked
      case Some(s) => Handled(looked, s, m, config)
  }

  /** A minute of any market and any choices keeps the books sound and the day in step. */
  lemma MinuteKeepsBooks(b: Books, m: Minute, c: Choice, config: Config)
    requires Sound(b)
    ensures Sound(MinuteDone(b, m, c, config)) && InStep(b, MinuteDone(b, m, c, config))
  {
    if m.hasAtm {
      var looked := b.(book := Looked(b.book, m, c, config.limits));
      if b.book.open.Some? {
        LookingKeepsPhase(b.book.open.value, m, c, config.limits);
      }
      assert Sound(looked);
      var asked := Asked(b.book, m, c, config.limits);
      if asked.Some? {
        AskedEntryNeedsNoTrade(b.book, m, c, config.limits);
        SignalKeepsBooks(looked, asked.value, m, config);
      }
    }
  }

  lemma AskedEntryNeedsNoTrade(book: Book, m: Minute, c: Choice, limits: Limits)
    requires book.open.Some? ==> book.open.value.IsOpen()
    ensures Asked(book, m, c, limits).Some? && Asked(book, m, c, limits).value.EntrySignal? ==> book.open.None?
  {
  }

  datatype Step = Step(minute: Minute, choice: Choice)

  ghost function DayDone(b: Books, steps: seq<Step>, config: Config): Books {
    if |steps| == 0 then b
    else
      var last := steps[|steps| - 1];
      MinuteDone(DayDone(b, steps[..|steps| - 1], config), last.minute, last.choice, config)
  }

  lemma DayOfOneMore(b: Books, steps: seq<Step>, i: nat, config: Config)
    requires i < |steps|
    ensures DayDone(b, steps[..i + 1], config)
         == MinuteDone(DayDone(b, steps[..i], config), steps[i].minute, steps[i].choice, config)
  {
    assert steps[..i + 1][..i] == steps[..i];
  }

  lemma {:induction false} DayKeepsBooks(b: Books, steps: seq<Step>, config: Config)
    requires Sound(b)
    ensures Sound(DayDone(b, steps, config)) && InStep(b, DayDone(b, steps, config))
  {
    if |steps| > 0 {
      var n := |steps| - 1;
      DayKeepsBooks(b, steps[..n], config);
      MinuteKeepsBooks(DayDone(b, steps[..n], config), steps[n].minute, steps[n].choice, config);
    }
  }

  /** A whole replay: the books, the next identity, and every day's own result. */
  datatype Replay = Replay(book: Book, nextId: nat, days: seq<real>)

  ghost function RunDone(nextId: nat, days: seq<seq<Step>>, config: Config): Replay {
    if |days| == 0 then Replay(Book([], None, 0.0), nextId, [])
    else NextReplay(RunDone(nextId, days[..|days| - 1], config), days[|days| - 1], config)
  }

  /** One more day, starting at a day's total of nothing. */
  ghost function NextReplay(before: Replay, steps: seq<Step>, config: Config): Replay {
    var day := DayDone(Books(before.book, 0.0, before.nextId), steps, config);
    Replay(day.book, day.nextId, before.days + [day.session])
  }

  /** For any days and any choices: all trades but at most one are closed, and the realized total is both the
      sum of the closed trades' net results and the sum of the days' results. */
  lemma {:induction false} ReplayBalances(nextId: nat, days: seq<seq<Step>>, config: Config)
    ensures Balanced(RunDone(nextId, days, config).book)
    ensures RunDone(nextId, days, config).book.realized == SumOf(RunDone(nextId, days, config).days)
    ensures |RunDone(nextId, days, config).days| == |days|
  {
    assert IsPaise(0.0, 0);
    if |days| > 0 {
      var n := |days| - 1;
      var before := RunDone(nextId, days[..n], config);
      ReplayBalances(nextId, days[..n], config);
      var start := Books(before.book, 0.0, before.nextId);
      DayKeepsBooks(start, days[n], config);
      SumAppend(before.days, DayDone(start, days[n], config).session);
    }
  }

  // Every trade of a replay follows the life of a trade.

  ghost predicate Lawful(v: TradeView) {
    PhaseFixesUnits(v) && Booked(v)
  }

  ghost predicate LawfulBook(b: Book) {
    && (forall i :: 0 <= i < |b.closed| ==> b.closed[i].phase.Closed? && Lawful(b.closed[i]))
    && (b.open.Some? ==> b.open.value.IsOpen() && Lawful(b.open.value))
  }

  lemma OpeningIsLawful(id: nat, plan: Plan, ce: Bar, pe: Bar, config: Config, session: real)
    ensures Lawful(Opening(id, plan, ce, pe, config, session))
  {
  }

  lemma SoldIsLawful(v: TradeView, ce: Bar, pe: Bar, reason: ExitReason)
    requires Lawful(v) && v.IsOpen() && (v.phase.BothLegs? ==> CanExit(v, reason))
    ensures Sold(v, ce, pe, reason).phase.Closed? && Lawful(Sold(v, ce, pe, reason))
  {
  }

  lemma CutIsLawful(v: TradeView, price: real)
    requires Lawful(v) && v.phase.BothLegs?
    ensures v.HedgeCut(price).IsOpen() && Lawful(v.HedgeCut(price))
  {
  }

  lemma ActingIsLawful(v: TradeView, f: Figures, limits: Limits)
    requires Lawful(v)
    ensures Lawful(Act(v, f, limits).trade) && Lawful(SingleAct(v, f, limits).trade)
  {
  }

  lemma LookingIsLawful(v: TradeView, m: Minute, c: Choice, limits: Limits)
    requires Lawful(v)
    ensures Lawful(Decided(v, m, c, limits).trade)
  {
    var look := LookOf(v, m);
    var quoted := v.Quoted(look.ce, look.pe);
    assert Lawful(quoted);
    if v.phase.BothLegs? {
      ActingIsLawful(quoted, FiguresAt(v, look, limits), limits);
    } else if v.phase.SingleLeg? {
      ActingIsLawful(quoted, SingleFiguresAt(v, look, limits), limits);
    }
  }

  lemma CloseKeepsLaw(b: Books, reason: ExitReason, m: Minute)
    requires LawfulBook(b.book) && b.book.open.Some?
    ensures LawfulBook(CloseDone(b, reason, m).book)
  {
    var v := b.book.open.value;
    if CanClose(v, reason, m) {
      SoldIsLawful(v, BarOf(m, v.ceStrike, CE).value, BarOf(m, v.peStrike, PE).value, reason);
    }
  }

  lemma EntryKeepsLaw(b: Books, plan: Plan, m: Minute, config: Config)
    requires LawfulBook(b.book)
    ensures LawfulBook(EntryDone(b, plan, m, config).book)
  {
    var ce, pe := BarOf(m, plan.ceStrike, CE), BarOf(m, plan.peStrike, PE);
    if ce.Some? && pe.Some? {
      OpeningIsLawful(b.nextId, plan, ce.value, pe.value, config, b.session);
    }
  }

  lemma CutKeepsLaw(b: Books, m: Minute)
    requires LawfulBook(b.book) && b.book.open.Some?
    ensures LawfulBook(CutDone(b, m).book)
  {
    var v := b.book.open.value;
    var ce, pe := BarOf(m, v.ceStrike, CE), BarOf(m, v.peStrike, PE);
    if v.phase.BothLegs? && ce.Some? && pe.Some? {
      CutIsLawful(v, if v.winner.CE? then pe.value.close else ce.value.close);
    }
  }

  lemma SignalKeepsLaw(b: Books, s: Signal, m: Minute, config: Config)
    requires LawfulBook(b.book)
    ensures LawfulBook(Handled(b, s, m, config).book)
  {
    match s
    case EntrySignal(plan) => EntryKeepsLaw(b, plan, m, config);
    case ExitSignal(reason) =>
      if b.book.open.Some? {
        CloseKeepsLaw(b, reason, m);
      }
    case CutSignal =>
      if b.book.open.Some? {
        CutKeepsLaw(b, m);
      }
    case RotationSignal(plan) =>
      if b.book.open.Some? {
        CloseKeepsLaw(b, RotationExit, m);
        EntryKeepsLaw(CloseDone(b, RotationExit, m), plan, m, config);
      }
  }

  lemma MinuteKeepsLaw(b: Books, m: Minute, c: Choice, config: Config)
    requires LawfulBook(b.book)
    ensures LawfulBook(MinuteDone(b, m, c, config).book)
  {
    if m.hasAtm {
      var looked := b.(book := Looked(b.book, m, c, config.limits));
      if b.book.open.Some? {
        LookingKeepsPhase(b.book.open.value, m, c, config.limits);
        LookingIsLawful(b.book.open.value, m, c, config.limits);
      }
      assert LawfulBook(looked.book);
      var asked := Asked(b.book, m, c, config.limits);
      if asked.Some? {
        SignalKeepsLaw(looked, asked.value, m, config);
      }
    }
  }

  lemma {:induction false} DayKeepsLaw(b: Books, steps: seq<Step>, config: Config)
    requires LawfulBook(b.book)
    ensures LawfulBook(DayDone(b, steps, config).book)
  {
    if |steps| > 0 {
      var n := |steps| - 1;
      DayKeepsLaw(b, steps[..n], config);
      MinuteKeepsLaw(DayDone(b, steps[..n], config), steps[n].minute, steps[n].choice, config);
    }
  }

  lemma {:induction false} ReplayKeepsLaw(nextId: nat, days: seq<seq<Step>>, config: Config)
    ensures LawfulBook(RunDone(nextId, days, config).book)
  {
    if |days| > 0 {
      var n := |days| - 1;
      var before := RunDone(nextId, days[..n], config);
      ReplayKeepsLaw(nextId, days[..n], config);
      DayKeepsLaw(Books(before.book, 0.0, before.nextId), days[n], config);
    }
  }

  /** However a replayed trade was cut, exited, targeted or rotated out: its gross is what its legs made, give or
      take a paisa, and exactly that at whole-paise prices. */
  lemma ReplayGrossIsLegSum(nextId: nat, days: seq<seq<Step>>, config: Config, i: nat)
    ensures i < |RunDone(nextId, days, config).book.closed| ==>
      var w := RunDone(nextId, days, config).book.closed[i];
      && w.exitCe.Some? && w.exitPe.Some?
      && -0.01 <= w.CombinedPnl() - Round2(ExactGross(w)) <= 0.01
      && (PaisePrices(w) && WholePaise(w.exitCe.value) && WholePaise(w.exitPe.value)
          ==> w.CombinedPnl() == ExactGross(w))
  {
    ReplayKeepsLaw(nextId, days, config);
    if i < |RunDone(nextId, days, config).book.closed| {
      GrossOfClosed(RunDone(nextId, days, config).book.closed[i]);
    }
  }

  lemma DayStartsSound(b: Books)
    requires Balanced(b.book) && b.session == 0.0
    ensures Sound(b)
  {
    assert IsPaise(0.0, 0);
  }

  lemma RunOfOneMore(nextId: nat, days: seq<seq<Step>>, i: nat, config: Config)
    requires i < |days|
    ensures RunDone(nextId, days[..i + 1], config) == NextReplay(RunDone(nextId, days[..i], config), days[i], config)
  {
    assert days[..i + 1][..i] == days[..i];
  }

  lemma SumAppend(xs: seq<real>, x: real)
    ensures SumOf(xs + [x]) == SumOf(xs) + x
  {
    assert (xs + [x])[..|xs|] == xs;
  }

  class Engine {
    const config: Config
    var trades: seq<Trade>
    var active: Trade?
    var realized: real
    var queue: seq<Signal>
    var nextId: nat
    /** History: the result of each day replayed so far. */
    ghost var days: seq<real>

    constructor (config: Config)
      ensures Valid() && queue == [] && Now() == Book([], None, 0.0)
    {
      this.config := config;
      trades, active, realized, queue, nextId, days := [], null, 0.0, [], 0, [];
    }

    /** All trades but the active one. */
    ghost function Past(): seq<Trade>
      reads this`active, this`trades
    {
      if active == null || |trades| == 0 then trades else trades[..|trades| - 1]
    }

    ghost function Now(): Book
      reads this`active, this`trades, this`realized, trades, active
    {
      Book(Views(Past()), if active != null then Some(active.View()) else None, realized)
    }

    /** The active trade, if any, is the last one, and no other. */
    ghost predicate Valid()
      reads this`active, this`trades
    {
      active != null ==> |trades| > 0 && trades[|trades| - 1] == active && active !in Past()
    }

    ghost function BooksNow(session: DaySession): Books
      reads this`active, this`trades, this`realized, this`nextId, trades, active, session
    {
      Books(Now(), session.realized, nextId)
    }

    method EntryEquity(session: DaySession) returns (equity: real)
      ensures equity == Equity(config, session.realized)
    {
      var sum := ComputeRound2(config.capital + session.realized);
      equity := MaxReal(0.0, sum);
    }

    method PerTradeLossLimit(equity: real) returns (stop: real)
      ensures stop == LossLimit(config, equity)
    {
      stop := ComputeRound2(RawLossLimit(config, equity));
    }

    /** Take on a freshly filled trade. */
    method Adopt(trade: Trade)
      requires Valid() && active == null && trade !in trades
      modifies this`active, this`trades, this`nextId
      ensures Valid() && nextId == old(nextId) + 1 && active == trade
      ensures Now() == old(Now()).(open := Some(trade.View()))
    {
      ghost var before := trades;
      active := trade;
      trades := trades + [trade];
      nextId := nextId + 1;
      assert Past() == before;
      assert Views(before) == old(Views(trades));
    }

    /** Fill an entry, or leave everything as it was. */
    method Enter(plan: Plan, m: Minute, session: DaySession)
      requires Valid() && active == null
      modifies this`active, this`trades, this`nextId
      ensures Valid() && (active == null || fresh(active))
      ensures BooksNow(session) == EntryDone(old(BooksNow(session)), plan, m, config)
    {
      var equity := EntryEquity(session);
      var stop := PerTradeLossLimit(equity);
      var ce, pe := BarOf(m, plan.ceStrike, CE), BarOf(m, plan.peStrike, PE);
      if ce.Some? && pe.Some? {
        var trade := FillEntry(nextId, plan, ce.value, pe.value, equity, stop);
        if trade != null {
          Adopt(trade);
        }
      }
    }

    /** Sell the active trade and add its result to the day and to the total; without bars nothing happens. */
    method CloseActive(reason: ExitReason, m: Minute, session: DaySession)
      requires Valid() && active != null
      modifies this`active, this`realized, active, session
      ensures Valid() && (active == old(active) || active == null)
      ensures BooksNow(session) == CloseDone(old(BooksNow(session)), reason, m)
    {
      ghost var b, v := BooksNow(session), active.View();
      var trade := active;
      var ce, pe := BarOf(m, trade.ceStrike, CE), BarOf(m, trade.peStrike, PE);
      if ce.None? || pe.None? {
        return;
      }
      if trade.phase.BothLegs? {
        var ok := FillExitBoth(trade, ce.value, pe.value, reason);
        if !ok {
          return;
        }
      } else {
        FillSingleLegExit(trade, ce.value, pe.value, reason);
      }
      ghost var w := trade.View();
      assert w == Sold(v, ce.value, pe.value, reason);
      assert Views(Past()) == b.book.closed;
      Settle(session, b, w);
    }

    /** Add the active trade's net result to the day and to the total, and let go of it. */
    method Settle(session: DaySession, ghost b: Books, ghost w: TradeView)
      requires Valid() && active != null && active.View() == w
      requires Views(Past()) == b.book.closed && realized == b.book.realized
      requires session.realized == b.session && nextId == b.nextId
      modifies this`active, this`realized, session
      ensures Valid() && active == null
      ensures BooksNow(session) == Settled(b, w)
    {
      ViewsOfAll();
      AddResult(session, w);
      active := null;
    }

    method AddResult(session: DaySession, ghost w: TradeView)
      requires active != null && active.View() == w
      modifies this`realized, session
      ensures session.realized == Round2(old(session.realized) + w.NetPnl())
      ensures realized == Round2(old(realized) + w.NetPnl())
    {
      session.CloseTrade(active);
      var net := active.NetPnl();
      realized := ComputeRound2(realized + net);
    }

    lemma ViewsOfAll()
      requires active != null && |trades| > 0 && trades[|trades| - 1] == active
      ensures Views(trades) == Views(Past()) + [active.View()]
    {
      ViewsAppend(Past(), active);
      InitAndLast(trades);
    }

    method Cut(m: Minute, session: DaySession)
      requires Valid() && active != null
      modifies active
      ensures BooksNow(session) == CutDone(old(BooksNow(session)), m)
    {
      ghost var b := BooksNow(session);
      if active.phase.BothLegs? {
        var ce, pe := BarOf(m, active.ceStrike, CE), BarOf(m, active.peStrike, PE);
        if ce.Some? && pe.Some? {
          FillHedgeCut(active, ce.value, pe.value);
          assert Views(Past()) == b.book.closed;
        }
      }
    }

    /** Close, then enter at once; when the entry fails the engine stays flat. */
    method Rotate(plan: Plan, m: Minute, session: DaySession)
      requires Valid() && active != null && active.View().IsOpen()
      modifies this`active, this`trades, this`realized, this`nextId, active, session
      ensures Valid() && (active == old(active) || active == null || fresh(active))
      ensures BooksNow(session) == Handled(old(BooksNow(session)), RotationSignal(plan), m, config)
    {
      CloseActive(RotationExit, m, session);
      if active == null {
        Enter(plan, m, session);
      }
    }

    method HandleSignal(s: Signal, m: Minute, session: DaySession)
      requires Valid() && (s.EntrySignal? ==> active == null)
      modifies this`active, this`trades, this`realized, this`nextId, active, session
      ensures Valid() && (active == old(active) || active == null || fresh(active))
      ensures BooksNow(session) == Handled(old(BooksNow(session)), s, m, config)
    {
      match s
      case EntrySignal(plan) =>
        Enter(plan, m, session);
      case ExitSignal(reason) =>
        if active != null && !active.phase.Closed? {
          CloseActive(reason, m, session);
        }
      case CutSignal =>
        if active != null {
          Cut(m, session);
        }
      case RotationSignal(plan) =>
        if active != null && !active.phase.Closed? {
          Rotate(plan, m, session);
        }
    }

    method ProcessPending(m: Minute, session: DaySession)
      requires Valid()
      requires |queue| <= 1 && (queue != [] && queue[0].EntrySignal? ==> active == null)
      modifies this`active, this`trades, this`realized, this`nextId, this`queue, active, session
      ensures Valid() && queue == [] && (active == old(active) || active == null || fresh(active))
      ensures BooksNow(session) ==
        if old(queue) == [] then old(BooksNow(session))
        else Handled(old(BooksNow(session)), old(queue)[0], m, config)
    {
      while |queue| > 0
        invariant Valid()
        invariant queue == old(queue) || queue == []
        invariant queue == old(queue) ==> BooksNow(session) == old(BooksNow(session)) && active == old(active)
        invariant active == old(active) || active == null || fresh(active)
        invariant queue == [] && old(queue) != [] ==>
          BooksNow(session) == Handled(old(BooksNow(session)), old(queue)[0], m, config)
        decreases |queue|
      {
        var s := queue[0];
        queue := queue[1..];
        HandleSignal(s, m, session);
      }
    }

    method DecideOnTrade(trade: Trade, m: Minute, c: Choice) returns (signal: Option<Signal>)
      modifies trade
      ensures Decision(trade.View(), signal) == Decided(old(trade.View()), m, c, config.limits)
    {
      if m.closing {
        return Some(ExitSignal(EodSquareOff));
      }
      var ce, pe := BarOf(m, trade.ceStrike, CE), BarOf(m, trade.peStrike, PE);
      var look := Look(trade.ceCurrent, trade.peCurrent, 50.0, m.preclose);
      if ce.Some? && pe.Some? {
        look := Look(ce.value.close, pe.value.close, 50.0, m.preclose);
      }
      signal := None;
      if trade.phase.BothLegs? {
        var reason := CheckExits(trade, look, config.limits);
        if reason.Some? {
          signal := Some(ExitSignal(reason.value));
        } else if trade.regime.Directional? && c.cut {
          signal := Some(CutSignal);
        } else {
          signal := RotationOf(c);
        }
      } else if trade.phase.SingleLeg? {
        var reason := CheckSingleLegExit(trade, look, config.limits);
        if reason.Some? {
          signal := Some(ExitSignal(reason.value));
        } else if m.sideways {
          signal := RotationOf(c);
        }
      }
    }

    /** Look at the open trade and queue at most one signal. */
    method Decide(m: Minute, c: Choice)
      requires Valid() && queue == []
      modifies this`queue, active
      ensures |queue| <= 1
      ensures Now() == Looked(old(Now()), m, c, config.limits)
      ensures queue == match Asked(old(Now()), m, c, config.limits) case None => [] case Some(s) => [s]
    {
      ghost var b := Now();
      if active != null && !active.phase.Closed? {
        var signal := DecideOnTrade(active, m, c);
        assert Views(Past()) == b.closed;
        if signal.Some? {
          queue := queue + [signal.value];
        }
      } else if m.mayEnter && c.entry.Some? {
        queue := queue + [EntrySignal(c.entry.value)];
      }
    }

    method RunMinute(m: Minute, c: Choice, session: DaySession)
      requires Valid() && queue == [] && Sound(BooksNow(session))
      modifies this`active, this`trades, this`realized, this`nextId, this`queue, active, session
      ensures Valid() && queue == []
      ensures active == old(active) || active == null || fresh(active)
      ensures BooksNow(session) == MinuteDone(old(BooksNow(session)), m, c, config)
    {
      if !m.hasAtm {
        return;
      }
      AskedEntryNeedsNoTrade(Now(), m, c, config.limits);
      Decide(m, c);
      ProcessPending(m, session);
    }

    method StartDay(ghost b: Books) returns (session: DaySession)
      requires b == Books(Now(), 0.0, nextId)
      ensures fresh(session) && BooksNow(session) == b
    {
      session := new DaySession();
      assert Now() == b.book;
    }

    method RunDay(steps: seq<Step>, ghost b: Books) returns (session: DaySession)
      requires Valid() && queue == [] && Sound(b) && b == Books(Now(), 0.0, nextId)
      modifies this`active, this`trades, this`realized, this`nextId, this`queue, active
      ensures Valid() && queue == [] && fresh(session)
      ensures active == old(active) || active == null || fresh(active)
      ensures BooksNow(session) == DayDone(b, steps, config)
    {
      session := StartDay(b);
      RunSteps(steps, session, b);
    }

    method RunSteps(steps: seq<Step>, session: DaySession, ghost b: Books)
      requires Valid() && queue == [] && Sound(b) && BooksNow(session) == b
      modifies this`active, this`trades, this`realized, this`nextId, this`queue, active, session
      ensures Valid() && queue == []
      ensures active == old(active) || active == null || fresh(active)
      ensures BooksNow(session) == DayDone(b, steps, config)
    {
      assert steps[..0] == [];
      for i := 0 to |steps|
        invariant Valid() && queue == []
        invariant active == old(active) || active == null || fresh(active)
        invariant BooksNow(session) == DayDone(b, steps[..i], config)
      {
        RunNext(steps, i, session, b);
      }
      assert steps[..|steps|] == steps;
    }

    method RunNext(steps: seq<Step>, i: nat, session: DaySession, ghost b: Books)
      requires Valid() && queue == [] && i < |steps| && Sound(b)
      requires BooksNow(session) == DayDone(b, steps[..i], config)
      modifies this`active, this`trades, this`realized, this`nextId, this`queue, active, session
      ensures Valid() && queue == []
      ensures active == old(active) || active == null || fresh(active)
      ensures BooksNow(session) == DayDone(b, steps[..i + 1], config)
    {
      DayKeepsBooks(b, steps[..i], config);
      DayOfOneMore(b, steps, i, config);
      RunMinute(steps[i].minute, steps[i].choice, session);
    }

    method RunNextDay(steps: seq<Step>, ghost before: Replay)
      requires Valid() && queue == [] && Balanced(before.book) && Replay(Now(), nextId, days) == before
      modifies this, active
      ensures Valid() && queue == [] && (active == old(active) || active == null || fresh(active))
      ensures Replay(Now(), nextId, days) == NextReplay(before, steps, config)
    {
      ghost var b := Books(before.book, 0.0, before.nextId);
      DayStartsSound(b);
      var session := RunDay(steps, b);
      days := days + [session.realized];
    }

    method Run(input: seq<seq<Step>>) returns (all: seq<Trade>)
      requires queue == []
      modifies this
      ensures Valid() && all == trades && queue == []
      ensures Replay(Now(), nextId, days) == RunDone(old(nextId), input, config)
      ensures Balanced(Now()) && realized == SumOf(days)
    {
      trades, realized, active, days := [], 0.0, null, [];
      assert input[..0] == [];
      for i := 0 to |input|
        invariant Valid() && queue == [] && (active == null || fresh(active))
        invariant Replay(Now(), nextId, days) == RunDone(old(nextId), input[..i], config)
      {
        ReplayBalances(old(nextId), input[..i], config);
        RunOfOneMore(old(nextId), input, i, config);
        RunNextDay(input[i], RunDone(old(nextId), input[..i], config));
      }
      assert input[..|input|] == input;
      ReplayBalances(old(nextId), input, config);
      all := trades;
    }
  }
}
