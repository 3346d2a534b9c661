/** One index's scan: generate, filter, measure, gate, rank, explain, size, validate. */
module IndexScanner {
  import opened Common
  import opened Money
  import opened PairTemplates
  import opened Trading
  import opened EntrySignal
  import opened PositionSizer
  import opened PairRanker
  import opened ScanDiagnostics
  import opened ExecutionValidator

  datatype Measured = Measured(ceVelocity: real, peVelocity: real, divergence: real, winner: Leg)

  /** How the universe is built, and what the candles measured for each pair. */
  datatype Setup = Setup(
    depth: int, includeAtm: bool, research: bool, emergencySpread: real, lossPct: real, moves: map<Pair, Measured>)

  datatype Funnel = Funnel(generated: int, quotable: int, signal: int, economic: int, final: int)

  /** A row of the scan's table: a ranked pair, or the validator's refusal of the winner. */
  datatype ShownRow = RankedRow(rank: int, row: Row) | ValidationFailed(pair: Pair, why: Why)

  datatype ScanResult = ScanResult(
    opportunity: Option<EntryPlan>, blocked: Option<Why>, rows: seq<ShownRow>, funnel: Funnel)

  function Strikes(d: Desk, leg: Leg): set<int> {
    set k | k in d.chain && k.1 == leg :: k.0
  }

  function EmergencyLimit(q: Quote, pct: real): real
    requires ValidBook(q)
  {
    MaxReal(0.5, Mid(q) * pct)
  }

  /** Good enough to be looked at: traded at all in a replay, a sane book otherwise. */
  predicate Liquid(q: Quote, mode: Mode, pct: real) {
    if mode.Backtest? then q.volume >= 5
    else ValidBook(q) && q.ask.value - q.bid.value <= EmergencyLimit(q, pct)
  }

  predicate Executable(p: Pair, d: Desk, pct: real) {
    var ce, pe := QuoteOf(d, p.0, CE), QuoteOf(d, p.1, PE);
    && ce.Some? && Liquid(ce.value, d.rules.entry.mode, pct)
    && pe.Some? && Liquid(pe.value, d.rules.entry.mode, pct)
  }

  function ExecutablePairs(pairs: seq<Pair>, d: Desk, pct: real): (e: seq<Pair>)
    ensures |e| <= |pairs|
    ensures forall p :: p in e <==> p in pairs && Executable(p, d, pct)
  {
    if |pairs| == 0 then []
    else
      var n := |pairs| - 1;
      ExecutablePairs(pairs[..n], d, pct) + if Executable(pairs[n], d, pct) then [pairs[n]] else []
  }

  /** The candidates the candle scanner could measure. */
  function Scanned(pairs: seq<Pair>, moves: map<Pair, Measured>): (cs: seq<Candidate>)
    ensures |cs| <= |pairs|
    ensures forall c :: c in cs <==> c.pair in pairs && c.pair in moves && c == CandidateOf(c.pair, moves[c.pair])
  {
    if |pairs| == 0 then []
    else
      var n := |pairs| - 1;
      Scanned(pairs[..n], moves) + if pairs[n] in moves then [CandidateOf(pairs[n], moves[pairs[n]])] else []
  }

  function CandidateOf(p: Pair, m: Measured): Candidate {
    Candidate(p, m.ceVelocity, m.peVelocity, m.divergence, m.winner)
  }

  lemma {:induction false} ExecutableIsDistinct(pairs: seq<Pair>, d: Desk, pct: real)
    requires Distinct(pairs)
    ensures Distinct(ExecutablePairs(pairs, d, pct))
  {
    if |pairs| > 0 {
      var n := |pairs| - 1;
      ExecutableIsDistinct(pairs[..n], d, pct);
      assert pairs[n] !in pairs[..n];
    }
  }

  lemma {:induction false} ScannedIsDistinct(pairs: seq<Pair>, moves: map<Pair, Measured>)
    requires Distinct(pairs)
    ensures DistinctPairs(Scanned(pairs, moves))
  {
    if |pairs| > 0 {
      var n := |pairs| - 1;
      var before := Scanned(pairs[..n], moves);
      ScannedIsDistinct(pairs[..n], moves);
      forall i | 0 <= i < |before|
        ensures before[i].pair != pairs[n]
      {
        assert before[i] in before;
        assert before[i].pair in pairs[..n];
      }
    }
  }

  function PassedPairs(decisions: map<Pair, Decision>): set<Pair> {
    set p | p in decisions && decisions[p].Passed?
  }

  // What a scan makes of any list of measured candidates.

  ghost function SurvivorsOf(cs: seq<Candidate>, d: Desk): seq<Candidate> {
    Survivors(cs, d.market, d.rules.entry)
  }

  ghost function VerdictsOf(cs: seq<Candidate>, d: Desk, project: Projector): (v: seq<Decision>)
    ensures |v| == |SurvivorsOf(cs, d)|
  {
    Verdicts(SurvivorsOf(cs, d), d, project)
  }

  ghost function RecordOf(cs: seq<Candidate>, d: Desk, project: Projector): map<Pair, Decision> {
    Recorded(SurvivorsOf(cs, d), VerdictsOf(cs, d, project))
  }

  /** The row shown for one candidate. */
  ghost function RowFor(cs: seq<Candidate>, d: Desk, project: Projector, c: Candidate): Row {
    RowOf(c, PairsOf(SurvivorsOf(cs, d)), RecordOf(cs, d, project), d.market, d.rules.entry)
  }

  /** All rows, as displayed. */
  ghost function RowsShown(cs: seq<Candidate>, d: Desk, project: Projector): seq<Row> {
    Diagnostics(cs, SurvivorsOf(cs, d), RecordOf(cs, d, project), d.market, d.rules.entry)
  }

  // The stages of one scan on a fixed picture of the market.

  ghost function Universe(d: Desk, s: Setup): seq<Pair> {
    BoundedUniverse(Strikes(d, CE), Strikes(d, PE), d.market.spot, d.market.step, s.depth, s.includeAtm, s.research)
  }

  ghost function Executables(d: Desk, s: Setup): seq<Pair> {
    ExecutablePairs(Universe(d, s), d, s.emergencySpread)
  }

  ghost function Candidates(d: Desk, s: Setup): seq<Candidate> {
    Scanned(Executables(d, s), s.moves)
  }

  /** A quote the scan looks at: traded five times in a replay, otherwise two-sided with a spread of at most 0.5 or
      the emergency share of its mid price. */
  ghost predicate WorthALook(q: Option<Quote>, replay: bool, share: real) {
    && q.Some?
    && if replay then q.value.volume >= 5
       else
         && TwoSided(q)
         && var bid, ask := q.value.bid.value, q.value.ask.value;
            ask <= bid + 0.5 || ask - bid <= (bid + ask) / 2.0 * share
  }

  /** A candidate is exactly a pair of the universe, worth a look on both legs, with what its candles measured. */
  lemma CandidatesIff(d: Desk, s: Setup, c: Candidate)
    ensures
      var replay := d.rules.entry.mode == Backtest;
      c in Candidates(d, s) <==>
        && c.pair in Universe(d, s)
        && WorthALook(QuoteOf(d, c.pair.0, CE), replay, s.emergencySpread)
        && WorthALook(QuoteOf(d, c.pair.1, PE), replay, s.emergencySpread)
        && c.pair in s.moves && s.moves[c.pair] == Measured(c.ceVelocity, c.peVelocity, c.divergence, c.winner)
  {
    LiquidIff(d, c.pair.0, CE, s.emergencySpread);
    LiquidIff(d, c.pair.1, PE, s.emergencySpread);
  }

  lemma LiquidIff(d: Desk, strike: int, leg: Leg, share: real)
    ensures
      var q, mode := QuoteOf(d, strike, leg), d.rules.entry.mode;
      WorthALook(q, mode == Backtest, share) <==> q.Some? && Liquid(q.value, mode, share)
  {
  }

  /** The universe is every pair of a quoted call and a quoted put within the depth or, with research on, one that the
      guard accepts. */
  lemma UniverseOfDeskIff(d: Desk, s: Setup, p: Pair)
    ensures
      var spot, step := d.market.spot, d.market.step;
      p in Universe(d, s) <==>
        && (p.0, CE) in d.chain && (p.1, PE) in d.chain && spot > 0.0 && step > 0
        && (|| WithinDepth(p, Atm(spot, step), step, s.depth, s.includeAtm)
            || (s.research && BoundedStrikes(p, spot, step)))
  {
    StrikesIff(d, CE, p.0);
    StrikesIff(d, PE, p.1);
    UniverseIff(Strikes(d, CE), Strikes(d, PE), d.market.spot, d.market.step, s.depth, s.includeAtm, s.research, p);
  }

  lemma StrikesIff(d: Desk, leg: Leg, strike: int)
    ensures strike in Strikes(d, leg) <==> (strike, leg) in d.chain
  {
    if (strike, leg) in d.chain {
      assert (strike, leg).0 == strike && (strike, leg).1 == leg;
    }
  }

  lemma StagesAreDistinct(d: Desk, s: Setup)
    ensures DistinctPairs(Candidates(d, s))
  {
    UniverseIsDistinct(Strikes(d, CE), Strikes(d, PE), d.market.spot, d.market.step, s.depth, s.includeAtm, s.research);
    ExecutableIsDistinct(Universe(d, s), d, s.emergencySpread);
    ScannedIsDistinct(Executables(d, s), s.moves);
  }

  lemma SurvivorIsInUniverse(d: Desk, s: Setup, c: Candidate)
    ensures c in SurvivorsOf(Candidates(d, s), d) ==> c.pair in Universe(d, s)
  {
    if c in SurvivorsOf(Candidates(d, s), d) {
      assert c in Candidates(d, s);
      assert c.pair in Executables(d, s);
    }
  }

  ghost function FunnelOf(d: Desk, s: Setup, project: Projector): Funnel {
    var cs := Candidates(d, s);
    Funnel(|Universe(d, s)|, |Executables(d, s)|, |SurvivorsOf(cs, d)|, |PassedPairs(RecordOf(cs, d, project))|,
           if NonePassed(VerdictsOf(cs, d, project)) then 0 else 1)
  }

  /** The plan made for a ranked pair. */
  ghost function PlanFor(top: Scored, d: Desk, s: Setup, capital: real, lots: int): EntryPlan {
    EntryPlan(top.pair, top.winner, lots, LotSize(d.lotSize, d.rules.sizing), capital, StopFor(capital, s.lossPct))
  }

  function RawStop(capital: real, pct: real): real {
    MaxReal(0.0, capital) * pct
  }

  ghost function StopFor(capital: real, pct: real): real {
    Round2(RawStop(capital, pct))
  }

  /** The stop is the wanted share of the capital to half a paisa, and nothing without capital. */
  lemma StopIsShare(capital: real, pct: real)
    ensures capital >= 0.0 ==> -0.005 <= StopFor(capital, pct) - capital * pct <= 0.005
    ensures capital <= 0.0 ==> StopFor(capital, pct) == 0.0
  {
    NearestEvenIsUnique(0.0, 0);
    HalfPaisa(RawStop(capital, pct));
  }

  lemma HalfPaisa(x: real)
    ensures -0.005 <= Round2(x) - x <= 0.005
  {
  }

  method ComputeStop(capital: real, pct: real) returns (stop: real)
    ensures stop == StopFor(capital, pct)
  {
    stop := ComputeRound2(RawStop(capital, pct));
  }

  /** A plan buys the winner's pair in those lots of the contract in force, on that capital, with its share as stop. */
  lemma PlanIsSized(top: Scored, d: Desk, s: Setup, capital: real, lots: int)
    ensures
      var plan := PlanFor(top, d, s, capital, lots);
      && plan.pair == top.pair && plan.winner == top.winner && plan.quantity == lots && plan.riskCapital == capital
      && plan.lotSize == (if d.lotSize in {None, Some(0)} then d.rules.sizing.defaultLot else d.lotSize.value)
      && (capital >= 0.0 ==> -0.005 <= plan.hardStop - capital * s.lossPct <= 0.005)
      && (capital <= 0.0 ==> plan.hardStop == 0.0)
  {
    StopIsShare(capital, s.lossPct);
  }

  /** The strike rule of the scan and the capital rule of the validator, as a caller sees them. */
  ghost predicate SafePlan(plan: EntryPlan, d: Desk, h: Health) {
    var ce, pe := QuoteOf(d, plan.pair.0, CE), QuoteOf(d, plan.pair.1, PE);
    && d.market.step > 0
    && plan.pair.0 <= Atm(d.market.spot, d.market.step) <= plan.pair.1
    && plan.quantity > 0 && plan.lotSize > 0
    && ce.Some? && pe.Some? && ValidBook(ce.value) && ValidBook(pe.value)
    && Outlay(ce.value.ask.value, pe.value.ask.value, plan.quantity, plan.lotSize)
       <= DeployableFor(plan, h, d.rules.sizing)
  }

  /** A validated plan for a pair of the universe never has both strikes out of the money. */
  lemma ValidatedPlanIsSafe(plan: EntryPlan, d: Desk, s: Setup, h: Health)
    requires d.rules.entry.mode.Paper? && ValidateEntry(plan, d, h).Approved?
    ensures plan.pair in Universe(d, s) ==> SafePlan(plan, d, h)
  {
    var ces, pes := Strikes(d, CE), Strikes(d, PE);
    ApprovedIsCovered(plan, d, h);
    UniverseSplits(ces, pes, d.market.spot, d.market.step, s.depth, s.includeAtm, s.research, plan.pair);
    EstablishedSpansAtm(ces, pes, d.market.spot, d.market.step, s.depth, s.includeAtm, plan.pair);
  }

  /** A passed verdict has both quotes, and outside a replay already knows the number of lots a scan sizes again. */
  lemma RankedLotsAreSizedLots(c: Candidate, d: Desk, project: Projector)
    requires Judge(c, d, project).Passed?
    ensures
      var ce, pe := QuoteOf(d, c.pair.0, CE), QuoteOf(d, c.pair.1, PE);
      && ce.Some? && pe.Some?
      && (!d.rules.entry.mode.Backtest? ==>
           && ce.value.ask.Some? && pe.value.ask.Some?
           && Judge(c, d, project).lots
              == Lots(ce.value.ask.value, pe.value.ask.value, d.rules.sizing, d.capital, d.lotSize) > 0)
  {
  }

  /** Size, plan and validate the winner. Outside a replay the sizes of the ranker and of the scan agree, so a plan
      always exists and is never blocked for its quantity, its outlay or a missing quote. */
  method PlanTop(top: Scored, ghost c: Candidate, d: Desk, s: Setup, h: Health, ghost project: Projector)
    returns (plan: Option<EntryPlan>, verdict: Verdict)
    requires c.pair == top.pair && Judge(c, d, project).Passed? && d.capital.Some?
    ensures plan.Some? ==>
      && verdict == ValidateEntry(plan.value, d, h) && plan.value.quantity > 0
      && plan.value == PlanFor(top, d, s, d.capital.value, plan.value.quantity)
    ensures plan.None? ==> d.rules.entry.mode.Backtest?
    ensures !d.rules.entry.mode.Backtest? ==>
      && plan == Some(PlanFor(top, d, s, d.capital.value, Judge(c, d, project).lots))
      && verdict != Blocked(OutlayTooLarge) && verdict != Blocked(NoQuantity) && verdict != Blocked(QuoteMissing)
    ensures plan.Some? && verdict.Approved? && d.rules.entry.mode.Paper? && c.pair in Universe(d, s) ==>
      SafePlan(plan.value, d, h)
  {
    var capital := d.capital.value;
    RankedLotsAreSizedLots(c, d, project);
    var ce, pe := QuoteOf(d, top.pair.0, CE), QuoteOf(d, top.pair.1, PE);
    var lots := CalculateLots(ce.value.ask.GetOr(0.0), pe.value.ask.GetOr(0.0), d.rules.sizing, d.capital, d.lotSize);
    if lots <= 0 {
      return None, Blocked(NoQuantity);
    }
    var stop := ComputeStop(capital, s.lossPct);
    var made := EntryPlan(top.pair, top.winner, lots, LotSize(d.lotSize, d.rules.sizing), capital, stop);
    verdict := ValidateEntry(made, d, h);
    plan := Some(made);
    if !d.rules.entry.mode.Backtest? {
      SizedPlanIsCovered(made, d, h, ce.value, pe.value, capital);
    }
    if verdict.Approved? && d.rules.entry.mode.Paper? && c.pair in Universe(d, s) {
      ValidatedPlanIsSafe(made, d, s, h);
    }
  }

  /** What ranking a list of candidates decides: the record of verdicts, and a winner if any passed. */
  ghost predicate Decided(
    cs: seq<Candidate>, d: Desk, project: Projector, decisions: map<Pair, Decision>, top: Option<Scored>)
  {
    decisions == RecordOf(cs, d, project) && (top.None? <==> NonePassed(VerdictsOf(cs, d, project)))
  }

  /** Those decisions and the ranked rows that explain them. */
  ghost predicate Ranked(
    cs: seq<Candidate>, d: Desk, project: Projector, decisions: map<Pair, Decision>, top: Option<Scored>,
    rows: seq<(int, Row)>)
  {
    && Decided(cs, d, project, decisions, top)
    && |rows| == |RowsShown(cs, d, project)|
    && (forall k :: 0 <= k < |rows| ==> rows[k] == (k + 1, RowsShown(cs, d, project)[k]))
  }

  /** The winner is the first surviving candidate that passed with the highest projected net. */
  ghost predicate IsWinner(cs: seq<Candidate>, d: Desk, project: Projector, top: Scored, at: int) {
    && IsBest(VerdictsOf(cs, d, project), at)
    && top == ScoredOf(SurvivorsOf(cs, d)[at], VerdictsOf(cs, d, project)[at])
  }

  method RankAndExplain(cs: seq<Candidate>, d: Desk, project: Projector, ranker: Ranker)
    returns (top: Option<Scored>, ghost at: int, rows: seq<(int, Row)>, signal: nat)
    modifies ranker
    ensures Ranked(cs, d, project, ranker.lastDecisions, top, rows) && signal == |SurvivorsOf(cs, d)|
    ensures top.Some? ==> IsWinner(cs, d, project, top.value, at)
  {
    var survivors := EvaluateSignals(cs, d.market, d.rules.entry);
    signal := |survivors|;
    top, at := ranker.RankCandidates(survivors, d, project);
    rows := BuildScanDiagnostics(cs, survivors, ranker.lastDecisions, d.market, d.rules.entry);
  }

  method RankPairs(pairs: seq<Pair>, d: Desk, s: Setup, project: Projector, ranker: Ranker)
    returns (top: Option<Scored>, ghost at: int, rows: seq<(int, Row)>, funnel: Funnel)
    requires pairs == Universe(d, s)
    modifies ranker
    ensures Ranked(Candidates(d, s), d, project, ranker.lastDecisions, top, rows)
    ensures funnel == FunnelOf(d, s, project)
    ensures top.Some? ==> IsWinner(Candidates(d, s), d, project, top.value, at)
  {
    var executable := ExecutablePairs(pairs, d, s.emergencySpread);
    var scanned := Scanned(executable, s.moves);
    var signal;
    top, at, rows, signal := RankAndExplain(scanned, d, project, ranker);
    funnel := Funnel(
      |pairs|, |executable|, signal, |PassedPairs(ranker.lastDecisions)|, if top.Some? then 1 else 0);
  }

  function ShownRows(rows: seq<(int, Row)>): seq<ShownRow> {
    seq(|rows|, k requires 0 <= k < |rows| => RankedRow(rows[k].0, rows[k].1))
  }

  /** The row put in front when the validator refuses the winner. */
  function HeadRow(top: Option<Scored>, blocked: Option<Why>): seq<ShownRow> {
    if top.Some? && blocked.Some? then [ValidationFailed(top.value.pair, blocked.value)] else []
  }

  /** The table of a scan: the refusal of the winner, if any, then every row of the explanation with its rank. */
  ghost predicate TableOf(rows: seq<ShownRow>, shown: seq<Row>, head: seq<ShownRow>) {
    && |rows| == |head| + |shown| && rows[..|head|] == head
    && (forall k :: 0 <= k < |shown| ==> rows[|head| + k] == RankedRow(k + 1, shown[k]))
  }

  lemma RankedRowsAreTable(rows: seq<(int, Row)>, shown: seq<Row>, head: seq<ShownRow>)
    requires |rows| == |shown| && forall k :: 0 <= k < |rows| ==> rows[k] == (k + 1, shown[k])
    ensures TableOf(head + ShownRows(rows), shown, head)
  {
  }

  /** A refused winner takes the first row, and the ranked rows follow in their order. */
  lemma TableShowsRefusal(rows: seq<ShownRow>, shown: seq<Row>, top: Scored, blocked: Option<Why>, k: nat)
    requires TableOf(rows, shown, HeadRow(Some(top), blocked)) && k < |rows|
    ensures blocked == None ==> |rows| == |shown| && rows[k] == RankedRow(k + 1, shown[k])
    ensures blocked.Some? ==>
      && |rows| == |shown| + 1
      && rows[k] == if k == 0 then ValidationFailed(top.pair, blocked.value) else RankedRow(k, shown[k - 1])
  {
    var head := HeadRow(Some(top), blocked);
    if |head| <= k {
      assert rows[|head| + (k - |head|)] == RankedRow(k - |head| + 1, shown[k - |head|]);
    } else {
      assert rows[..|head|][k] == head[k];
    }
  }

  /** The result of a scan with a winner: its plan, or the validator's refusal in front of the rows. */
  method Conclude(
    top: Scored, plan: Option<EntryPlan>, verdict: Verdict, rows: seq<(int, Row)>, funnel: Funnel,
    ghost shown: seq<Row>) returns (r: ScanResult)
    requires |rows| == |shown| && forall k :: 0 <= k < |rows| ==> rows[k] == (k + 1, shown[k])
    ensures r.funnel == funnel && TableOf(r.rows, shown, HeadRow(Some(top), r.blocked))
    ensures r.opportunity == if verdict.Approved? then plan else None
    ensures r.blocked == if plan.Some? && verdict.Blocked? then Some(verdict.why) else None
  {
    r := ScanResult(None, None, ShownRows(rows), funnel);
    if plan.Some? && verdict.Approved? {
      r := r.(opportunity := plan);
    } else if plan.Some? {
      r := r.(blocked := Some(verdict.why), rows := [ValidationFailed(top.pair, verdict.why)] + r.rows);
    }
    RankedRowsAreTable(rows, shown, HeadRow(Some(top), r.blocked));
    assert HeadRow(Some(top), None) + ShownRows(rows) == ShownRows(rows);
  }

  method Scan(d: Desk, s: Setup, h: Health, project: Projector, ranker: Ranker)
    returns (r: ScanResult, top: Option<Scored>, ghost at: int)
    requires d.capital.Some?
    modifies ranker
    ensures Universe(d, s) == [] ==> r == ScanResult(None, None, [], Funnel(0, 0, 0, 0, 0)) && top.None?
    ensures Universe(d, s) != [] ==>
      && Decided(Candidates(d, s), d, project, ranker.lastDecisions, top) && r.funnel == FunnelOf(d, s, project)
      && TableOf(r.rows, RowsShown(Candidates(d, s), d, project), HeadRow(top, r.blocked))
    ensures top.Some? ==> IsWinner(Candidates(d, s), d, project, top.value, at)
    ensures top.None? ==> r.opportunity.None? && r.blocked.None?
    ensures r.opportunity.Some? ==>
      && r.opportunity.value.quantity > 0
      && r.opportunity.value == PlanFor(top.value, d, s, d.capital.value, r.opportunity.value.quantity)
      && ValidateEntry(r.opportunity.value, d, h).Approved?
      && (d.rules.entry.mode.Paper? ==> SafePlan(r.opportunity.value, d, h))
    ensures top.Some? && !d.rules.entry.mode.Backtest? ==>
      && r.opportunity.Some? != r.blocked.Some?
      && (r.blocked.Some? ==> r.blocked.value !in {OutlayTooLarge, NoQuantity, QuoteMissing})
  {
    var pairs := ComputeUniverse(
      Strikes(d, CE), Strikes(d, PE), d.market.spot, d.market.step, s.depth, s.includeAtm, s.research);
    if pairs == [] {
      return ScanResult(None, None, [], Funnel(0, 0, 0, 0, 0)), None, -1;
    }
    var rows, funnel;
    top, at, rows, funnel := RankPairs(pairs, d, s, project, ranker);
    if top.None? {
      RankedRowsAreTable(rows, RowsShown(Candidates(d, s), d, project), []);
      assert [] + ShownRows(rows) == ShownRows(rows);
      return ScanResult(None, None, ShownRows(rows), funnel), None, at;
    }
    ghost var c := SurvivorsOf(Candidates(d, s), d)[at];
    VerdictAt(SurvivorsOf(Candidates(d, s), d), d, project, at);
    SurvivorIsInUniverse(d, s, c);
    var plan, verdict := PlanTop(top.value, c, d, s, h, project);
    r := Conclude(top.value, plan, verdict, rows, funnel, RowsShown(Candidates(d, s), d, project));
  }

  // The explanation of a scan agrees with its decisions, on any list of distinct pairs.

  /** Reasons that explain nothing. */
  predicate IsCatchAll(reason: Reason) {
    match reason
    case EntrySignalRejected => true
    case NonPositiveMomentum => true
    case RankingNotEvaluated => true
    case RankingFailed(why) => why.LowConfidence?
    case _ => false
  }

  lemma SurvivorRow(cs: seq<Candidate>, d: Desk, project: Projector, c: Candidate)
    requires DistinctPairs(cs) && c in SurvivorsOf(cs, d)
    ensures RowFor(cs, d, project, c) == DecisionRow(c, Judge(c, d, project))
  {
    var survivors, v := SurvivorsOf(cs, d), VerdictsOf(cs, d, project);
    var i :| 0 <= i < |survivors| && survivors[i] == c;
    SurvivorsAreDistinct(cs, d.market, d.rules.entry);
    RecordedVerdict(survivors, v, i);
    VerdictAt(survivors, d, project, i);
    assert c.pair in PairsOf(survivors);
  }

  lemma RejectedRow(cs: seq<Candidate>, d: Desk, project: Projector, c: Candidate)
    requires DistinctPairs(cs) && c in cs && c !in SurvivorsOf(cs, d)
    ensures RowFor(cs, d, project, c)
         == Row(c.pair, false, RejectionReason(c, d.market, d.rules.entry), None, c.divergence)
  {
    if c.pair in PairsOf(SurvivorsOf(cs, d)) {
      SurvivorPairIsOwn(cs, d, c);
    }
  }

  lemma SurvivorPairIsOwn(cs: seq<Candidate>, d: Desk, c: Candidate)
    requires DistinctPairs(cs) && c in cs && c.pair in PairsOf(SurvivorsOf(cs, d))
    ensures c in SurvivorsOf(cs, d)
  {
    var x :| x in SurvivorsOf(cs, d) && x.pair == c.pair;
    assert x in cs;
    var i :| 0 <= i < |cs| && cs[i] == c;
    var j :| 0 <= j < |cs| && cs[j] == x;
    assert i == j;
  }

  /** A survivor's row passes exactly when the ranker passed it, and otherwise gives a true ranking reason. */
  lemma SurvivorRowIsTrue(cs: seq<Candidate>, d: Desk, project: Projector, c: Candidate)
    requires DistinctPairs(cs) && c in SurvivorsOf(cs, d)
    ensures RowFor(cs, d, project, c).passed <==> Judge(c, d, project).Passed?
    ensures !RowFor(cs, d, project, c).passed ==>
      && RowFor(cs, d, project, c).reason.RankingFailed?
      && IsRankFact(RowFor(cs, d, project, c).reason.why, c, d, project)
    ensures !IsCatchAll(RowFor(cs, d, project, c).reason)
  {
    SurvivorRow(cs, d, project, c);
    if Judge(c, d, project).Failed? {
      VerdictIsTrue(c, d, project);
    }
  }

  /** A rejected pair's row fails, and its reason is a fact about the pair that fails an entry gate. */
  lemma RejectedRowIsTrue(cs: seq<Candidate>, d: Desk, project: Projector, c: Candidate)
    requires DistinctPairs(cs) && c in cs && c !in SurvivorsOf(cs, d)
    ensures !RowFor(cs, d, project, c).passed
    ensures IsFact(RowFor(cs, d, project, c).reason, c, d.market, d.rules.entry)
    ensures !IsCatchAll(RowFor(cs, d, project, c).reason)
  {
    RejectedRow(cs, d, project, c);
    RejectionIsTrue(c, d.market, d.rules.entry);
  }

  // The counts of a scan.

  lemma PassedAreFew(cs: seq<Candidate>, v: seq<Decision>)
    requires |cs| == |v|
    ensures |PassedPairs(Recorded(cs, v))| <= |cs|
  {
    var m := Recorded(cs, v);
    RecordSize(cs, v);
    SubsetSize(PassedPairs(m), m.Keys);
    assert |m.Keys| == |m|;
  }

  lemma {:induction false} SubsetSize(a: set<Pair>, b: set<Pair>)
    requires a <= b
    ensures |a| <= |b|
  {
    if a != {} {
      var x :| x in a;
      SubsetSize(a - {x}, b - {x});
    }
  }

  lemma SomePassed(cs: seq<Candidate>, v: seq<Decision>)
    requires DistinctPairs(cs) && |cs| == |v| && !NonePassed(v)
    ensures |PassedPairs(Recorded(cs, v))| >= 1
  {
    var i :| 0 <= i < |v| && !v[i].Failed?;
    RecordedVerdict(cs, v, i);
    assert cs[i].pair in PassedPairs(Recorded(cs, v));
  }

  /** A pair is recorded as passed exactly when its own candidate survived and passed. */
  lemma PassedPairIff(cs: seq<Candidate>, d: Desk, project: Projector, c: Candidate)
    requires DistinctPairs(cs) && c in cs
    ensures c.pair in PassedPairs(RecordOf(cs, d, project))
      <==> Survives(c, d.market, d.rules.entry) && Judge(c, d, project).Passed?
  {
    var survivors, v := SurvivorsOf(cs, d), VerdictsOf(cs, d, project);
    RecordHasOnly(survivors, v, c.pair);
    if c in survivors {
      var i :| 0 <= i < |survivors| && survivors[i] == c;
      SurvivorsAreDistinct(cs, d.market, d.rules.entry);
      RecordedVerdict(survivors, v, i);
      VerdictAt(survivors, d, project, i);
    } else if c.pair in RecordOf(cs, d, project) {
      SurvivorPairIsOwn(cs, d, c);
    }
  }

  /** The five counts: pairs offered, pairs worth a look, survivors, passed pairs, and one if any passed. */
  lemma FunnelCounts(d: Desk, s: Setup, project: Projector)
    ensures
      var f, cs := FunnelOf(d, s, project), Candidates(d, s);
      && f.generated == |Universe(d, s)| && f.signal == |SurvivorsOf(cs, d)|
      && f.quotable == |ExecutablePairs(Universe(d, s), d, s.emergencySpread)|
      && f.economic == |PassedPairs(RecordOf(cs, d, project))|
      && (f.final == 1 <==> f.economic > 0) && (f.final == 0 <==> f.economic == 0)
  {
    var cs := Candidates(d, s);
    StagesAreDistinct(d, s);
    SurvivorsAreDistinct(cs, d.market, d.rules.entry);
    if !NonePassed(VerdictsOf(cs, d, project)) {
      SomePassed(SurvivorsOf(cs, d), VerdictsOf(cs, d, project));
    } else {
      NoneIsRecorded(SurvivorsOf(cs, d), VerdictsOf(cs, d, project));
    }
  }

  lemma {:induction false} NoneIsRecorded(cs: seq<Candidate>, v: seq<Decision>)
    requires |cs| == |v| && NonePassed(v)
    ensures PassedPairs(Recorded(cs, v)) == {}
  {
    if |cs| > 0 {
      var n := |cs| - 1;
      NoneIsRecorded(cs[..n], v[..n]);
      assert forall p :: p in Recorded(cs[..n], v[..n]) ==> p !in PassedPairs(Recorded(cs[..n], v[..n]));
    }
  }

  /** Each stage counts at most as many pairs as the one before it. */
  lemma FunnelNarrows(d: Desk, s: Setup, project: Projector)
    ensures
      var f := FunnelOf(d, s, project);
      f.generated >= f.quotable >= f.signal >= f.economic >= f.final >= 0
  {
    var cs := Candidates(d, s);
    PassedAreFew(SurvivorsOf(cs, d), VerdictsOf(cs, d, project));
    if !NonePassed(VerdictsOf(cs, d, project)) {
      StagesAreDistinct(d, s);
      SurvivorsAreDistinct(cs, d.market, d.rules.entry);
      SomePassed(SurvivorsOf(cs, d), VerdictsOf(cs, d, project));
    }
  }

  // The first row and the winner.

  /** The first row beside a winner passed, and projects exactly the winner's net. */
  lemma FirstRowIsWinner(cs: seq<Candidate>, d: Desk, project: Projector, top: Scored, at: int)
    requires DistinctPairs(cs) && IsWinner(cs, d, project, top, at)
    ensures |RowsShown(cs, d, project)| > 0
    ensures RowsShown(cs, d, project)[0].passed && RowsShown(cs, d, project)[0].net == Some(top.net)
  {
    var c := SurvivorsOf(cs, d)[at];
    assert c in SurvivorsOf(cs, d);
    var x := FirstCandidate(cs, d, project, c);
    WinnerRow(cs, d, project, top, at);
    FirstIsBest(cs, d, project, c);
    NoRowBeatsWinner(cs, d, project, at, x);
    NothingBefore(RowFor(cs, d, project, c), RowFor(cs, d, project, x));
  }

  lemma NothingBefore(winner: Row, first: Row)
    requires winner.passed && winner.net.Some? && !Before(winner, first)
    requires first.passed ==> first.net.Some? && first.net.value <= winner.net.value
    ensures first.passed && first.net == winner.net
  {
  }

  lemma WinnerRow(cs: seq<Candidate>, d: Desk, project: Projector, top: Scored, at: int)
    requires DistinctPairs(cs) && IsWinner(cs, d, project, top, at)
    ensures
      var row := RowFor(cs, d, project, SurvivorsOf(cs, d)[at]);
      row.passed && row.net == Some(top.net)
  {
    var survivors := SurvivorsOf(cs, d);
    VerdictAt(survivors, d, project, at);
    VerdictsAreRounded(survivors, d, project);
    SurvivorRow(cs, d, project, survivors[at]);
  }

  lemma NoRowBeatsWinner(cs: seq<Candidate>, d: Desk, project: Projector, at: int, x: Candidate)
    requires DistinctPairs(cs) && IsBest(VerdictsOf(cs, d, project), at) && x in cs
    ensures
      var row, best := RowFor(cs, d, project, x), VerdictsOf(cs, d, project)[at];
      row.passed ==> row.net.Some? && row.net.value <= Round2(best.net)
  {
    var survivors := SurvivorsOf(cs, d);
    if x in survivors {
      var j :| 0 <= j < |survivors| && survivors[j] == x;
      SurvivorRow(cs, d, project, x);
      VerdictAt(survivors, d, project, j);
      VerdictsAreRounded(survivors, d, project);
    } else {
      RejectedRow(cs, d, project, x);
    }
  }

  /** Without a winner no row claims to have passed. */
  lemma NoWinnerNoPassedRow(cs: seq<Candidate>, d: Desk, project: Projector, c: Candidate)
    requires DistinctPairs(cs) && NonePassed(VerdictsOf(cs, d, project)) && c in cs
    ensures !RowFor(cs, d, project, c).passed
  {
    var survivors := SurvivorsOf(cs, d);
    if c in survivors {
      SurvivorRow(cs, d, project, c);
      var i :| 0 <= i < |survivors| && survivors[i] == c;
      VerdictAt(survivors, d, project, i);
    } else {
      RejectedRow(cs, d, project, c);
    }
  }

  /** The candidate the first row is about. */
  lemma FirstCandidate(cs: seq<Candidate>, d: Desk, project: Projector, some: Candidate) returns (x: Candidate)
    requires some in cs
    ensures |RowsShown(cs, d, project)| > 0 && x in cs && RowsShown(cs, d, project)[0] == RowFor(cs, d, project, x)
  {
    var rows := RowsOf(cs, PairsOf(SurvivorsOf(cs, d)), RecordOf(cs, d, project), d.market, d.rules.entry);
    var first := Sorted(rows)[0];
    assert first in multiset(Sorted(rows));
    assert first in rows;
    var i :| 0 <= i < |rows| && rows[i] == first;
    x := cs[i];
  }

  /** No candidate's row comes before the first one. */
  lemma FirstIsBest(cs: seq<Candidate>, d: Desk, project: Projector, c: Candidate)
    requires c in cs
    ensures |RowsShown(cs, d, project)| > 0 && !Before(RowFor(cs, d, project, c), RowsShown(cs, d, project)[0])
  {
    var rows := RowsOf(cs, PairsOf(SurvivorsOf(cs, d)), RecordOf(cs, d, project), d.market, d.rules.entry);
    var row := RowFor(cs, d, project, c);
    var i :| 0 <= i < |cs| && cs[i] == c;
    assert rows[i] == row;
    assert row in multiset(Sorted(rows));
    var k :| 0 <= k < |Sorted(rows)| && Sorted(rows)[k] == row;
    SortedIsInOrder(rows);
  }
}
