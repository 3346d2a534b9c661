/** Scoring of surviving pairs, and the record of why each one passed or failed. */
module PairRanker {
  import opened Common
  import opened Money
  import opened PairTemplates
  import opened Trading
  import opened EntrySignal
  import opened PositionSizer

  datatype Quote = Quote(bid: Option<real>, ask: Option<real>, last: real, volume: int, oi: int)

  datatype FailReason =
    | MissingQuote | NonPositivePrice | ResearchPaperOnly | ResearchMinimumAsk
    | PremiumRatioExceeded | ZeroSafeQuantity | NetBufferFailed | LowConfidence

  datatype Decision =
    | Failed(reason: FailReason, projected: Option<real>)
    | Passed(net: real, lots: int, confidence: real)

  datatype Scored = Scored(pair: Pair, winner: Leg, net: real, confidence: real)

  /** What the profit projection of a candidate says before rounding. */
  datatype Projection = Projection(net: real, returnPct: real)

  datatype RankRules = RankRules(
    entry: Rules, sizing: SizeRules, minimumAsk: real, maximumRatio: real,
    minimumNet: real, minimumReturn: real, bufferMinimumNet: real, bufferMinimumReturn: real)

  /** One fixed picture of the market and the account; cacheStep is the strike step the market cache was made with,
      which the ranker uses in place of the index's own. */
  datatype Desk = Desk(
    chain: map<(int, Leg), Quote>, market: Market, cacheStep: int, rules: RankRules, lotSize: Option<int>,
    capital: Option<real>)

  function QuoteOf(d: Desk, strike: int, leg: Leg): Option<Quote> {
    if (strike, leg) in d.chain then Some(d.chain[(strike, leg)]) else None
  }

  /** A long entry pays the ask; a replay only knows the last price. */
  function Price(q: Quote, mode: Mode): real {
    if mode.Backtest? then q.last else q.ask.GetOr(0.0)
  }

  predicate InSidewaysBuffer(c: Candidate, d: Desk) {
    var r := d.rules.entry;
    && d.market.regime.Sideways?
    && ((r.bufferMin <= c.divergence < r.bandMin) || (r.bandMax < c.divergence <= r.bufferMax))
  }

  /** Net profit and return a candidate has to project; stricter in the sideways buffer. */
  function EconomicThresholds(c: Candidate, d: Desk): (real, real) {
    if InSidewaysBuffer(c, d) then (d.rules.bufferMinimumNet, d.rules.bufferMinimumReturn)
    else (d.rules.minimumNet, d.rules.minimumReturn)
  }

  predicate Buffered(p: Projection, c: Candidate, d: Desk) {
    p.net >= EconomicThresholds(c, d).0 && p.returnPct >= EconomicThresholds(c, d).1
  }

  predicate TooLopsided(ce: real, pe: real, limit: real)
    requires ce > 0.0 && pe > 0.0
  {
    Quotient(MaxReal(ce, pe), MinReal(ce, pe)) > limit
  }

  predicate HasBook(q: Quote) {
    q.bid.GetOr(0.0) > 0.0 && q.ask.GetOr(0.0) > 0.0
  }

  predicate Tight(q: Quote) {
    q.ask.GetOr(0.0) - q.bid.GetOr(0.0) <= 0.5
  }

  /** A score out of 95, from 70 upwards: spreads, volume and open interest only ever add to it. */
  function Confidence(ce: Quote, pe: Quote, mode: Mode): real {
    var spread :=
      if HasBook(ce) && HasBook(pe) then (if Tight(ce) && Tight(pe) then 15.0 else 0.0) else 10.0;
    var least := if mode.Backtest? then 5 else 500;
    var volume := if ce.volume >= least && pe.volume >= least then 10.0 else 0.0;
    var interest := if (ce.oi >= 2000 && pe.oi >= 2000) || mode.Backtest? then 10.0 else 0.0;
    MinReal(95.0, 70.0 + spread + volume + interest)
  }

  lemma ConfidenceIsEnough(ce: Quote, pe: Quote, mode: Mode)
    ensures 70.0 <= Confidence(ce, pe, mode) <= 95.0
  {
  }

  type Projector = (Candidate, int) -> Projection

  /** The gates before any money is computed. */
  ghost function PriceGate(c: Candidate, ce: real, pe: real, d: Desk): Option<FailReason> {
    var r := d.rules;
    var research := BoundedStrikes(c.pair, d.market.spot, d.cacheStep);
    if ce <= 0.0 || pe <= 0.0 then Some(NonPositivePrice)
    else if research && !(r.entry.mode.Paper? && r.entry.researchEnabled) then Some(ResearchPaperOnly)
    else if research && (ce < r.minimumAsk || pe < r.minimumAsk) then Some(ResearchMinimumAsk)
    else if TooLopsided(ce, pe, r.maximumRatio) then Some(PremiumRatioExceeded)
    else None
  }

  /** The verdict on one candidate. */
  ghost function Judge(c: Candidate, d: Desk, project: Projector): Decision {
    var ceQuote, peQuote := QuoteOf(d, c.pair.0, CE), QuoteOf(d, c.pair.1, PE);
    if ceQuote.None? || peQuote.None? then Failed(MissingQuote, None)
    else JudgeQuoted(c, ceQuote.value, peQuote.value, d, project)
  }

  ghost function JudgeQuoted(c: Candidate, ceQuote: Quote, peQuote: Quote, d: Desk, project: Projector): Decision {
    var ce, pe := Price(ceQuote, d.rules.entry.mode), Price(peQuote, d.rules.entry.mode);
    var gate := PriceGate(c, ce, pe, d);
    var lots := Lots(ce, pe, d.rules.sizing, d.capital, d.lotSize);
    if gate.Some? then Failed(gate.value, None)
    else if lots <= 0 then Failed(ZeroSafeQuantity, None)
    else
      var p := project(c, lots);
      if !Buffered(p, c, d) then Failed(NetBufferFailed, Some(Round2(p.net)))
      else Passed(Round2(p.net), lots, Confidence(ceQuote, peQuote, d.rules.entry.mode))
  }

  method ComputePriceGate(c: Candidate, ce: real, pe: real, d: Desk) returns (gate: Option<FailReason>)
    ensures gate == PriceGate(c, ce, pe, d)
  {
    if ce <= 0.0 || pe <= 0.0 {
      return Some(NonPositivePrice);
    }
    var research := ComputeBoundedStrikes(c.pair, d.market.spot, d.cacheStep);
    if research {
      if !d.rules.entry.mode.Paper? || !d.rules.entry.researchEnabled {
        return Some(ResearchPaperOnly);
      }
      if ce < d.rules.minimumAsk || pe < d.rules.minimumAsk {
        return Some(ResearchMinimumAsk);
      }
    }
    gate := if TooLopsided(ce, pe, d.rules.maximumRatio) then Some(PremiumRatioExceeded) else None;
  }

  method ComputeJudge(c: Candidate, d: Desk, project: Projector) returns (decision: Decision)
    ensures decision == Judge(c, d, project)
  {
    var ceQuote, peQuote := QuoteOf(d, c.pair.0, CE), QuoteOf(d, c.pair.1, PE);
    if ceQuote.None? || peQuote.None? {
      return Failed(MissingQuote, None);
    }
    var ce, pe := Price(ceQuote.value, d.rules.entry.mode), Price(peQuote.value, d.rules.entry.mode);
    var gate := ComputePriceGate(c, ce, pe, d);
    if gate.Some? {
      return Failed(gate.value, None);
    }
    var lots := CalculateLots(ce, pe, d.rules.sizing, d.capital, d.lotSize);
    if lots <= 0 {
      return Failed(ZeroSafeQuantity, None);
    }
    var p := project(c, lots);
    var net := ComputeRound2(p.net);
    if !Buffered(p, c, d) {
      return Failed(NetBufferFailed, Some(net));
    }
    var confidence := Confidence(ceQuote.value, peQuote.value, d.rules.entry.mode);
    ConfidenceIsEnough(ceQuote.value, peQuote.value, d.rules.entry.mode);
    if confidence < 70.0 {
      return Failed(LowConfidence, None);
    }
    decision := Passed(net, lots, confidence);
  }

  // What the verdicts say, in the quotes and the settings alone.

  /** The candidate lies outside the divergence band but inside the buffer around it, in a sideways market. */
  ghost predicate AtTheEdge(c: Candidate, d: Desk) {
    var r := d.rules.entry;
    && d.market.regime != Directional
    && r.bufferMin <= c.divergence <= r.bufferMax && !(r.bandMin <= c.divergence <= r.bandMax)
  }

  /** A projection has reached the net and the return asked for, the stricter ones at the edge. */
  lemma BufferedIff(p: Projection, c: Candidate, d: Desk)
    requires d.rules.entry.bufferMin <= d.rules.entry.bandMin <= d.rules.entry.bandMax <= d.rules.entry.bufferMax
    ensures AtTheEdge(c, d) ==>
      (Buffered(p, c, d) <==> d.rules.bufferMinimumNet <= p.net && d.rules.bufferMinimumReturn <= p.returnPct)
    ensures !AtTheEdge(c, d) ==>
      (Buffered(p, c, d) <==> d.rules.minimumNet <= p.net && d.rules.minimumReturn <= p.returnPct)
  {
  }

  lemma TooLopsidedIff(ce: real, pe: real, limit: real)
    requires ce > 0.0 && pe > 0.0 && limit >= 1.0
    ensures TooLopsided(ce, pe, limit) <==> ce > limit * pe || pe > limit * ce
  {
    QuotientExceeds(MaxReal(ce, pe), MinReal(ce, pe), limit);
    LimitTimes(limit, ce);
    LimitTimes(limit, pe);
  }

  lemma LimitTimes(limit: real, x: real)
    requires limit >= 1.0 && x > 0.0
    ensures limit * x >= x
  {
  }

  lemma QuotientExceeds(x: real, y: real, limit: real)
    requires y > 0.0
    ensures Quotient(x, y) > limit <==> x > limit * y
  {
    var q := x / y;
    assert q * y == x;
    if q > limit {
      ProductStrict(limit, q, y);
    } else {
      ProductMonotone(q, limit, y);
    }
  }

  /** The prices let a pair through: positive, research pairs only in PAPER at a minimum ask, neither leg too dear. */
  lemma PriceGateIff(c: Candidate, ce: real, pe: real, d: Desk)
    requires d.rules.maximumRatio >= 1.0
    ensures PriceGate(c, ce, pe, d).None? <==>
      && ce > 0.0 && pe > 0.0
      && ce <= d.rules.maximumRatio * pe && pe <= d.rules.maximumRatio * ce
      && (BoundedStrikes(c.pair, d.market.spot, d.cacheStep) ==>
           && d.rules.entry.mode == Paper && d.rules.entry.researchEnabled
           && ce >= d.rules.minimumAsk && pe >= d.rules.minimumAsk)
  {
    if ce > 0.0 && pe > 0.0 {
      TooLopsidedIff(ce, pe, d.rules.maximumRatio);
    }
  }

  /** A candidate passes exactly when its prices do, some lots fit and their projection has reached its thresholds;
      it is then projected and recorded with those lots. */
  lemma PassedIff(c: Candidate, d: Desk, project: Projector)
    ensures
      if (c.pair.0, CE) !in d.chain || (c.pair.1, PE) !in d.chain then
        Judge(c, d, project) == Failed(MissingQuote, None)
      else
        var ceQuote, peQuote := d.chain[(c.pair.0, CE)], d.chain[(c.pair.1, PE)];
        var replay := d.rules.entry.mode == Backtest;
        var ce := if replay then ceQuote.last else ceQuote.ask.GetOr(0.0);
        var pe := if replay then peQuote.last else peQuote.ask.GetOr(0.0);
        var lots := Lots(ce, pe, d.rules.sizing, d.capital, d.lotSize);
        var j := Judge(c, d, project);
        && (j.Passed? <==> PriceGate(c, ce, pe, d).None? && lots > 0 && Buffered(project(c, lots), c, d))
        && (j.Passed? ==> j.lots == lots && j.net == Round2(project(c, lots).net))
  {
  }

  /** Full confidence takes two of its three signs, a bookless pair both volume and interest; the floor is a wide
      book without either. */
  lemma ConfidenceIff(ce: Quote, pe: Quote, mode: Mode)
    ensures
      var volume := Min(ce.volume, pe.volume) >= if mode == Backtest then 5 else 500;
      var interest := mode == Backtest || Min(ce.oi, pe.oi) >= 2000;
      var quoted := ce.bid.Some? && ce.ask.Some? && pe.bid.Some? && pe.ask.Some?;
      var booked := quoted
        && ce.bid.value > 0.0 && ce.ask.value > 0.0 && pe.bid.value > 0.0 && pe.ask.value > 0.0;
      var tight := booked && ce.ask.value <= ce.bid.value + 0.5 && pe.ask.value <= pe.bid.value + 0.5;
      && (Confidence(ce, pe, mode) == 95.0 <==> if tight then volume || interest else !booked && volume && interest)
      && (Confidence(ce, pe, mode) == 70.0 <==> booked && !tight && !volume && !interest)
      && (Confidence(ce, pe, mode) in {70.0, 80.0, 85.0, 90.0, 95.0})
  {
  }

  /** The verdicts on candidates, in their order. */
  ghost function Verdicts(cs: seq<Candidate>, d: Desk, project: Projector): (v: seq<Decision>)
    ensures |v| == |cs|
  {
    if |cs| == 0 then []
    else Verdicts(cs[..|cs| - 1], d, project) + [Judge(cs[|cs| - 1], d, project)]
  }

  lemma {:induction false} VerdictAt(cs: seq<Candidate>, d: Desk, project: Projector, i: nat)
    requires i < |cs|
    ensures Verdicts(cs, d, project)[i] == Judge(cs[i], d, project)
  {
    if i < |cs| - 1 {
      VerdictAt(cs[..|cs| - 1], d, project, i);
    }
  }

  /** Every pair's latest verdict. */
  function Recorded(cs: seq<Candidate>, v: seq<Decision>): map<Pair, Decision>
    requires |cs| == |v|
  {
    if |cs| == 0 then map[]
    else
      var n := |cs| - 1;
      Recorded(cs[..n], v[..n])[cs[n].pair := v[n]]
  }

  lemma {:induction false} RecordHasOnly(cs: seq<Candidate>, v: seq<Decision>, p: Pair)
    requires |cs| == |v|
    ensures p in Recorded(cs, v) ==> exists i :: 0 <= i < |cs| && cs[i].pair == p
  {
    if |cs| > 0 && p in Recorded(cs, v) {
      var n := |cs| - 1;
      if cs[n].pair != p {
        RecordHasOnly(cs[..n], v[..n], p);
        var i :| 0 <= i < n && cs[..n][i].pair == p;
        assert cs[i].pair == p;
      }
    }
  }

  /** For distinct pairs the record holds exactly one verdict for each candidate, its own. */
  lemma {:induction false} RecordedVerdict(cs: seq<Candidate>, v: seq<Decision>, i: nat)
    requires |cs| == |v| && DistinctPairs(cs) && i < |cs|
    ensures cs[i].pair in Recorded(cs, v) && Recorded(cs, v)[cs[i].pair] == v[i]
  {
    var n := |cs| - 1;
    if i < n {
      RecordedVerdict(cs[..n], v[..n], i);
    }
  }

  lemma {:induction false} RecordSize(cs: seq<Candidate>, v: seq<Decision>)
    requires |cs| == |v|
    ensures |Recorded(cs, v)| <= |cs|
    ensures DistinctPairs(cs) ==> |Recorded(cs, v)| == |cs|
  {
    if |cs| > 0 {
      var n := |cs| - 1;
      RecordSize(cs[..n], v[..n]);
      var before := Recorded(cs[..n], v[..n]);
      RecordHasOnly(cs[..n], v[..n], cs[n].pair);
      MapGrows(before, cs[n].pair, v[n]);
    }
  }

  lemma MapGrows(m: map<Pair, Decision>, p: Pair, d: Decision)
    ensures |m[p := d]| == if p in m then |m| else |m| + 1
  {
    assert m[p := d].Keys == m.Keys + {p};
  }

  ghost function ScoredOf(c: Candidate, decision: Decision): Scored
    requires decision.Passed?
  {
    Scored(c.pair, c.winner, Round2(decision.net), decision.confidence)
  }

  /** The first of the passed verdicts with the highest projected net. */
  ghost predicate IsBest(v: seq<Decision>, i: int) {
    && 0 <= i < |v| && v[i].Passed?
    && (forall j :: 0 <= j < |v| && v[j].Passed? ==> v[j].net <= v[i].net)
    && (forall j :: 0 <= j < i && v[j].Passed? ==> v[j].net < v[i].net)
  }

  ghost predicate NonePassed(v: seq<Decision>) {
    forall j :: 0 <= j < |v| ==> v[j].Failed?
  }

  /** There is exactly one such verdict as soon as any passed. */
  lemma {:induction false} BestIsUnique(v: seq<Decision>)
    ensures (exists i :: IsBest(v, i)) <==> exists k :: 0 <= k < |v| && v[k].Passed?
    ensures forall i, j :: IsBest(v, i) && IsBest(v, j) ==> i == j
  {
    if |v| > 0 {
      var n := |v| - 1;
      BestIsUnique(v[..n]);
      if i :| IsBest(v[..n], i) {
        assert IsBest(v, if v[n].Passed? && v[n].net > v[i].net then n else i);
      } else {
        assert forall k :: 0 <= k < n ==> v[k] == v[..n][k] && !v[k].Passed?;
        if v[n].Passed? {
          assert IsBest(v, n);
        }
      }
    }
  }

  /** Projected nets are already rounded to paise. */
  ghost predicate Rounded(v: seq<Decision>) {
    forall j :: 0 <= j < |v| && v[j].Passed? ==> Round2(v[j].net) == v[j].net
  }

  lemma JudgedNetIsRounded(c: Candidate, d: Desk, project: Projector)
    ensures Judge(c, d, project).Passed? ==> Round2(Judge(c, d, project).net) == Judge(c, d, project).net
  {
    var ceQuote, peQuote := QuoteOf(d, c.pair.0, CE), QuoteOf(d, c.pair.1, PE);
    if ceQuote.Some? && peQuote.Some? {
      var lots := Lots(Price(ceQuote.value, d.rules.entry.mode), Price(peQuote.value, d.rules.entry.mode),
                       d.rules.sizing, d.capital, d.lotSize);
      Round2IsWholePaise(project(c, lots).net);
    }
  }

  lemma {:induction false} VerdictsAreRounded(cs: seq<Candidate>, d: Desk, project: Projector)
    ensures Rounded(Verdicts(cs, d, project))
  {
    if |cs| > 0 {
      VerdictsAreRounded(cs[..|cs| - 1], d, project);
      JudgedNetIsRounded(cs[|cs| - 1], d, project);
    }
  }

  class Ranker {
    var lastDecisions: map<Pair, Decision>

    constructor ()
      ensures lastDecisions == map[]
    {
      lastDecisions := map[];
    }

    /** Judge every candidate, remember every verdict, return the best one. */
    method RankCandidates(cs: seq<Candidate>, d: Desk, project: Projector) returns (top: Option<Scored>, ghost at: int)
      modifies this
      ensures lastDecisions == Recorded(cs, Verdicts(cs, d, project))
      ensures top.None? <==> NonePassed(Verdicts(cs, d, project))
      ensures top.Some? ==>
        IsBest(Verdicts(cs, d, project), at) && top.value == ScoredOf(cs[at], Verdicts(cs, d, project)[at])
    {
      ghost var v := Verdicts(cs, d, project);
      VerdictsAreRounded(cs, d, project);
      lastDecisions := map[];
      top, at := None, -1;
      for i := 0 to |cs|
        invariant lastDecisions == Recorded(cs[..i], v[..i])
        invariant top.None? ==> NonePassed(v[..i])
        invariant top.Some? ==> IsBest(v[..i], at) && top.value == ScoredOf(cs[at], v[at])
      {
        assert cs[..i + 1][..i] == cs[..i] && v[..i + 1][..i] == v[..i];
        var decision := ComputeJudge(cs[i], d, project);
        assert decision == v[i] by {
          VerdictAt(cs, d, project, i);
        }
        lastDecisions := lastDecisions[cs[i].pair := decision];
        if decision.Passed? {
          var net := ComputeRound2(decision.net);
          if top.None? || top.value.net < net {
            top, at := Some(Scored(cs[i].pair, cs[i].winner, net, decision.confidence)), i;
          }
        }
      }
      assert cs[..|cs|] == cs && v[..|cs|] == v;
    }
  }
}
