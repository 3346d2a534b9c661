/** The separate explanation of a scan: one row for each scanned pair, saying why it passed or failed. */
module ScanDiagnostics {
  import opened Common
  import opened PairTemplates
  import opened Trading
  import opened EntrySignal
  import opened PairRanker

  datatype Reason =
    | TrueDualDecay | FlatNoMomentum | CeDecayPeFlat | CeFlatPeDecay | NonPositiveMomentum
    | DivergenceOutside(lower: real, upper: real)
    | BothOtmLayout | DirectionalWinnerMismatch | EntrySignalRejected
    | RankingNotEvaluated | RankingFailed(why: FailReason) | ProfitabilityBufferPassed

  datatype Row = Row(pair: Pair, passed: bool, reason: Reason, net: Option<real>, divergence: real)

  function VelocityReason(ce: real, pe: real): Reason {
    if ce < 0.0 && pe < 0.0 then TrueDualDecay
    else if ce == 0.0 && pe == 0.0 then FlatNoMomentum
    else if ce < 0.0 && pe == 0.0 then CeDecayPeFlat
    else if ce == 0.0 && pe < 0.0 then CeFlatPeDecay
    else NonPositiveMomentum
  }

  /** Why a pair that did not survive the entry gates is said to have failed. */
  function RejectionReason(c: Candidate, m: Market, r: Rules): Reason {
    if Decays(c) then VelocityReason(c.ceVelocity, c.peVelocity)
    else if !InBand(c, m, r) then DivergenceOutside(Lower(m, r), Upper(m, r))
    else if BothOtm(c.pair, m.spot) then BothOtmLayout
    else if Mismatched(c, m) then DirectionalWinnerMismatch
    else EntrySignalRejected
  }

  function DecisionRow(c: Candidate, decision: Decision): Row {
    match decision
    case Failed(why, projected) => Row(c.pair, false, RankingFailed(why), projected, c.divergence)
    case Passed(net, _, _) => Row(c.pair, true, ProfitabilityBufferPassed, Some(net), c.divergence)
  }

  function RowOf(c: Candidate, survivors: set<Pair>, decisions: map<Pair, Decision>, m: Market, r: Rules): Row {
    if c.pair !in survivors then Row(c.pair, false, RejectionReason(c, m, r), None, c.divergence)
    else if c.pair in decisions then DecisionRow(c, decisions[c.pair])
    else Row(c.pair, false, RankingNotEvaluated, None, c.divergence)
  }

  function RowsOf(
    cs: seq<Candidate>, survivors: set<Pair>, decisions: map<Pair, Decision>, m: Market, r: Rules): (rows: seq<Row>)
    ensures |rows| == |cs|
    ensures forall i :: 0 <= i < |cs| ==> rows[i] == RowOf(cs[i], survivors, decisions, m, r)
  {
    seq(|cs|, i requires 0 <= i < |cs| => RowOf(cs[i], survivors, decisions, m, r))
  }

  /** A lower projected net, or none at all, comes later. */
  predicate NetBefore(a: Option<real>, b: Option<real>) {
    a.Some? && (b.None? || a.value > b.value)
  }

  /** The order of display: passed rows first, then by projected net, then by divergence. */
  predicate Before(a: Row, b: Row) {
    if a.passed != b.passed then a.passed
    else if a.net != b.net then NetBefore(a.net, b.net)
    else a.divergence > b.divergence
  }

  /** Put a row after all rows it does not come before. */
  function Insert(rows: seq<Row>, row: Row): (s: seq<Row>)
    ensures |s| == |rows| + 1
    ensures multiset(s) == multiset(rows) + multiset{row}
  {
    if |rows| == 0 || !Before(row, rows[|rows| - 1]) then
      rows + [row]
    else
      var n := |rows| - 1;
      assert rows == rows[..n] + [rows[n]];
      Insert(rows[..n], row) + [rows[n]]
  }

  function Sorted(rows: seq<Row>): (s: seq<Row>)
    ensures |s| == |rows| && multiset(s) == multiset(rows)
  {
    if |rows| == 0 then []
    else
      var n := |rows| - 1;
      assert rows == rows[..n] + [rows[n]];
      Insert(Sorted(rows[..n]), rows[n])
  }

  ghost predicate InOrder(rows: seq<Row>) {
    forall i, j :: 0 <= i < j < |rows| ==> !Before(rows[j], rows[i])
  }

  lemma BeforeIsTransitive(a: Row, b: Row, c: Row)
    requires !Before(b, a) && !Before(c, b)
    ensures !Before(c, a)
  {
  }

  lemma InsertHolds(rows: seq<Row>, row: Row, i: nat)
    requires i < |Insert(rows, row)|
    ensures Insert(rows, row)[i] == row || Insert(rows, row)[i] in rows
  {
    var x := Insert(rows, row)[i];
    assert x in multiset(Insert(rows, row));
  }

  lemma AppendKeepsOrder(rows: seq<Row>, row: Row)
    requires InOrder(rows) && forall i :: 0 <= i < |rows| ==> !Before(row, rows[i])
    ensures InOrder(rows + [row])
  {
  }

  lemma NotBeforeAny(rows: seq<Row>, row: Row, i: nat)
    requires InOrder(rows) && i < |rows| && !Before(row, rows[|rows| - 1])
    ensures !Before(row, rows[i])
  {
    if i < |rows| - 1 {
      BeforeIsTransitive(rows[i], rows[|rows| - 1], row);
    }
  }

  /** Inserting in front of the last row leaves that row last. */
  lemma LastStaysLast(rows: seq<Row>, row: Row, last: Row)
    requires InOrder(rows + [last]) && Before(row, last) && InOrder(Insert(rows, row))
    ensures InOrder(Insert(rows, row) + [last])
  {
    forall i | 0 <= i < |Insert(rows, row)|
      ensures !Before(last, Insert(rows, row)[i])
    {
      InsertHolds(rows, row, i);
      NoneAfterLast(rows, last);
    }
    AppendKeepsOrder(Insert(rows, row), last);
  }

  lemma NoneAfterLast(rows: seq<Row>, last: Row)
    requires InOrder(rows + [last])
    ensures forall i :: 0 <= i < |rows| ==> !Before(last, rows[i])
  {
    var all := rows + [last];
    assert forall i :: 0 <= i < |rows| ==> all[i] == rows[i] && !Before(all[|rows|], all[i]);
  }

  lemma {:induction false} InsertKeepsOrder(rows: seq<Row>, row: Row)
    requires InOrder(rows)
    ensures InOrder(Insert(rows, row))
  {
    if |rows| == 0 || !Before(row, rows[|rows| - 1]) {
      forall i | 0 <= i < |rows|
        ensures !Before(row, rows[i])
      {
        NotBeforeAny(rows, row, i);
      }
      AppendKeepsOrder(rows, row);
    } else {
      var n := |rows| - 1;
      InsertKeepsOrder(rows[..n], row);
      assert rows[..n] + [rows[n]] == rows;
      LastStaysLast(rows[..n], row, rows[n]);
    }
  }

  lemma {:induction false} SortedIsInOrder(rows: seq<Row>)
    ensures InOrder(Sorted(rows))
  {
    if |rows| > 0 {
      SortedIsInOrder(rows[..|rows| - 1]);
      InsertKeepsOrder(Sorted(rows[..|rows| - 1]), rows[|rows| - 1]);
    }
  }

  /** Rows as displayed: passed ones first, then the higher projected net with none last, then the wider divergence. */
  lemma DisplayOrder(rows: seq<Row>, i: nat, j: nat)
    requires i < j < |rows|
    ensures
      var a, b := Sorted(rows)[i], Sorted(rows)[j];
      && (b.passed ==> a.passed)
      && (a.passed == b.passed && b.net.Some? ==> a.net.Some? && a.net.value >= b.net.value)
      && (a.passed == b.passed && a.net == b.net ==> a.divergence >= b.divergence)
  {
    SortedIsInOrder(rows);
    assert !Before(Sorted(rows)[j], Sorted(rows)[i]);
  }

  /** Neither row comes before the other. */
  predicate Ties(a: Row, b: Row) {
    a.passed == b.passed && a.net == b.net && a.divergence == b.divergence
  }

  /** The rows that tie with this one, in their order. */
  function TiesWith(rows: seq<Row>, k: Row): seq<Row> {
    if |rows| == 0 then []
    else
      var last := rows[|rows| - 1];
      TiesWith(rows[..|rows| - 1], k) + if Ties(last, k) then [last] else []
  }

  lemma {:induction false} TiesOfPush(rows: seq<Row>, row: Row, k: Row)
    ensures TiesWith(rows + [row], k) == TiesWith(rows, k) + if Ties(row, k) then [row] else []
  {
    assert (rows + [row])[..|rows|] == rows;
  }

  lemma {:induction false} InsertKeepsTies(rows: seq<Row>, row: Row, k: Row)
    ensures TiesWith(Insert(rows, row), k) == TiesWith(rows, k) + if Ties(row, k) then [row] else []
  {
    if |rows| == 0 || !Before(row, rows[|rows| - 1]) {
      TiesOfPush(rows, row, k);
    } else {
      var n := |rows| - 1;
      InsertKeepsTies(rows[..n], row, k);
      TiesOfPush(Insert(rows[..n], row), rows[n], k);
      assert !(Ties(row, k) && Ties(rows[n], k));
    }
  }

  /** Rows that tie are displayed in scan order. */
  lemma {:induction false} SortedKeepsTies(rows: seq<Row>, k: Row)
    ensures TiesWith(Sorted(rows), k) == TiesWith(rows, k)
  {
    if |rows| > 0 {
      var n := |rows| - 1;
      SortedKeepsTies(rows[..n], k);
      InsertKeepsTies(Sorted(rows[..n]), rows[n], k);
    }
  }

  function PairsOf(cs: seq<Candidate>): set<Pair> {
    set c | c in cs :: c.pair
  }

  /** The rows in display order; their rank is their position. */
  function Diagnostics(
    scanned: seq<Candidate>, survivors: seq<Candidate>, decisions: map<Pair, Decision>, m: Market, r: Rules): seq<Row>
  {
    Sorted(RowsOf(scanned, PairsOf(survivors), decisions, m, r))
  }

  method BuildScanDiagnostics(
    scanned: seq<Candidate>, survivors: seq<Candidate>, decisions: map<Pair, Decision>, m: Market, r: Rules)
    returns (ranked: seq<(int, Row)>)
    ensures |ranked| == |scanned|
    ensures forall k :: 0 <= k < |ranked| ==>
      ranked[k] == (k + 1, Diagnostics(scanned, survivors, decisions, m, r)[k])
  {
    var keys := PairsOf(survivors);
    var rows: seq<Row> := [];
    for i := 0 to |scanned|
      invariant rows == RowsOf(scanned, keys, decisions, m, r)[..i]
    {
      rows := rows + [RowOf(scanned[i], keys, decisions, m, r)];
    }
    assert rows == RowsOf(scanned, keys, decisions, m, r);
    rows := Sorted(rows);
    ranked := [];
    for k := 0 to |rows|
      invariant |ranked| == k
      invariant forall j :: 0 <= j < k ==> ranked[j] == (j + 1, rows[j])
    {
      ranked := ranked + [(k + 1, rows[k])];
    }
  }

  // Explanations against decisions.

  /** What a stated reason claims about the pair. */
  ghost predicate IsFact(reason: Reason, c: Candidate, m: Market, r: Rules) {
    match reason
    case TrueDualDecay => c.ceVelocity < 0.0 && c.peVelocity < 0.0
    case FlatNoMomentum => c.ceVelocity == c.peVelocity == 0.0
    case CeDecayPeFlat => c.ceVelocity < 0.0 && c.peVelocity == 0.0
    case CeFlatPeDecay => c.ceVelocity == 0.0 && c.peVelocity < 0.0
    case DivergenceOutside(lower, upper) =>
      lower == Lower(m, r) && upper == Upper(m, r) && (c.divergence < lower || upper < c.divergence)
    case BothOtmLayout => BothOtm(c.pair, m.spot) && !ResearchAllowed(c, m, r)
    case DirectionalWinnerMismatch => m.regime.Directional? && !m.trend.Flat? && !Aligned(c, m)
    case _ => false
  }

  /** A rejected pair is always given a reason that is true of it; the two catch-all reasons never occur. */
  lemma RejectionIsTrue(c: Candidate, m: Market, r: Rules)
    requires !Survives(c, m, r)
    ensures IsFact(RejectionReason(c, m, r), c, m, r)
    ensures RejectionReason(c, m, r) != EntrySignalRejected && RejectionReason(c, m, r) != NonPositiveMomentum
  {
  }

  /** A true reason fails an entry gate: no reason could be given for a pair that survives. */
  lemma FactFailsAGate(reason: Reason, c: Candidate, m: Market, r: Rules)
    requires IsFact(reason, c, m, r)
    ensures !Survives(c, m, r)
  {
  }

  /** What the ranker's stated reason claims. */
  ghost predicate IsRankFact(why: FailReason, c: Candidate, d: Desk, project: Projector) {
    var ceQuote, peQuote := QuoteOf(d, c.pair.0, CE), QuoteOf(d, c.pair.1, PE);
    if ceQuote.None? || peQuote.None? then why.MissingQuote?
    else
      var mode := d.rules.entry.mode;
      var ce, pe := Price(ceQuote.value, mode), Price(peQuote.value, mode);
      var lots := PositionSizer.Lots(ce, pe, d.rules.sizing, d.capital, d.lotSize);
      match why
      case NonPositivePrice => ce <= 0.0 || pe <= 0.0
      case ResearchPaperOnly =>
        BoundedStrikes(c.pair, d.market.spot, d.cacheStep) && !(mode.Paper? && d.rules.entry.researchEnabled)
      case ResearchMinimumAsk =>
        BoundedStrikes(c.pair, d.market.spot, d.cacheStep) && MinReal(ce, pe) < d.rules.minimumAsk
      case PremiumRatioExceeded => ce > 0.0 && pe > 0.0 && TooLopsided(ce, pe, d.rules.maximumRatio)
      case ZeroSafeQuantity => lots <= 0
      case NetBufferFailed => lots > 0 && !Buffered(project(c, lots), c, d)
      case _ => false
  }

  /** A failed verdict always carries a true reason, and confidence is never it. */
  lemma VerdictIsTrue(c: Candidate, d: Desk, project: Projector)
    requires Judge(c, d, project).Failed?
    ensures IsRankFact(Judge(c, d, project).reason, c, d, project)
    ensures Judge(c, d, project).reason != LowConfidence
  {
  }
}
