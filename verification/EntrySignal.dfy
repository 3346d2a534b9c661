/** The entry gates a candidate pair has to pass. */
module EntrySignal {
  import opened Common
  import opened PairTemplates
  import opened Trading

  datatype Mode = Backtest | Paper | Live
  datatype Trend = Up | Down | Flat

  /** A quoted pair with the velocity of each leg over its last candle, in percent. */
  datatype Candidate = Candidate(pair: Pair, ceVelocity: real, peVelocity: real, divergence: real, winner: Leg)

  datatype Rules = Rules(
    mode: Mode, researchEnabled: bool, bandMin: real, bandMax: real, directionalMax: real,
    bufferMin: real, bufferMax: real)

  datatype Market = Market(regime: Regime, trend: Trend, spot: real, step: int)

  predicate Decays(c: Candidate) {
    c.ceVelocity <= 0.0 && c.peVelocity <= 0.0
  }

  predicate Aligned(c: Candidate, m: Market) {
    (m.trend.Up? && c.winner.CE?) || (m.trend.Down? && c.winner.PE?)
  }

  /** The narrow exception for a pair with both legs out of the money. */
  ghost predicate ResearchAllowed(c: Candidate, m: Market, r: Rules) {
    && r.researchEnabled && r.mode.Paper? && m.regime.Directional?
    && BoundedStrikes(c.pair, m.spot, m.step)
    && Aligned(c, m)
  }

  function Lower(m: Market, r: Rules): real {
    if m.regime.Directional? then r.bandMin else r.bufferMin
  }

  function Upper(m: Market, r: Rules): real {
    if m.regime.Directional? then r.directionalMax else r.bufferMax
  }

  predicate InBand(c: Candidate, m: Market, r: Rules) {
    Lower(m, r) <= c.divergence <= Upper(m, r)
  }

  /** The winning leg is not the one a directional trend calls for. */
  predicate Mismatched(c: Candidate, m: Market) {
    m.regime.Directional? && ((m.trend.Up? && !c.winner.CE?) || (m.trend.Down? && !c.winner.PE?))
  }

  ghost predicate Survives(c: Candidate, m: Market, r: Rules) {
    && !Decays(c)
    && (BothOtm(c.pair, m.spot) ==> ResearchAllowed(c, m, r))
    && InBand(c, m, r)
    && !Mismatched(c, m)
  }

  /** A pair out of the money on both legs survives only as research: in PAPER, with the trend, around the money. */
  lemma SurvivesIff(c: Candidate, m: Market, r: Rules)
    ensures
      var rises := c.ceVelocity > 0.0 || c.peVelocity > 0.0;
      var leads := if m.trend.Up? then Some(CE) else if m.trend.Down? then Some(PE) else None;
      var otm := m.spot > 0.0 && m.spot < c.pair.0 as real && m.spot > c.pair.1 as real;
      Survives(c, m, r) <==>
        match m.regime
        case Sideways => rises && !otm && r.bufferMin <= c.divergence <= r.bufferMax
        case Directional =>
          && rises && r.bandMin <= c.divergence <= r.directionalMax
          && (leads.Some? ==> leads == Some(c.winner))
          && (otm ==> leads.Some? && r.researchEnabled && r.mode == Paper && BoundedStrikes(c.pair, m.spot, m.step))
  {
  }

  ghost function Survivors(cs: seq<Candidate>, m: Market, r: Rules): (s: seq<Candidate>)
    ensures |s| <= |cs|
    ensures forall c :: c in s <==> c in cs && Survives(c, m, r)
  {
    if |cs| == 0 then []
    else
      var n := |cs| - 1;
      Survivors(cs[..n], m, r) + if Survives(cs[n], m, r) then [cs[n]] else []
  }

  method EvaluateSignals(cs: seq<Candidate>, m: Market, r: Rules) returns (survivors: seq<Candidate>)
    ensures survivors == Survivors(cs, m, r)
  {
    survivors := [];
    for i := 0 to |cs|
      invariant survivors == Survivors(cs[..i], m, r)
    {
      assert cs[..i + 1][..i] == cs[..i];
      var c := cs[i];
      if c.ceVelocity <= 0.0 && c.peVelocity <= 0.0 {
        continue;
      }
      if m.spot > 0.0 && c.pair.0 as real > m.spot && (c.pair.1 as real) < m.spot {
        var bounded := ComputeBoundedStrikes(c.pair, m.spot, m.step);
        if !(r.researchEnabled && r.mode.Paper? && m.regime.Directional? && bounded && Aligned(c, m)) {
          continue;
        }
      }
      if !(Lower(m, r) <= c.divergence <= Upper(m, r)) {
        continue;
      }
      if m.regime.Directional? {
        if m.trend.Up? && !c.winner.CE? {
          continue;
        } else if m.trend.Down? && !c.winner.PE? {
          continue;
        }
      }
      survivors := survivors + [c];
    }
    assert cs[..|cs|] == cs;
  }

  /** No two candidates are for the same pair. */
  ghost predicate DistinctPairs(cs: seq<Candidate>) {
    forall i, j :: 0 <= i < j < |cs| ==> cs[i].pair != cs[j].pair
  }

  lemma {:induction false} SurvivorsAreDistinct(cs: seq<Candidate>, m: Market, r: Rules)
    requires DistinctPairs(cs)
    ensures DistinctPairs(Survivors(cs, m, r))
  {
    if |cs| > 0 {
      var n := |cs| - 1;
      var before := Survivors(cs[..n], m, r);
      SurvivorsAreDistinct(cs[..n], m, r);
      forall i | 0 <= i < |before|
        ensures before[i].pair != cs[n].pair
      {
        assert before[i] in cs[..n];
      }
    }
  }
}
