/** Which strike pairs a scan may look at, and what separates the established ones from the research ones. */
module PairTemplates {
  import opened Common
  import opened Money

  type Pair = (int, int)

  /** The strike nearest to spot, halfway cases going to the even multiple. */
  ghost function Atm(spot: real, step: int): int
    requires step > 0
  {
    RoundHalfEven(spot / step as real) * step
  }

  method ComputeAtm(spot: real, step: int) returns (atm: int)
    requires step > 0
    ensures atm == Atm(spot, step)
  {
    var n := ComputeRoundHalfEven(spot / step as real);
    atm := n * step;
  }

  lemma AtmIsNear(spot: real, step: int)
    requires step > 0
    ensures -(step as real) < spot - Atm(spot, step) as real < step as real
  {
    var q := spot / step as real;
    var n := RoundHalfEven(q);
    assert IsNearestEven(q, n);
    assert q * step as real == spot;
    ProductsApart(q, n as real, step as real);
    ProductOfReals(n, step);
  }

  /** It is a multiple of the step no further than half a step from spot; from halfway, the even multiple. */
  lemma AtmIsNearest(spot: real, step: int)
    requires step > 0
    ensures
      var k := RoundHalfEven(spot / step as real);
      && Atm(spot, step) == k * step
      && -(step as real) <= 2.0 * (spot - Atm(spot, step) as real) <= step as real
      && (2.0 * (spot - Atm(spot, step) as real) in {step as real, -(step as real)} ==> k % 2 == 0)
  {
    var q, s := spot / step as real, step as real;
    var k := RoundHalfEven(q);
    assert IsNearestEven(q, k);
    assert q * s == spot;
    var d := q - k as real;
    ProductOfReals(k, step);
    assert d * s == q * s - k as real * s;
    HalfStep(d, s);
    assert d * s == spot - Atm(spot, step) as real;
  }

  lemma SignOfProduct(d: real, s: real)
    requires s > 0.0
    ensures d * s > 0.0 <==> d > 0.0
    ensures d * s < 0.0 <==> d < 0.0
  {
  }

  lemma HalfStep(d: real, s: real)
    requires s > 0.0 && -0.5 <= d <= 0.5
    ensures -s <= 2.0 * (d * s) <= s
    ensures 2.0 * (d * s) == s <==> d == 0.5
    ensures 2.0 * (d * s) == -s <==> d == -0.5
  {
    var below, above := 2.0 * d - 1.0, 2.0 * d + 1.0;
    assert 2.0 * (d * s) - s == below * s;
    assert 2.0 * (d * s) + s == above * s;
    SignOfProduct(below, s);
    SignOfProduct(above, s);
  }

  lemma ProductsApart(q: real, n: real, s: real)
    requires s > 0.0 && -0.5 <= q - n <= 0.5
    ensures -s < q * s - n * s < s
  {
    var d := q - n;
    assert d * s <= 0.5 * s && -0.5 * s <= d * s;
    assert q * s - n * s == d * s;
  }

  lemma ProductOfReals(a: int, b: int)
    ensures (a * b) as real == a as real * b as real
  {
  }

  ghost predicate Distinct<T(!new)>(s: seq<T>) {
    forall i, j :: 0 <= i < j < |s| ==> s[i] != s[j]
  }

  /** `count` strikes from the first one on, `step` apart. */
  function Ladder(first: int, step: int, count: nat): seq<int>
    decreases count
  {
    if count == 0 then [] else [first] + Ladder(first + step, step, count - 1)
  }

  /** The strikes of a ladder that are quoted. */
  function Quoted(strikes: seq<int>, available: set<int>): (q: seq<int>)
    ensures forall s :: s in q <==> s in strikes && s in available
  {
    if |strikes| == 0 then []
    else if strikes[0] in available then [strikes[0]] + Quoted(strikes[1..], available)
    else Quoted(strikes[1..], available)
  }

  function WithEach(ce: int, pes: seq<int>): (row: seq<Pair>)
    ensures |row| == |pes| && forall i :: 0 <= i < |pes| ==> row[i] == (ce, pes[i])
  {
    seq(|pes|, i requires 0 <= i < |pes| => (ce, pes[i]))
  }

  /** Every call strike with every put strike. */
  function Cross(ces: seq<int>, pes: seq<int>): (pairs: seq<Pair>)
    ensures forall p :: p in pairs <==> p.0 in ces && p.1 in pes
  {
    if |ces| == 0 then []
    else
      assert forall p: Pair :: p in WithEach(ces[0], pes) <==> p.0 == ces[0] && p.1 in pes by {
        WithEachHolds(ces[0], pes);
      }
      WithEach(ces[0], pes) + Cross(ces[1..], pes)
  }

  lemma WithEachHolds(ce: int, pes: seq<int>)
    ensures forall p: Pair :: p in WithEach(ce, pes) <==> p.0 == ce && p.1 in pes
  {
    var row := WithEach(ce, pes);
    forall p: Pair | p.0 == ce && p.1 in pes
      ensures p in row
    {
      var i :| 0 <= i < |pes| && pes[i] == p.1;
      assert row[i] == p;
    }
  }

  /** Calls at or below the money with puts at or above it. */
  function Established(
    ceQuoted: set<int>, peQuoted: set<int>, atm: int, step: int, depth: int, includeAtm: bool): seq<Pair>
    requires step > 0 && depth >= 0
  {
    var skip := if includeAtm then 0 else step;
    var count := if includeAtm then depth + 1 else depth;
    Cross(Quoted(Ladder(atm - skip, -step, count), ceQuoted), Quoted(Ladder(atm + skip, step, count), peQuoted))
  }

  /** Calls one or two strikes above the money with puts one or two below it. */
  function Research(ceQuoted: set<int>, peQuoted: set<int>, atm: int, step: int): seq<Pair>
    requires step > 0
  {
    Cross(Quoted([atm + step, atm + 2 * step], ceQuoted), Quoted([atm - step, atm - 2 * step], peQuoted))
  }

  ghost function AtmItmCross(
    ceQuoted: set<int>, peQuoted: set<int>, spot: real, step: int, depth: int, includeAtm: bool): seq<Pair>
  {
    if spot <= 0.0 || step <= 0 || depth < 0 then []
    else Established(ceQuoted, peQuoted, Atm(spot, step), step, depth, includeAtm)
  }

  ghost function OtmResearchCross(ceQuoted: set<int>, peQuoted: set<int>, spot: real, step: int): seq<Pair> {
    if spot <= 0.0 || step <= 0 then [] else Research(ceQuoted, peQuoted, Atm(spot, step), step)
  }

  ghost function BoundedUniverse(
    ceQuoted: set<int>, peQuoted: set<int>, spot: real, step: int, depth: int, includeAtm: bool, research: bool)
    : seq<Pair>
  {
    AtmItmCross(ceQuoted, peQuoted, spot, step, depth, includeAtm)
    + if research then OtmResearchCross(ceQuoted, peQuoted, spot, step) else []
  }

  method ComputeUniverse(
    ceQuoted: set<int>, peQuoted: set<int>, spot: real, step: int, depth: int, includeAtm: bool, research: bool)
    returns (pairs: seq<Pair>)
    ensures pairs == BoundedUniverse(ceQuoted, peQuoted, spot, step, depth, includeAtm, research)
  {
    if spot <= 0.0 || step <= 0 {
      return [];
    }
    var atm := ComputeAtm(spot, step);
    pairs := if depth < 0 then [] else Established(ceQuoted, peQuoted, atm, step, depth, includeAtm);
    if research {
      pairs := pairs + Research(ceQuoted, peQuoted, atm, step);
    }
  }

  /** Both legs are worth nothing if exercised now. */
  predicate BothOtm(p: Pair, spot: real) {
    spot > 0.0 && p.0 as real > spot && (p.1 as real) < spot
  }

  predicate AroundAtm(p: Pair, atm: int, step: int) {
    (p.0 == atm + step || p.0 == atm + 2 * step) && (p.1 == atm - step || p.1 == atm - 2 * step)
  }

  /** The research guard's own idea of which pairs belong to it. */
  ghost predicate BoundedStrikes(p: Pair, spot: real, step: int) {
    spot > 0.0 && step > 0 && AroundAtm(p, Atm(spot, step), step)
  }

  method ComputeBoundedStrikes(p: Pair, spot: real, step: int) returns (bounded: bool)
    ensures bounded == BoundedStrikes(p, spot, step)
  {
    if spot <= 0.0 || step <= 0 {
      return false;
    }
    var atm := ComputeAtm(spot, step);
    bounded := AroundAtm(p, atm, step);
  }

  lemma {:induction false} LadderGoesOneWay(first: int, step: int, count: nat)
    requires step != 0
    ensures step > 0 ==> forall x :: x in Ladder(first, step, count) ==> x >= first
    ensures step < 0 ==> forall x :: x in Ladder(first, step, count) ==> x <= first
    ensures Distinct(Ladder(first, step, count))
    decreases count
  {
    if count > 0 {
      var rest := Ladder(first + step, step, count - 1);
      LadderGoesOneWay(first + step, step, count - 1);
      assert first !in rest;
      DistinctCons(first, rest);
    }
  }

  lemma DistinctCons(x: int, rest: seq<int>)
    requires Distinct(rest) && x !in rest
    ensures Distinct([x] + rest)
  {
  }

  lemma {:induction false} QuotedIsDistinct(strikes: seq<int>, available: set<int>)
    requires Distinct(strikes)
    ensures Distinct(Quoted(strikes, available))
  {
    if |strikes| > 0 {
      QuotedIsDistinct(strikes[1..], available);
      assert forall j :: 0 < j < |strikes| ==> strikes[j] == strikes[1..][j - 1];
      assert strikes[0] !in strikes[1..];
    }
  }

  lemma {:induction false} CrossIsDistinct(ces: seq<int>, pes: seq<int>)
    requires Distinct(ces) && Distinct(pes)
    ensures Distinct(Cross(ces, pes))
  {
    if |ces| > 0 {
      CrossIsDistinct(ces[1..], pes);
      var row, rest := WithEach(ces[0], pes), Cross(ces[1..], pes);
      assert ces[0] !in ces[1..];
      DistinctConcat(row, rest);
    }
  }

  lemma DistinctConcat(a: seq<Pair>, b: seq<Pair>)
    requires Distinct(a) && Distinct(b)
    requires forall i :: 0 <= i < |a| ==> a[i] !in b
    ensures Distinct(a + b)
  {
  }

  /** `x` is the k-th strike from `first`. */
  ghost predicate IsRung(first: int, step: int, k: nat, x: int) {
    x == first + k * step
  }

  ghost predicate HasRung(first: int, step: int, count: nat, x: int) {
    exists k: nat :: k < count && IsRung(first, step, k, x)
  }

  lemma NextRung(first: int, step: int, k: nat, x: int)
    ensures IsRung(first + step, step, k, x) <==> IsRung(first, step, k + 1, x)
  {
    assert (k + 1) * step == k * step + step;
  }

  /** A ladder holds exactly its rungs. */
  lemma {:induction false} LadderIff(first: int, step: int, count: nat, x: int)
    ensures x in Ladder(first, step, count) <==> HasRung(first, step, count, x)
    decreases count
  {
    if count > 0 {
      var second := first + step;
      LadderIff(second, step, count - 1, x);
      assert IsRung(first, step, 0, first);
      if k: nat :| k < count && IsRung(first, step, k, x) {
        if k > 0 {
          NextRung(first, step, k - 1, x);
        }
      }
      if k: nat :| k < count - 1 && IsRung(second, step, k, x) {
        NextRung(first, step, k, x);
      }
    }
  }

  /** The established pairs are exactly the quoted ones up to `depth` steps into the money on either side. */
  lemma EstablishedIff(
    ceQuoted: set<int>, peQuoted: set<int>, atm: int, step: int, depth: int, includeAtm: bool, p: Pair)
    requires step > 0 && depth >= 0
    ensures
      var skip, count := if includeAtm then 0 else step, if includeAtm then depth + 1 else depth;
      p in Established(ceQuoted, peQuoted, atm, step, depth, includeAtm) <==>
        && p.0 in ceQuoted && p.1 in peQuoted
        && HasRung(atm - skip, -step, count, p.0) && HasRung(atm + skip, step, count, p.1)
  {
    var skip, count := if includeAtm then 0 else step, if includeAtm then depth + 1 else depth;
    LadderIff(atm - skip, -step, count, p.0);
    LadderIff(atm + skip, step, count, p.1);
  }

  lemma EstablishedSpans(
    ceQuoted: set<int>, peQuoted: set<int>, atm: int, step: int, depth: int, includeAtm: bool, p: Pair)
    requires step > 0 && depth >= 0
    requires p in Established(ceQuoted, peQuoted, atm, step, depth, includeAtm)
    ensures p.0 <= atm <= p.1 && p.0 in ceQuoted && p.1 in peQuoted
  {
    var skip := if includeAtm then 0 else step;
    var count := if includeAtm then depth + 1 else depth;
    LadderGoesOneWay(atm - skip, -step, count);
    LadderGoesOneWay(atm + skip, step, count);
  }

  /** An established pair has its call at or below, and its put at or above, the strike nearest to spot. */
  lemma EstablishedSpansAtm(
    ceQuoted: set<int>, peQuoted: set<int>, spot: real, step: int, depth: int, includeAtm: bool, p: Pair)
    ensures p in AtmItmCross(ceQuoted, peQuoted, spot, step, depth, includeAtm) ==>
      && spot > 0.0 && step > 0
      && p.0 <= Atm(spot, step) <= p.1
      && p.0 in ceQuoted && p.1 in peQuoted
      && !BothOtm(p, spot)
  {
    if p in AtmItmCross(ceQuoted, peQuoted, spot, step, depth, includeAtm) {
      EstablishedSpans(ceQuoted, peQuoted, Atm(spot, step), step, depth, includeAtm, p);
    }
  }

  lemma ResearchIsAround(ceQuoted: set<int>, peQuoted: set<int>, atm: int, step: int, p: Pair)
    requires step > 0
    ensures p in Research(ceQuoted, peQuoted, atm, step)
      <==> p.0 in ceQuoted && p.1 in peQuoted && AroundAtm(p, atm, step)
  {
  }

  lemma AroundIsBothOtm(p: Pair, atm: int, step: int, spot: real)
    requires spot > 0.0 && AroundAtm(p, atm, step) && -(step as real) < spot - atm as real < step as real
    ensures BothOtm(p, spot)
  {
  }

  /** The guard accepts a call one or two steps above the nearest strike with a put one or two steps below it. */
  lemma BoundedIff(p: Pair, spot: real, step: int)
    ensures BoundedStrikes(p, spot, step) <==>
      && spot > 0.0 && step > 0
      && p.0 - Atm(spot, step) in {step, 2 * step} && Atm(spot, step) - p.1 in {step, 2 * step}
  {
  }

  /** The research pairs are exactly the quoted pairs the guard accepts, and each has both legs out of the money. */
  lemma ResearchIffBounded(ceQuoted: set<int>, peQuoted: set<int>, spot: real, step: int, p: Pair)
    ensures p in OtmResearchCross(ceQuoted, peQuoted, spot, step)
      <==> p.0 in ceQuoted && p.1 in peQuoted && BoundedStrikes(p, spot, step)
    ensures BoundedStrikes(p, spot, step) ==> BothOtm(p, spot)
  {
    if spot > 0.0 && step > 0 {
      AtmIsNear(spot, step);
      ResearchIsAround(ceQuoted, peQuoted, Atm(spot, step), step, p);
      if AroundAtm(p, Atm(spot, step), step) {
        AroundIsBothOtm(p, Atm(spot, step), step, spot);
      }
    }
  }

  /** Within the universe, being both out of the money, being accepted by the guard, and not being established
      are the same thing. */
  lemma UniverseSplits(
    ceQuoted: set<int>, peQuoted: set<int>, spot: real, step: int, depth: int, includeAtm: bool, research: bool,
    p: Pair)
    ensures p in BoundedUniverse(ceQuoted, peQuoted, spot, step, depth, includeAtm, research) ==>
      && (BothOtm(p, spot) <==> BoundedStrikes(p, spot, step))
      && (BothOtm(p, spot) <==> p !in AtmItmCross(ceQuoted, peQuoted, spot, step, depth, includeAtm))
      && (!research ==> !BothOtm(p, spot))
  {
    ResearchIffBounded(ceQuoted, peQuoted, spot, step, p);
    EstablishedSpansAtm(ceQuoted, peQuoted, spot, step, depth, includeAtm, p);
  }

  /** A pair up to `depth` steps into the money on either side. */
  ghost predicate WithinDepth(p: Pair, atm: int, step: int, depth: int, includeAtm: bool) {
    var skip, count := if includeAtm then 0 else step, if includeAtm then depth + 1 else depth;
    depth >= 0 && HasRung(atm - skip, -step, count, p.0) && HasRung(atm + skip, step, count, p.1)
  }

  lemma EstablishedWithin(
    ceQuoted: set<int>, peQuoted: set<int>, atm: int, step: int, depth: int, includeAtm: bool, p: Pair)
    requires step > 0
    ensures depth >= 0 ==>
      (p in Established(ceQuoted, peQuoted, atm, step, depth, includeAtm) <==>
        p.0 in ceQuoted && p.1 in peQuoted && WithinDepth(p, atm, step, depth, includeAtm))
  {
    if depth >= 0 {
      EstablishedIff(ceQuoted, peQuoted, atm, step, depth, includeAtm, p);
    }
  }

  lemma AtmItmIff(
    ceQuoted: set<int>, peQuoted: set<int>, spot: real, step: int, depth: int, includeAtm: bool, p: Pair)
    ensures p in AtmItmCross(ceQuoted, peQuoted, spot, step, depth, includeAtm) <==>
      && spot > 0.0 && step > 0 && p.0 in ceQuoted && p.1 in peQuoted
      && WithinDepth(p, Atm(spot, step), step, depth, includeAtm)
  {
    if spot > 0.0 && step > 0 {
      EstablishedWithin(ceQuoted, peQuoted, Atm(spot, step), step, depth, includeAtm, p);
    }
  }

  /** A pair is offered exactly when both strikes are quoted and it is established to the depth or, where research is
      on, one the guard accepts. */
  lemma UniverseIff(
    ceQuoted: set<int>, peQuoted: set<int>, spot: real, step: int, depth: int, includeAtm: bool, research: bool,
    p: Pair)
    ensures p in BoundedUniverse(ceQuoted, peQuoted, spot, step, depth, includeAtm, research) <==>
      && p.0 in ceQuoted && p.1 in peQuoted && spot > 0.0 && step > 0
      && (WithinDepth(p, Atm(spot, step), step, depth, includeAtm) || (research && BoundedStrikes(p, spot, step)))
  {
    AtmItmIff(ceQuoted, peQuoted, spot, step, depth, includeAtm, p);
    ResearchIffBounded(ceQuoted, peQuoted, spot, step, p);
  }

  /** No pair is offered twice. */
  lemma UniverseIsDistinct(
    ceQuoted: set<int>, peQuoted: set<int>, spot: real, step: int, depth: int, includeAtm: bool, research: bool)
    ensures Distinct(BoundedUniverse(ceQuoted, peQuoted, spot, step, depth, includeAtm, research))
  {
    var near := AtmItmCross(ceQuoted, peQuoted, spot, step, depth, includeAtm);
    var far := if research then OtmResearchCross(ceQuoted, peQuoted, spot, step) else [];
    if spot > 0.0 && step > 0 {
      var atm := Atm(spot, step);
      EstablishedIsDistinct(ceQuoted, peQuoted, atm, step, depth, includeAtm);
      ResearchIsDistinct(ceQuoted, peQuoted, atm, step);
      forall i | 0 <= i < |near|
        ensures near[i] !in far
      {
        EstablishedSpansAtm(ceQuoted, peQuoted, spot, step, depth, includeAtm, near[i]);
        ResearchIffBounded(ceQuoted, peQuoted, spot, step, near[i]);
      }
      DistinctConcat(near, far);
    }
  }

  lemma EstablishedIsDistinct(ceQuoted: set<int>, peQuoted: set<int>, atm: int, step: int, depth: int, includeAtm: bool)
    requires step > 0
    ensures depth >= 0 ==> Distinct(Established(ceQuoted, peQuoted, atm, step, depth, includeAtm))
  {
    if depth >= 0 {
      var skip := if includeAtm then 0 else step;
      var count := if includeAtm then depth + 1 else depth;
      LadderGoesOneWay(atm - skip, -step, count);
      LadderGoesOneWay(atm + skip, step, count);
      QuotedIsDistinct(Ladder(atm - skip, -step, count), ceQuoted);
      QuotedIsDistinct(Ladder(atm + skip, step, count), peQuoted);
      CrossIsDistinct(
        Quoted(Ladder(atm - skip, -step, count), ceQuoted), Quoted(Ladder(atm + skip, step, count), peQuoted));
    }
  }

  lemma ResearchIsDistinct(ceQuoted: set<int>, peQuoted: set<int>, atm: int, step: int)
    requires step > 0
    ensures Distinct(Research(ceQuoted, peQuoted, atm, step))
  {
    QuotedIsDistinct([atm + step, atm + 2 * step], ceQuoted);
    QuotedIsDistinct([atm - step, atm - 2 * step], peQuoted);
    CrossIsDistinct(Quoted([atm + step, atm + 2 * step], ceQuoted), Quoted([atm - step, atm - 2 * step], peQuoted));
  }
}
