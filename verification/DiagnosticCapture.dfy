/** The capture buffer behind the diagnostics screen: one bounded history for each index. */
module DiagnosticCapture {
  import opened Common

  /** A recorded row. Index and cycle names are numbered, indices in alphabetical order; a missing rank is None. */
  datatype Row = Row(index: nat, cycle: int, rank: Option<int>, text: string)

  /** A row with its place in the recording order. */
  datatype Entry = Entry(row: Row, at: nat)

  const NO_RANK := 0x7fff_ffff
  const SHOWN := 10

  // Parts of a recording.

  function Numbered(history: seq<Row>): (e: seq<Entry>)
    ensures |e| == |history|
  {
    if |history| == 0 then []
    else
      var n := |history| - 1;
      Numbered(history[..n]) + [Entry(history[n], n)]
  }

  function OfIndex(entries: seq<Entry>, index: nat): seq<Entry> {
    if |entries| == 0 then []
    else
      var n := |entries| - 1;
      OfIndex(entries[..n], index) + if entries[n].row.index == index then [entries[n]] else []
  }

  function OfCycle(entries: seq<Entry>, cycle: int): seq<Entry> {
    if |entries| == 0 then []
    else
      var n := |entries| - 1;
      OfCycle(entries[..n], cycle) + if entries[n].row.cycle == cycle then [entries[n]] else []
  }

  function WithRank(entries: seq<Entry>): seq<Entry> {
    if |entries| == 0 then []
    else
      var n := |entries| - 1;
      WithRank(entries[..n]) + if entries[n].row.rank.Some? then [entries[n]] else []
  }

  lemma {:induction false} OfIndexHolds(entries: seq<Entry>, index: nat, e: Entry)
    ensures e in OfIndex(entries, index) <==> e in entries && e.row.index == index
  {
    if |entries| > 0 {
      OfIndexHolds(entries[..|entries| - 1], index, e);
      InitAndLast(entries);
    }
  }

  lemma {:induction false} OfCycleHolds(entries: seq<Entry>, cycle: int, e: Entry)
    ensures e in OfCycle(entries, cycle) <==> e in entries && e.row.cycle == cycle
  {
    if |entries| > 0 {
      OfCycleHolds(entries[..|entries| - 1], cycle, e);
      InitAndLast(entries);
    }
  }

  lemma {:induction false} WithRankHolds(entries: seq<Entry>, e: Entry)
    ensures e in WithRank(entries) <==> e in entries && e.row.rank.Some?
  {
    if |entries| > 0 {
      WithRankHolds(entries[..|entries| - 1], e);
      InitAndLast(entries);
    }
  }

  // Recording order.

  ghost predicate Ordered(entries: seq<Entry>) {
    forall i, j :: 0 <= i < j < |entries| ==> entries[i].at < entries[j].at
  }

  ghost predicate AllBefore(entries: seq<Entry>, at: int) {
    forall i :: 0 <= i < |entries| ==> entries[i].at < at
  }

  lemma {:induction false} NumberedIsOrdered(history: seq<Row>)
    ensures Ordered(Numbered(history)) && AllBefore(Numbered(history), |history|)
  {
    if |history| > 0 {
      NumberedIsOrdered(history[..|history| - 1]);
    }
  }

  lemma {:induction false} OfIndexKeepsBefore(entries: seq<Entry>, index: nat, at: int)
    requires AllBefore(entries, at)
    ensures AllBefore(OfIndex(entries, index), at)
  {
    if |entries| > 0 {
      OfIndexKeepsBefore(entries[..|entries| - 1], index, at);
    }
  }

  lemma {:induction false} OfIndexIsOrdered(entries: seq<Entry>, index: nat)
    requires Ordered(entries)
    ensures Ordered(OfIndex(entries, index))
  {
    if |entries| > 0 {
      var n := |entries| - 1;
      OfIndexIsOrdered(entries[..n], index);
      OfIndexKeepsBefore(entries[..n], index, entries[n].at);
    }
  }

  lemma LastOfIsOrdered(entries: seq<Entry>, n: nat)
    requires Ordered(entries)
    ensures Ordered(LastOf(entries, n))
  {
  }

  ghost predicate SameEntries(a: seq<Entry>, b: seq<Entry>) {
    forall e :: e in a <==> e in b
  }

  /** Recordings in strict order are determined by their entries. */
  lemma {:induction false} OrderedIsUnique(a: seq<Entry>, b: seq<Entry>)
    requires Ordered(a) && Ordered(b) && SameEntries(a, b)
    ensures a == b
  {
    if |a| > 0 {
      NoneOnlyForNone(a, b);
      var m, n := |a| - 1, |b| - 1;
      SameLast(a, b);
      forall e
        ensures e in a[..m] <==> e in b[..n]
      {
        InitHolds(a, e);
        InitHolds(b, e);
      }
      OrderedIsUnique(a[..m], b[..n]);
      InitAndLast(a);
      InitAndLast(b);
    } else if |b| > 0 {
      NoneOnlyForNone(b, a);
    }
  }

  lemma NoneOnlyForNone(a: seq<Entry>, b: seq<Entry>)
    requires SameEntries(a, b) && |a| > 0
    ensures |b| > 0
  {
    assert a[0] in a;
  }

  lemma SameLast(a: seq<Entry>, b: seq<Entry>)
    requires Ordered(a) && Ordered(b) && SameEntries(a, b) && |a| > 0 && |b| > 0
    ensures a[|a| - 1] == b[|b| - 1]
  {
    var x, y := a[|a| - 1], b[|b| - 1];
    assert x in a && y in b;
    LastIsGreatest(a, y);
    LastIsGreatest(b, x);
  }

  lemma LastIsGreatest(a: seq<Entry>, e: Entry)
    requires Ordered(a) && e in a
    ensures e.at <= a[|a| - 1].at
    ensures e.at == a[|a| - 1].at ==> e == a[|a| - 1]
  {
  }

  lemma InitHolds(a: seq<Entry>, e: Entry)
    requires Ordered(a) && |a| > 0
    ensures e in a[..|a| - 1] <==> e in a && e != a[|a| - 1]
  {
    InitAndLast(a);
  }

  // Sorting by place, or by rank and then place.

  function RankOf(e: Entry): int {
    e.row.rank.GetOr(NO_RANK)
  }

  predicate Earlier(a: Entry, b: Entry, byRank: bool) {
    if byRank && RankOf(a) != RankOf(b) then RankOf(a) < RankOf(b) else a.at < b.at
  }

  function Insert(sorted: seq<Entry>, e: Entry, byRank: bool): seq<Entry> {
    if |sorted| == 0 || Earlier(sorted[|sorted| - 1], e, byRank) then sorted + [e]
    else Insert(sorted[..|sorted| - 1], e, byRank) + [sorted[|sorted| - 1]]
  }

  function Sort(entries: seq<Entry>, byRank: bool): seq<Entry> {
    if |entries| == 0 then []
    else Insert(Sort(entries[..|entries| - 1], byRank), entries[|entries| - 1], byRank)
  }

  ghost predicate SortedBy(entries: seq<Entry>, byRank: bool) {
    forall i, j :: 0 <= i < j < |entries| ==> Earlier(entries[i], entries[j], byRank)
  }

  ghost predicate NotAt(entries: seq<Entry>, at: nat) {
    forall i :: 0 <= i < |entries| ==> entries[i].at != at
  }

  ghost predicate DistinctPlaces(entries: seq<Entry>) {
    forall i, j :: 0 <= i < j < |entries| ==> entries[i].at != entries[j].at
  }

  lemma {:induction false} InsertHolds(sorted: seq<Entry>, e: Entry, byRank: bool, x: Entry)
    ensures x in Insert(sorted, e, byRank) <==> x == e || x in sorted
  {
    if |sorted| > 0 {
      InsertHolds(sorted[..|sorted| - 1], e, byRank, x);
      InitAndLast(sorted);
    }
  }

  lemma {:induction false} SortHolds(entries: seq<Entry>, byRank: bool, x: Entry)
    ensures x in Sort(entries, byRank) <==> x in entries
  {
    if |entries| > 0 {
      var n := |entries| - 1;
      SortHolds(entries[..n], byRank, x);
      InsertHolds(Sort(entries[..n], byRank), entries[n], byRank, x);
      InitAndLast(entries);
    }
  }

  /** Everything in the list is earlier than `b`. */
  ghost predicate AllEarlier(entries: seq<Entry>, b: Entry, byRank: bool) {
    forall i :: 0 <= i < |entries| ==> Earlier(entries[i], b, byRank)
  }

  lemma {:induction false} InsertKeepsEarlier(sorted: seq<Entry>, e: Entry, byRank: bool, b: Entry)
    requires AllEarlier(sorted, b, byRank) && Earlier(e, b, byRank)
    ensures AllEarlier(Insert(sorted, e, byRank), b, byRank)
  {
    if |sorted| > 0 {
      InsertKeepsEarlier(sorted[..|sorted| - 1], e, byRank, b);
    }
  }

  lemma {:induction false} InsertSorts(sorted: seq<Entry>, e: Entry, byRank: bool)
    requires SortedBy(sorted, byRank) && NotAt(sorted, e.at)
    ensures SortedBy(Insert(sorted, e, byRank), byRank)
  {
    if |sorted| > 0 {
      var n := |sorted| - 1;
      if !Earlier(sorted[n], e, byRank) {
        InsertSorts(sorted[..n], e, byRank);
        InsertKeepsEarlier(sorted[..n], e, byRank, sorted[n]);
      } else {
        EarlierIsTransitive(sorted, e, byRank);
      }
    }
  }

  lemma EarlierIsTransitive(sorted: seq<Entry>, e: Entry, byRank: bool)
    requires |sorted| > 0 && SortedBy(sorted, byRank) && Earlier(sorted[|sorted| - 1], e, byRank)
    ensures AllEarlier(sorted, e, byRank)
  {
    forall i | 0 <= i < |sorted|
      ensures Earlier(sorted[i], e, byRank)
    {
      if i < |sorted| - 1 {
        assert Earlier(sorted[i], sorted[|sorted| - 1], byRank);
      }
    }
  }

  lemma {:induction false} SortSorts(entries: seq<Entry>, byRank: bool)
    requires DistinctPlaces(entries)
    ensures SortedBy(Sort(entries, byRank), byRank)
  {
    if |entries| > 0 {
      var n := |entries| - 1;
      var before := Sort(entries[..n], byRank);
      SortSorts(entries[..n], byRank);
      forall i | 0 <= i < |before|
        ensures before[i].at != entries[n].at
      {
        SortHolds(entries[..n], byRank, before[i]);
      }
      InsertSorts(before, entries[n], byRank);
    }
  }

  // The visible rows of one index.

  function FirstOf(entries: seq<Entry>, n: nat): seq<Entry> {
    if |entries| <= n then entries else entries[..n]
  }

  /** Ranked rows if there are any, otherwise all rows of the group. */
  function Candidates(group: seq<Entry>): seq<Entry> {
    if |WithRank(group)| > 0 then WithRank(group) else group
  }

  function Shown(group: seq<Entry>): seq<Entry> {
    FirstOf(Sort(Candidates(group), true), SHOWN)
  }

  /** The rows of an index that belong to the cycle of its newest row. */
  function NewestCycle(full: seq<Entry>, index: nat): seq<Entry> {
    var own := OfIndex(full, index);
    if |own| == 0 then [] else OfCycle(own, own[|own| - 1].row.cycle)
  }

  function Blocks(full: seq<Entry>, order: seq<nat>): seq<Entry> {
    if |order| == 0 then []
    else Blocks(full, order[..|order| - 1]) + Shown(NewestCycle(full, order[|order| - 1]))
  }

  lemma {:induction false} OfCycleKeepsBefore(entries: seq<Entry>, cycle: int, at: int)
    requires AllBefore(entries, at)
    ensures AllBefore(OfCycle(entries, cycle), at)
  {
    if |entries| > 0 {
      OfCycleKeepsBefore(entries[..|entries| - 1], cycle, at);
    }
  }

  lemma {:induction false} OfCycleIsOrdered(entries: seq<Entry>, cycle: int)
    requires Ordered(entries)
    ensures Ordered(OfCycle(entries, cycle))
  {
    if |entries| > 0 {
      var n := |entries| - 1;
      OfCycleIsOrdered(entries[..n], cycle);
      OfCycleKeepsBefore(entries[..n], cycle, entries[n].at);
    }
  }

  lemma {:induction false} WithRankKeepsBefore(entries: seq<Entry>, at: int)
    requires AllBefore(entries, at)
    ensures AllBefore(WithRank(entries), at)
  {
    if |entries| > 0 {
      WithRankKeepsBefore(entries[..|entries| - 1], at);
    }
  }

  lemma {:induction false} WithRankIsOrdered(entries: seq<Entry>)
    requires Ordered(entries)
    ensures Ordered(WithRank(entries))
  {
    if |entries| > 0 {
      var n := |entries| - 1;
      WithRankIsOrdered(entries[..n]);
      WithRankKeepsBefore(entries[..n], entries[n].at);
    }
  }

  /** A shown row belongs to the newest cycle of its index and, if that cycle has ranked rows, is ranked. */
  lemma ShownIsFromNewestCycle(full: seq<Entry>, index: nat, e: Entry)
    requires e in Shown(NewestCycle(full, index))
    ensures e in full && e.row.index == index
    ensures
      var own := OfIndex(full, index);
      |own| > 0 && e.row.cycle == own[|own| - 1].row.cycle
    ensures |WithRank(NewestCycle(full, index))| > 0 ==> e.row.rank.Some?
  {
    var own, group := OfIndex(full, index), NewestCycle(full, index);
    assert e in Sort(Candidates(group), true);
    SortHolds(Candidates(group), true, e);
    WithRankHolds(group, e);
    if |own| > 0 {
      OfCycleHolds(own, own[|own| - 1].row.cycle, e);
    }
    OfIndexHolds(full, index, e);
  }

  /** At most ten rows are shown, in rank order, and none left out comes before one of them. */
  lemma ShownIsTop(full: seq<Entry>, index: nat)
    requires Ordered(full)
    ensures
      var group := NewestCycle(full, index);
      && |Shown(group)| <= SHOWN && SortedBy(Shown(group), true)
      && (forall e, x :: e in Shown(group) && x in Candidates(group) && x !in Shown(group) ==> Earlier(e, x, true))
  {
    var own, group := OfIndex(full, index), NewestCycle(full, index);
    OfIndexIsOrdered(full, index);
    if |own| > 0 {
      OfCycleIsOrdered(own, own[|own| - 1].row.cycle);
    }
    WithRankIsOrdered(group);
    SortSorts(Candidates(group), true);
    forall e, x | e in Shown(group) && x in Candidates(group) && x !in Shown(group)
      ensures Earlier(e, x, true)
    {
      SortHolds(Candidates(group), true, x);
      RestIsLater(Sort(Candidates(group), true), SHOWN, e, x);
    }
  }

  lemma {:induction false} InsertSize(sorted: seq<Entry>, e: Entry, byRank: bool)
    ensures |Insert(sorted, e, byRank)| == |sorted| + 1
  {
    if |sorted| > 0 && !Earlier(sorted[|sorted| - 1], e, byRank) {
      InsertSize(sorted[..|sorted| - 1], e, byRank);
    }
  }

  lemma {:induction false} SortSize(entries: seq<Entry>, byRank: bool)
    ensures |Sort(entries, byRank)| == |entries|
  {
    if |entries| > 0 {
      var n := |entries| - 1;
      SortSize(entries[..n], byRank);
      InsertSize(Sort(entries[..n], byRank), entries[n], byRank);
    }
  }

  /** Of an index's newest cycle ten rows are shown or all there are, the unranked ones only where none is ranked; an
      index with any row shows at least one. */
  lemma ShownCounts(full: seq<Entry>, index: nat)
    ensures
      var group := NewestCycle(full, index);
      var ranked := WithRank(group);
      && |Shown(group)| == Min(10, if ranked == [] then |group| else |ranked|)
      && (OfIndex(full, index) != [] ==> |Shown(group)| >= 1)
  {
    var own, group := OfIndex(full, index), NewestCycle(full, index);
    SortSize(Candidates(group), true);
    if own != [] {
      OfCycleHolds(own, own[|own| - 1].row.cycle, own[|own| - 1]);
      assert own[|own| - 1] in group;
    }
  }

  lemma RestIsLater(sorted: seq<Entry>, n: nat, e: Entry, x: Entry)
    requires SortedBy(sorted, true) && e in FirstOf(sorted, n) && x in sorted && x !in FirstOf(sorted, n)
    ensures Earlier(e, x, true)
  {
    var i :| 0 <= i < |FirstOf(sorted, n)| && FirstOf(sorted, n)[i] == e;
    var j :| 0 <= j < |sorted| && sorted[j] == x;
    assert n < |sorted| && FirstOf(sorted, n) == sorted[..n];
    TakenIsBefore(sorted, n, j);
  }

  lemma TakenIsBefore(sorted: seq<Entry>, n: nat, j: nat)
    requires j < |sorted| && n <= |sorted| && sorted[j] !in sorted[..n]
    ensures n <= j
  {
  }

  // Grouping by cycle and index, and choosing each index's newest cycle.

  type Key = (int, nat)

  function GroupFor(groups: map<Key, seq<Entry>>, key: Key): seq<Entry> {
    if key in groups then groups[key] else []
  }

  function GroupIn(full: seq<Entry>, key: Key): seq<Entry> {
    OfCycle(OfIndex(full, key.1), key.0)
  }

  ghost predicate IsGrouped(groups: map<Key, seq<Entry>>, full: seq<Entry>) {
    && (forall key :: GroupFor(groups, key) == GroupIn(full, key))
    && (forall key :: key in groups ==> |groups[key]| > 0)
  }

  lemma GroupOfOneMore(full: seq<Entry>, e: Entry, key: Key)
    ensures GroupIn(full + [e], key)
         == GroupIn(full, key) + if key.0 == e.row.cycle && key.1 == e.row.index then [e] else []
  {
    OneMore(full, e, key.1);
    var own := OfIndex(full, key.1);
    assert (own + [e])[..|own|] == own;
    assert own + [] == own;
  }

  method GroupRows(full: seq<Entry>) returns (groups: map<Key, seq<Entry>>)
    ensures IsGrouped(groups, full)
  {
    groups := map[];
    for i := 0 to |full|
      invariant IsGrouped(groups, full[..i])
    {
      var key := (full[i].row.cycle, full[i].row.index);
      ghost var before := groups;
      groups := groups[key := GroupFor(groups, key) + [full[i]]];
      assert full[..i + 1] == full[..i] + [full[i]];
      forall k
        ensures GroupFor(groups, k) == GroupIn(full[..i + 1], k)
      {
        GroupOfOneMore(full[..i], full[i], k);
        assert GroupFor(before, k) == GroupIn(full[..i], k);
      }
    }
    assert full[..|full|] == full;
  }

  /** The last place in a group. */
  function MaxAt(group: seq<Entry>): (m: nat)
    requires |group| > 0
  {
    var last := group[|group| - 1].at;
    if |group| == 1 then last else Max(MaxAt(group[..|group| - 1]), last)
  }

  lemma {:induction false} MaxAtBounds(group: seq<Entry>, e: Entry)
    requires e in group
    ensures e.at <= MaxAt(group)
  {
    if e != group[|group| - 1] {
      InitAndLast(group);
      MaxAtBounds(group[..|group| - 1], e);
    }
  }

  lemma {:induction false} MaxAtIsReached(group: seq<Entry>) returns (e: Entry)
    requires |group| > 0
    ensures e in group && e.at == MaxAt(group)
  {
    e := group[|group| - 1];
    if |group| > 1 && MaxAt(group[..|group| - 1]) > e.at {
      e := MaxAtIsReached(group[..|group| - 1]);
    }
  }

  /** After the groups outside `todo`: each index's entry is one of its groups, and the newest of those seen. */
  ghost predicate IsLatest(latest: map<nat, (int, nat)>, groups: map<Key, seq<Entry>>, todo: set<Key>)
    requires forall key :: key in groups ==> |groups[key]| > 0
  {
    && (forall index :: index in latest ==>
         (latest[index].0, index) in groups && latest[index].1 == MaxAt(groups[(latest[index].0, index)]))
    && (forall key :: key in groups && key !in todo ==> key.1 in latest && MaxAt(groups[key]) <= latest[key.1].1)
  }

  method LatestCycles(groups: map<Key, seq<Entry>>) returns (latest: map<nat, (int, nat)>)
    requires forall key :: key in groups ==> |groups[key]| > 0
    ensures IsLatest(latest, groups, {})
  {
    latest := map[];
    var todo := groups.Keys;
    while todo != {}
      invariant todo <= groups.Keys && IsLatest(latest, groups, todo)
      decreases |todo|
    {
      var key :| key in todo;
      todo := todo - {key};
      var newest := MaxAt(groups[key]);
      if key.1 !in latest || newest > latest[key.1].1 {
        latest := latest[key.1 := (key.0, newest)];
      }
    }
  }

  /** The chosen cycle of an index is the cycle of its newest row. */
  lemma LatestIsNewest(latest: map<nat, (int, nat)>, groups: map<Key, seq<Entry>>, full: seq<Entry>, index: nat)
    requires Ordered(full) && IsGrouped(groups, full) && IsLatest(latest, groups, {})
    ensures index in latest <==> |OfIndex(full, index)| > 0
    ensures index in latest ==>
      (latest[index].0, index) in groups && groups[(latest[index].0, index)] == NewestCycle(full, index)
  {
    var own := OfIndex(full, index);
    OfIndexIsOrdered(full, index);
    if index in latest {
      var chosen := (latest[index].0, index);
      assert GroupFor(groups, chosen) == GroupIn(full, chosen);
      var e := MaxAtIsReached(groups[chosen]);
      OfCycleHolds(own, chosen.0, e);
      LastIsGreatest(own, e);
      NewestGroupIsIn(groups, full, index);
    } else if |own| > 0 {
      NewestGroupIsIn(groups, full, index);
    }
  }

  lemma NewestGroupIsIn(groups: map<Key, seq<Entry>>, full: seq<Entry>, index: nat)
    requires IsGrouped(groups, full) && |OfIndex(full, index)| > 0
    ensures
      var last := OfIndex(full, index)[|OfIndex(full, index)| - 1];
      && (last.row.cycle, index) in groups
      && last.at <= MaxAt(groups[(last.row.cycle, index)])
  {
    var own := OfIndex(full, index);
    var last := own[|own| - 1];
    var key := (last.row.cycle, index);
    assert GroupFor(groups, key) == GroupIn(full, key);
    OfCycleHolds(own, last.row.cycle, last);
    MaxAtBounds(groups[key], last);
  }

  ghost predicate Ascending(order: seq<nat>) {
    forall i, j :: 0 <= i < j < |order| ==> order[i] < order[j]
  }

  lemma BlocksOfOneMore(full: seq<Entry>, order: seq<nat>, index: nat)
    ensures Blocks(full, order + [index]) == Blocks(full, order) + Shown(NewestCycle(full, index))
  {
    assert (order + [index])[..|order|] == order;
  }

  ghost predicate IsLeast(keys: set<nat>, k: nat) {
    k in keys && forall j :: j in keys ==> k <= j
  }

  lemma {:induction false} SmallestExists(keys: set<nat>) returns (k: nat)
    requires keys != {}
    ensures IsLeast(keys, k)
  {
    var x :| x in keys;
    k := x;
    var rest := keys - {x};
    if rest != {} {
      var least := SmallestExists(rest);
      k := if least < x then least else x;
    }
    forall j | j in keys
      ensures k <= j
    {
      if j != x {
        assert j in rest;
      }
    }
  }

  /** The order so far: the finished indices, ascending, all before the ones to do. */
  ghost predicate Walked(order: seq<nat>, all: set<nat>, todo: set<nat>) {
    && Ascending(order) && todo <= all
    && (forall k :: k in order <==> k in all && k !in todo)
    && (forall i, j :: 0 <= i < |order| && j in todo ==> order[i] < j)
  }

  lemma WalkOn(order: seq<nat>, all: set<nat>, todo: set<nat>, k: nat)
    requires Walked(order, all, todo) && IsLeast(todo, k)
    ensures Walked(order + [k], all, todo - {k})
  {
  }

  /** The rows on display: index by index in name order, each index's newest cycle. */
  method VisibleRows(full: seq<Entry>) returns (visible: seq<Entry>, order: seq<nat>)
    requires Ordered(full)
    ensures Ascending(order) && forall index :: index in order <==> |OfIndex(full, index)| > 0
    ensures visible == Blocks(full, order)
  {
    var groups := GroupRows(full);
    var latest := LatestCycles(groups);
    forall index
      ensures IsChosen(latest, groups, full, index)
    {
      LatestIsNewest(latest, groups, full, index);
    }
    visible, order := ShowBlocks(latest, groups, full);
  }

  /** What is chosen for an index is the group of its newest row. */
  ghost predicate IsChosen(
    latest: map<nat, (int, nat)>, groups: map<Key, seq<Entry>>, full: seq<Entry>, index: nat)
  {
    && (index in latest <==> |OfIndex(full, index)| > 0)
    && (index in latest ==>
         var key := (latest[index].0, index);
         key in groups && groups[key] == NewestCycle(full, index))
  }

  method ShowBlocks(latest: map<nat, (int, nat)>, groups: map<Key, seq<Entry>>, ghost full: seq<Entry>)
    returns (visible: seq<Entry>, order: seq<nat>)
    requires forall index :: IsChosen(latest, groups, full, index)
    ensures Ascending(order) && forall index :: index in order <==> |OfIndex(full, index)| > 0
    ensures visible == Blocks(full, order)
  {
    visible, order := [], [];
    var todo := latest.Keys;
    while todo != {}
      invariant visible == Blocks(full, order) && Walked(order, latest.Keys, todo)
      decreases |todo|
    {
      ghost var least := SmallestExists(todo);
      var index :| index in todo && forall j :: j in todo ==> index <= j;
      assert IsChosen(latest, groups, full, index);
      WalkOn(order, latest.Keys, todo, index);
      visible := visible + Shown(groups[(latest[index].0, index)]);
      BlocksOfOneMore(full, order, index);
      order := order + [index];
      todo := todo - {index};
    }
    forall index
      ensures index in order <==> |OfIndex(full, index)| > 0
    {
      assert IsChosen(latest, groups, full, index);
    }
  }

  function RowsFor(rowsByIndex: map<nat, seq<Entry>>, index: nat): seq<Entry> {
    if index in rowsByIndex then rowsByIndex[index] else []
  }

  /** Each history holds the last rows recorded for its index. */
  ghost predicate Remembers(rowsByIndex: map<nat, seq<Entry>>, history: seq<Row>, keep: nat) {
    forall index :: RowsFor(rowsByIndex, index) == LastOf(OfIndex(Numbered(history), index), keep)
  }

  lemma RecordKeeps(rowsByIndex: map<nat, seq<Entry>>, history: seq<Row>, keep: nat, row: Row)
    requires keep >= 1 && Remembers(rowsByIndex, history, keep)
    ensures
      var own := LastOf(RowsFor(rowsByIndex, row.index) + [Entry(row, |history|)], keep);
      Remembers(rowsByIndex[row.index := own], history + [row], keep)
  {
    var own := LastOf(RowsFor(rowsByIndex, row.index) + [Entry(row, |history|)], keep);
    var after := rowsByIndex[row.index := own];
    forall index
      ensures RowsFor(after, index) == LastOf(OfIndex(Numbered(history + [row]), index), keep)
    {
      RecordedFor(history, row, keep, index);
      assert RowsFor(rowsByIndex, index) == LastOf(OfIndex(Numbered(history), index), keep);
    }
  }

  class DiagnosticCaptureService {
    const maxRows: nat
    var capturing: bool
    var topCount: nat
    var rowsByIndex: map<nat, seq<Entry>>
    var sequence: nat
    /** History: everything recorded since the last start. */
    ghost var history: seq<Row>

    constructor (maxRows: nat)
      requires maxRows > 0
      ensures Valid() && history == [] && !capturing && this.maxRows == maxRows
    {
      this.maxRows := maxRows;
      capturing, topCount, rowsByIndex, sequence, history := false, 5, map[], 0, [];
    }

    ghost predicate Valid()
      reads this
    {
      maxRows > 0 && sequence == |history| && Remembers(rowsByIndex, history, maxRows)
    }

    method Start(topCount: nat) returns (ok: bool)
      requires Valid()
      modifies this
      ensures Valid() && (ok <==> topCount == 5 || topCount == 10)
      ensures ok ==> capturing && this.topCount == topCount && history == []
      ensures !ok ==> unchanged(this)
    {
      if topCount != 5 && topCount != 10 {
        return false;
      }
      capturing, this.topCount, rowsByIndex, sequence, history := true, topCount, map[], 0, [];
      ok := true;
    }

    method Stop()
      requires Valid()
      modifies this`capturing
      ensures Valid() && !capturing
    {
      capturing := false;
    }

    method RecordRow(row: Row)
      requires Valid()
      modifies this`rowsByIndex, this`sequence, this`history
      ensures Valid() && history == old(history) + [row]
    {
      RecordKeeps(rowsByIndex, history, maxRows, row);
      var own := RowsFor(rowsByIndex, row.index) + [Entry(row, sequence)];
      sequence := sequence + 1;
      if |own| > maxRows {
        own := own[|own| - maxRows..];
      }
      rowsByIndex := rowsByIndex[row.index := own];
      history := history + [row];
    }

    method Record(rows: seq<Row>)
      requires Valid()
      modifies this`rowsByIndex, this`sequence, this`history
      ensures Valid() && history == old(history) + if capturing then rows else []
    {
      if !capturing {
        return;
      }
      for i := 0 to |rows|
        invariant Valid() && history == old(history) + rows[..i]
      {
        RecordRow(rows[i]);
        assert rows[..i + 1] == rows[..i] + [rows[i]];
      }
      assert rows[..|rows|] == rows;
    }

    /** Every kept row of every index, in recording order. */
    ghost predicate IsFull(full: seq<Entry>)
      reads this
    {
      Ordered(full) && forall index :: OfIndex(full, index) == LastOf(OfIndex(Numbered(history), index), maxRows)
    }

    method FullRows() returns (full: seq<Entry>)
      requires Valid()
      ensures IsFull(full)
    {
      var rows: seq<Entry> := [];
      var todo := rowsByIndex.Keys;
      HistoriesAreOrdered();
      while todo != {}
        invariant todo <= rowsByIndex.Keys
        invariant Gathered(rows, rowsByIndex, todo)
        decreases |todo|
      {
        var index :| index in todo;
        GatherMore(rows, rowsByIndex, todo, index, history);
        rows := rows + rowsByIndex[index];
        todo := todo - {index};
      }
      full := Sort(rows, false);
      SortSorts(rows, false);
      forall index
        ensures OfIndex(full, index) == RowsFor(rowsByIndex, index)
      {
        OfIndexIsOrdered(full, index);
        forall e
          ensures e in OfIndex(full, index) <==> e in RowsFor(rowsByIndex, index)
        {
          OfIndexHolds(full, index, e);
          SortHolds(rows, false, e);
        }
        OrderedIsUnique(OfIndex(full, index), RowsFor(rowsByIndex, index));
      }
    }

    /** There is only one sequence of full rows. */
    lemma FullIsUnique(a: seq<Entry>, b: seq<Entry>)
      requires IsFull(a) && IsFull(b)
      ensures a == b
    {
      forall e
        ensures e in a <==> e in b
      {
        OfIndexHolds(a, e.row.index, e);
        OfIndexHolds(b, e.row.index, e);
      }
      OrderedIsUnique(a, b);
    }

    method Snapshot() returns (full: seq<Entry>, visible: seq<Entry>, order: seq<nat>)
      requires Valid()
      ensures IsFull(full) && Ascending(order) && visible == Blocks(full, order)
      ensures forall index :: index in order <==> |OfIndex(full, index)| > 0
    {
      full := FullRows();
      visible, order := VisibleRows(full);
    }

    lemma HistoriesAreOrdered()
      requires Valid()
      ensures Tidy(rowsByIndex, history)
    {
      NumberedIsOrdered(history);
      forall index
        ensures Ordered(RowsFor(rowsByIndex, index))
        ensures forall e :: e in RowsFor(rowsByIndex, index) ==> OwnEntry(e, index, history)
      {
        var all := OfIndex(Numbered(history), index);
        OfIndexIsOrdered(Numbered(history), index);
        LastOfIsOrdered(all, maxRows);
        forall e | e in RowsFor(rowsByIndex, index)
          ensures OwnEntry(e, index, history)
        {
          assert e in all;
          OfIndexHolds(Numbered(history), index, e);
          NumberedHolds(history, e);
        }
      }
    }
  }

  /** The entry is a recorded row of its index, in its place. */
  ghost predicate OwnEntry(e: Entry, index: nat, history: seq<Row>) {
    e.row.index == index && e.at < |history| && e.row == history[e.at]
  }

  ghost predicate Tidy(rowsByIndex: map<nat, seq<Entry>>, history: seq<Row>) {
    && (forall index :: Ordered(RowsFor(rowsByIndex, index)))
    && (forall index, e :: e in RowsFor(rowsByIndex, index) ==> OwnEntry(e, index, history))
  }

  /** The rows of all finished indices, each in one place. */
  ghost predicate Gathered(rows: seq<Entry>, rowsByIndex: map<nat, seq<Entry>>, todo: set<nat>) {
    && DistinctPlaces(rows)
    && (forall e :: e in rows <==> e.row.index !in todo && e in RowsFor(rowsByIndex, e.row.index))
  }

  lemma GatherMore(rows: seq<Entry>, rowsByIndex: map<nat, seq<Entry>>, todo: set<nat>, index: nat, history: seq<Row>)
    requires index in todo && index in rowsByIndex && Tidy(rowsByIndex, history)
    requires Gathered(rows, rowsByIndex, todo)
    ensures Gathered(rows + rowsByIndex[index], rowsByIndex, todo - {index})
  {
    var own := rowsByIndex[index];
    assert own == RowsFor(rowsByIndex, index);
    forall x, y | x in rows && y in own
      ensures x.at != y.at
    {
      assert OwnEntry(x, x.row.index, history) && OwnEntry(y, index, history);
    }
    ConcatIsDistinct(rows, own);
    forall e
      ensures e in rows + own <==> e.row.index !in todo - {index} && e in RowsFor(rowsByIndex, e.row.index)
    {
      if e in own {
        assert OwnEntry(e, index, history);
      }
    }
  }

  lemma ConcatIsDistinct(a: seq<Entry>, b: seq<Entry>)
    requires DistinctPlaces(a) && Ordered(b)
    requires forall x, y :: x in a && y in b ==> x.at != y.at
    ensures DistinctPlaces(a + b)
  {
    forall i, j | 0 <= i < j < |a + b|
      ensures (a + b)[i].at != (a + b)[j].at
    {
      if i < |a| <= j {
        assert (a + b)[i] in a && (a + b)[j] in b;
      }
    }
  }

  lemma NumberedOfOneMore(history: seq<Row>, row: Row)
    ensures Numbered(history + [row]) == Numbered(history) + [Entry(row, |history|)]
  {
    assert (history + [row])[..|history|] == history;
  }

  /** Recording one more row touches only its own index, and there keeps the last rows. */
  lemma RecordedFor(history: seq<Row>, row: Row, keep: nat, index: nat)
    requires keep >= 1
    ensures
      var before := LastOf(OfIndex(Numbered(history), index), keep);
      LastOf(OfIndex(Numbered(history + [row]), index), keep)
      == if row.index == index then LastOf(before + [Entry(row, |history|)], keep) else before
  {
    var entry, all := Entry(row, |history|), OfIndex(Numbered(history), index);
    NumberedOfOneMore(history, row);
    OneMore(Numbered(history), entry, index);
    if row.index == index {
      LastOfAppend(all, entry, keep);
    } else {
      assert all + [] == all;
    }
  }

  lemma {:induction false} NumberedHolds(history: seq<Row>, e: Entry)
    ensures e in Numbered(history) <==> e.at < |history| && e.row == history[e.at]
  {
    if |history| > 0 {
      NumberedHolds(history[..|history| - 1], e);
    }
  }

  lemma OneMore(entries: seq<Entry>, e: Entry, index: nat)
    ensures OfIndex(entries + [e], index) == OfIndex(entries, index) + if e.row.index == index then [e] else []
  {
    assert (entries + [e])[..|entries|] == entries;
  }
}
