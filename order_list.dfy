/**
 * The order list of the example app: the date classifier `TimeGroup`, and
 * the list-item data source that lays out order identifiers in dated
 * sections and turns identifiers into UI items, requesting missing orders.
 *
 * Instants are integers (milliseconds). The calendar arithmetic the
 * classifier uses is given as a `Clock`: "now", the four cut-off instants and
 * the calendar day of any instant. ISO-8601 parsing is a given function that
 * may fail.
 */
module OrderList {
  import opened Wrappers

  datatype RemoteId = RemoteId(value: int)

  datatype TimeGroup =
    | GroupToday
    | GroupYesterday
    | GroupOlderTwoDays
    | GroupOlderWeek
    | GroupOlderMonth

  /** Position of a group in the list, newest first. */
  function Rank(g: TimeGroup): nat {
    match g
    case GroupToday => 0
    case GroupYesterday => 1
    case GroupOlderTwoDays => 2
    case GroupOlderWeek => 3
    case GroupOlderMonth => 4
  }

  datatype ItemIdentifier =
    | SectionHeaderIdentifier(title: TimeGroup)
    | OrderIdentifier(remoteId: RemoteId)

  datatype ItemUIType =
    | SectionHeader(title: TimeGroup)
    | LoadingItem(remoteId: RemoteId)
    | WCOrderListUIItem(remoteOrderId: RemoteId, orderNumber: string, status: string, orderName: string, orderTotal: string)

  /** The stored summary of an order: its id and its creation date as ISO-8601 text. */
  datatype OrderSummary = OrderSummary(remoteOrderId: int, dateCreated: string)

  /** The stored order, reduced to the fields the list shows. */
  datatype Order = Order(remoteOrderId: int, number: string, status: string,
                         billingFirstName: string, billingLastName: string, total: string)

  datatype Site = Site(siteId: int)

  datatype ListDescriptor = ListDescriptor(site: Site)

  /**
   * `Date()` and the `DateUtils` results the classifier uses:
   * `addMonths(now, -1)`, `addWeeks(now, -1)`, `addDays(now, -2)`,
   * `addDays(now, -1)`, and the calendar day `isSameDay` compares.
   */
  datatype Clock = Clock(now: int, monthAgo: int, weekAgo: int, twoDaysAgo: int, oneDayAgo: int, dayOf: int -> int)

  /** What the calendar guarantees: the cut-offs in order, days in order, and consecutive recent days. */
  ghost predicate Consistent(c: Clock) {
    && c.monthAgo <= c.weekAgo <= c.twoDaysAgo <= c.oneDayAgo <= c.now
    && (forall a, b :: a <= b ==> c.dayOf(a) <= c.dayOf(b))
    && c.dayOf(c.oneDayAgo) == c.dayOf(c.twoDaysAgo) + 1
    && c.dayOf(c.now) == c.dayOf(c.oneDayAgo) + 1
  }

  /** `getTimeGroupForDate`: the first rule that matches wins. */
  function TimeGroupForDate(c: Clock, date: int): TimeGroup {
    if date < c.monthAgo then GroupOlderMonth
    else if date < c.weekAgo then GroupOlderWeek
    else if date < c.twoDaysAgo then GroupOlderTwoDays
    else if c.dayOf(c.twoDaysAgo) == c.dayOf(date) then GroupOlderTwoDays
    else if c.dayOf(c.oneDayAgo) == c.dayOf(date) then GroupYesterday
    else GroupToday
  }

  /**
   * The groups described by calendar days instead of rules: before a month
   * ago, before a week ago, from a week ago up to the day before yesterday,
   * yesterday, and today or any later day.
   */
  lemma TimeGroupByDay(c: Clock, date: int)
    requires Consistent(c)
    ensures TimeGroupForDate(c, date) == GroupOlderMonth <==> date < c.monthAgo
    ensures TimeGroupForDate(c, date) == GroupOlderWeek <==> c.monthAgo <= date < c.weekAgo
    ensures TimeGroupForDate(c, date) == GroupOlderTwoDays <==>
      c.weekAgo <= date && c.dayOf(date) <= c.dayOf(c.now) - 2
    ensures TimeGroupForDate(c, date) == GroupYesterday <==> c.dayOf(date) == c.dayOf(c.now) - 1
    ensures TimeGroupForDate(c, date) == GroupToday <==> c.dayOf(date) >= c.dayOf(c.now)
  {
    if date < c.twoDaysAgo {
      assert c.dayOf(date) <= c.dayOf(c.twoDaysAgo);
    } else {
      assert c.dayOf(c.twoDaysAgo) <= c.dayOf(date);
    }
  }

  /** A later date never falls in an older group; in particular every future date is Today. */
  lemma TimeGroupIsMonotone(c: Clock, a: int, b: int)
    requires Consistent(c) && a <= b
    ensures Rank(TimeGroupForDate(c, b)) <= Rank(TimeGroupForDate(c, a))
    ensures c.now <= b ==> TimeGroupForDate(c, b) == GroupToday
  {
    TimeGroupByDay(c, a);
    TimeGroupByDay(c, b);
    assert c.dayOf(a) <= c.dayOf(b);
    if c.now <= b {
      assert c.dayOf(c.now) <= c.dayOf(b);
    }
  }

  /** The date an order is filed under: its parsed creation date, or now when that does not parse. */
  function DateOrNow(c: Clock, parse: string -> Option<int>, text: string): int {
    match parse(text)
    case Some(d) => d
    case None => c.now
  }

  function GroupOf(c: Clock, parse: string -> Option<int>, s: OrderSummary): TimeGroup {
    TimeGroupForDate(c, DateOrNow(c, parse, s.dateCreated))
  }

  /** An order whose creation date does not parse is filed under Today. */
  lemma UnparseableDateIsToday(c: Clock, parse: string -> Option<int>, s: OrderSummary)
    requires Consistent(c) && parse(s.dateCreated).None?
    ensures GroupOf(c, parse, s) == GroupToday
  {
    TimeGroupByDay(c, c.now);
  }

  /** `remoteItemIds.mapNotNull { summariesByRemoteId[it] }`: the stored summaries, in id order. */
  function FoundSummaries(ids: seq<RemoteId>, summaries: map<RemoteId, OrderSummary>): seq<OrderSummary>
    decreases |ids|
  {
    if ids == [] then []
    else
      var last := ids[|ids| - 1];
      FoundSummaries(ids[..|ids| - 1], summaries) + (if last in summaries then [summaries[last]] else [])
  }

  /**
   * The found summaries are those of the listed ids the store has, and only
   * those: at most one per id, and none when the store has none of them.
   */
  lemma {:induction false} FoundSummariesMembers(ids: seq<RemoteId>, summaries: map<RemoteId, OrderSummary>)
    ensures |FoundSummaries(ids, summaries)| <= |ids|
    ensures forall i :: 0 <= i < |ids| && ids[i] in summaries ==> summaries[ids[i]] in FoundSummaries(ids, summaries)
    ensures forall s :: s in FoundSummaries(ids, summaries) ==>
      exists i :: 0 <= i < |ids| && ids[i] in summaries && summaries[ids[i]] == s
    ensures (forall i :: 0 <= i < |ids| ==> ids[i] !in summaries) ==> FoundSummaries(ids, summaries) == []
    decreases |ids|
  {
    if ids != [] {
      var pre := ids[..|ids| - 1];
      FoundSummariesMembers(pre, summaries);
      assert forall i :: 0 <= i < |pre| ==> pre[i] == ids[i];
    }
  }

  /** The positions in `ids` of the ids the store has a summary for, in increasing order. */
  function FoundIndices(ids: seq<RemoteId>, summaries: map<RemoteId, OrderSummary>): seq<nat>
    decreases |ids|
  {
    if ids == [] then []
    else FoundIndices(ids[..|ids| - 1], summaries) + (if ids[|ids| - 1] in summaries then [|ids| - 1] else [])
  }

  /**
   * The found summaries keep the order of the requested ids: the `k`-th is the
   * summary of the id at the `k`-th of a strictly increasing run of positions,
   * which covers every position whose id the store has.
   */
  lemma {:induction false} FoundKeepsIdOrder(ids: seq<RemoteId>, summaries: map<RemoteId, OrderSummary>)
    ensures |FoundIndices(ids, summaries)| == |FoundSummaries(ids, summaries)|
    ensures forall k :: 0 <= k < |FoundIndices(ids, summaries)| ==>
      && FoundIndices(ids, summaries)[k] < |ids|
      && ids[FoundIndices(ids, summaries)[k]] in summaries
      && FoundSummaries(ids, summaries)[k] == summaries[ids[FoundIndices(ids, summaries)[k]]]
    ensures forall k, l :: 0 <= k < l < |FoundIndices(ids, summaries)| ==>
      FoundIndices(ids, summaries)[k] < FoundIndices(ids, summaries)[l]
    ensures forall i :: 0 <= i < |ids| && ids[i] in summaries ==> i in FoundIndices(ids, summaries)
    decreases |ids|
  {
    if ids != [] {
      var pre := ids[..|ids| - 1];
      var n := |ids| - 1;
      FoundKeepsIdOrder(pre, summaries);
      assert forall i :: 0 <= i < |pre| ==> pre[i] == ids[i];
      if ids[n] in summaries {
        assert FoundIndices(ids, summaries) == FoundIndices(pre, summaries) + [n];
        assert FoundSummaries(ids, summaries) == FoundSummaries(pre, summaries) + [summaries[ids[n]]];
      } else {
        assert FoundIndices(ids, summaries) == FoundIndices(pre, summaries);
        assert FoundSummaries(ids, summaries) == FoundSummaries(pre, summaries);
      }
    }
  }

  /** `mapToRemoteOrderIdentifier`. */
  function Identify(s: OrderSummary): ItemIdentifier {
    OrderIdentifier(RemoteId(s.remoteOrderId))
  }

  /** A summary after classification: its id and the group its date falls in. */
  datatype Filed = Filed(id: RemoteId, group: TimeGroup)

  /** The group an order's summary is filed under, with its identifier. */
  function Classify(c: Clock, parse: string -> Option<int>, s: OrderSummary): Filed {
    Filed(RemoteId(s.remoteOrderId), GroupOf(c, parse, s))
  }

  /** The `forEach` of `getItemIdentifiers`: every found summary with its group, in order. */
  function Filing(c: Clock, parse: string -> Option<int>, found: seq<OrderSummary>): (r: seq<Filed>)
    ensures |r| == |found|
    ensures forall i :: 0 <= i < |found| ==> r[i] == Classify(c, parse, found[i])
    decreases |found|
  {
    if found == [] then []
    else
      var pre := found[..|found| - 1];
      assert forall i :: 0 <= i < |pre| ==> pre[i] == found[i];
      Filing(c, parse, pre) + [Classify(c, parse, found[|found| - 1])]
  }

  /**
   * The bucket of group `g`: the identifiers of the entries filed under `g`,
   * in their original order.
   */
  function Bucket(filed: seq<Filed>, g: TimeGroup): seq<ItemIdentifier>
    decreases |filed|
  {
    if filed == [] then []
    else
      var f := filed[|filed| - 1];
      Bucket(filed[..|filed| - 1], g) + (if f.group == g then [OrderIdentifier(f.id)] else [])
  }

  /**
   * The bucket of `g` holds the identifier of every entry filed under `g` and
   * nothing else.
   */
  lemma {:induction false} BucketMembers(filed: seq<Filed>, g: TimeGroup)
    ensures forall i :: 0 <= i < |filed| && filed[i].group == g ==> OrderIdentifier(filed[i].id) in Bucket(filed, g)
    ensures forall x :: x in Bucket(filed, g) ==>
      exists i :: 0 <= i < |filed| && filed[i].group == g && x == OrderIdentifier(filed[i].id)
    decreases |filed|
  {
    if filed != [] {
      var pre := filed[..|filed| - 1];
      var tail := if filed[|filed| - 1].group == g then [OrderIdentifier(filed[|filed| - 1].id)] else [];
      BucketMembers(pre, g);
      assert Bucket(filed, g) == Bucket(pre, g) + tail;
      forall i | 0 <= i < |filed| && filed[i].group == g ensures OrderIdentifier(filed[i].id) in Bucket(filed, g) {
        if i < |pre| {
          assert pre[i] == filed[i];
        }
      }
      forall x | x in Bucket(filed, g)
        ensures exists i :: 0 <= i < |filed| && filed[i].group == g && x == OrderIdentifier(filed[i].id)
      {
        if x in Bucket(pre, g) {
          var i :| 0 <= i < |pre| && pre[i].group == g && x == OrderIdentifier(pre[i].id);
          assert filed[i] == pre[i];
        } else {
          assert x in tail;
        }
      }
    }
  }

  /** The positions in `filed` of the entries filed under `g`, in increasing order. */
  function BucketIndices(filed: seq<Filed>, g: TimeGroup): seq<nat>
    decreases |filed|
  {
    if filed == [] then []
    else
      BucketIndices(filed[..|filed| - 1], g) + (if filed[|filed| - 1].group == g then [|filed| - 1] else [])
  }

  /**
   * The bucket of `g` lists the entries filed under `g` in the order they were
   * filed: its `k`-th element is the entry at the `k`-th of a strictly
   * increasing run of positions, which covers every entry filed under `g`.
   */
  lemma {:induction false} BucketKeepsOrder(filed: seq<Filed>, g: TimeGroup)
    ensures |BucketIndices(filed, g)| == |Bucket(filed, g)|
    ensures forall k :: 0 <= k < |BucketIndices(filed, g)| ==>
      && BucketIndices(filed, g)[k] < |filed|
      && filed[BucketIndices(filed, g)[k]].group == g
      && Bucket(filed, g)[k] == OrderIdentifier(filed[BucketIndices(filed, g)[k]].id)
    ensures forall k, l :: 0 <= k < l < |BucketIndices(filed, g)| ==> BucketIndices(filed, g)[k] < BucketIndices(filed, g)[l]
    ensures forall i :: 0 <= i < |filed| && filed[i].group == g ==> i in BucketIndices(filed, g)
    decreases |filed|
  {
    if filed != [] {
      var pre := filed[..|filed| - 1];
      var n := |filed| - 1;
      BucketKeepsOrder(pre, g);
      assert forall i :: 0 <= i < |pre| ==> pre[i] == filed[i];
      var idx := BucketIndices(pre, g);
      if filed[n].group == g {
        assert BucketIndices(filed, g) == idx + [n];
        assert Bucket(filed, g) == Bucket(pre, g) + [OrderIdentifier(filed[n].id)];
      } else {
        assert BucketIndices(filed, g) == idx;
        assert Bucket(filed, g) == Bucket(pre, g);
      }
    }
  }

  /** The identifier of every entry, in order. */
  function Identifiers(filed: seq<Filed>): seq<ItemIdentifier>
    decreases |filed|
  {
    if filed == [] then []
    else Identifiers(filed[..|filed| - 1]) + [OrderIdentifier(filed[|filed| - 1].id)]
  }

  lemma {:induction false} IdentifiersAt(filed: seq<Filed>)
    ensures |Identifiers(filed)| == |filed|
    ensures forall i :: 0 <= i < |filed| ==> Identifiers(filed)[i] == OrderIdentifier(filed[i].id)
    decreases |filed|
  {
    if filed != [] {
      var pre := filed[..|filed| - 1];
      IdentifiersAt(pre);
      assert forall i :: 0 <= i < |pre| ==> pre[i] == filed[i];
    }
  }

  /** The contents of the five buckets together. */
  function AllBuckets(filed: seq<Filed>): multiset<ItemIdentifier> {
    multiset(Bucket(filed, GroupToday)) + multiset(Bucket(filed, GroupYesterday)) +
    multiset(Bucket(filed, GroupOlderTwoDays)) + multiset(Bucket(filed, GroupOlderWeek)) +
    multiset(Bucket(filed, GroupOlderMonth))
  }

  /** The buckets of `filed`, newest group first. */
  function BucketList(filed: seq<Filed>): seq<seq<ItemIdentifier>> {
    [Bucket(filed, GroupToday), Bucket(filed, GroupYesterday), Bucket(filed, GroupOlderTwoDays),
     Bucket(filed, GroupOlderWeek), Bucket(filed, GroupOlderMonth)]
  }

  /** Adding one element to one of five parts adds it to their sum. */
  lemma SumWithOneMore(p: seq<seq<ItemIdentifier>>, q: seq<seq<ItemIdentifier>>, j: nat, x: ItemIdentifier)
    requires |p| == |q| == 5 && j < 5
    requires q[j] == p[j] + [x]
    requires forall k :: 0 <= k < 5 && k != j ==> q[k] == p[k]
    ensures multiset(q[0]) + multiset(q[1]) + multiset(q[2]) + multiset(q[3]) + multiset(q[4]) ==
            multiset(p[0]) + multiset(p[1]) + multiset(p[2]) + multiset(p[3]) + multiset(p[4]) + multiset{x}
  {
    assert multiset(q[j]) == multiset(p[j]) + multiset{x};
    if j == 0 {
      assert q[1] == p[1] && q[2] == p[2] && q[3] == p[3] && q[4] == p[4];
    } else if j == 1 {
      assert q[0] == p[0] && q[2] == p[2] && q[3] == p[3] && q[4] == p[4];
    } else if j == 2 {
      assert q[0] == p[0] && q[1] == p[1] && q[3] == p[3] && q[4] == p[4];
    } else if j == 3 {
      assert q[0] == p[0] && q[1] == p[1] && q[2] == p[2] && q[4] == p[4];
    } else {
      assert q[0] == p[0] && q[1] == p[1] && q[2] == p[2] && q[3] == p[3];
    }
  }

  lemma AllBucketsAppend(filed: seq<Filed>, f: Filed)
    ensures AllBuckets(filed + [f]) == AllBuckets(filed) + multiset{OrderIdentifier(f.id)}
  {
    var p := BucketList(filed);
    var q := BucketList(filed + [f]);
    BucketsAppend(filed, f);
    var j := Rank(f.group);
    assert forall k :: 0 <= k < 5 ==> p[k] == Bucket(filed, ALL_GROUPS[k]) && q[k] == Bucket(filed + [f], ALL_GROUPS[k]);
    AllGroupsInOrder(f.group);
    assert ALL_GROUPS[j] == f.group;
    SumWithOneMore(p, q, j, OrderIdentifier(f.id));
  }

  /** The five buckets hold every entry's identifier exactly as often as the entries do. */
  lemma {:induction false} BucketsPartitionEntries(filed: seq<Filed>)
    ensures AllBuckets(filed) == multiset(Identifiers(filed))
    decreases |filed|
  {
    if filed != [] {
      var pre := filed[..|filed| - 1];
      var f := filed[|filed| - 1];
      BucketsPartitionEntries(pre);
      assert filed == pre + [f];
      AllBucketsAppend(pre, f);
    }
  }

  /** A header followed by its bucket, or nothing for an empty bucket. */
  function Section(bucket: seq<ItemIdentifier>, g: TimeGroup): seq<ItemIdentifier> {
    if bucket == [] then [] else [SectionHeaderIdentifier(g)] + bucket
  }

  const ALL_GROUPS: seq<TimeGroup> := [GroupToday, GroupYesterday, GroupOlderTwoDays, GroupOlderWeek, GroupOlderMonth]

  /** The sections of the given groups, in that order. */
  function Sections(filed: seq<Filed>, groups: seq<TimeGroup>): seq<ItemIdentifier>
    decreases |groups|
  {
    if groups == [] then []
    else
      var g := groups[|groups| - 1];
      Sections(filed, groups[..|groups| - 1]) + Section(Bucket(filed, g), g)
  }

  /** The buckets of the given groups one after the other. */
  function Concat(filed: seq<Filed>, groups: seq<TimeGroup>): seq<ItemIdentifier>
    decreases |groups|
  {
    if groups == [] then []
    else Concat(filed, groups[..|groups| - 1]) + Bucket(filed, groups[|groups| - 1])
  }

  /** The groups whose bucket is not empty, in the given order. */
  function NonEmptyGroups(filed: seq<Filed>, groups: seq<TimeGroup>): seq<TimeGroup>
    decreases |groups|
  {
    if groups == [] then []
    else
      var g := groups[|groups| - 1];
      NonEmptyGroups(filed, groups[..|groups| - 1]) + (if Bucket(filed, g) != [] then [g] else [])
  }

  /** `getItemIdentifiers` as a function of the found summaries. */
  function Layout(c: Clock, parse: string -> Option<int>, found: seq<OrderSummary>): seq<ItemIdentifier> {
    Sections(Filing(c, parse, found), ALL_GROUPS)
  }

  /** The titles of the headers in a list, in order. */
  function HeaderTitles(items: seq<ItemIdentifier>): seq<TimeGroup>
    decreases |items|
  {
    if items == [] then []
    else
      var x := items[|items| - 1];
      HeaderTitles(items[..|items| - 1]) + (if x.SectionHeaderIdentifier? then [x.title] else [])
  }

  /** The order identifiers of a list, in order. */
  function Orders(items: seq<ItemIdentifier>): seq<ItemIdentifier>
    decreases |items|
  {
    if items == [] then []
    else
      var x := items[|items| - 1];
      Orders(items[..|items| - 1]) + (if x.OrderIdentifier? then [x] else [])
  }

  lemma {:induction false} HeaderTitlesDistribute(a: seq<ItemIdentifier>, b: seq<ItemIdentifier>)
    ensures HeaderTitles(a + b) == HeaderTitles(a) + HeaderTitles(b)
    decreases |b|
  {
    if b == [] {
      assert a + b == a;
    } else {
      var b' := b[..|b| - 1];
      HeaderTitlesDistribute(a, b');
      assert (a + b)[..|a + b| - 1] == a + b';
    }
  }

  lemma {:induction false} OrdersDistribute(a: seq<ItemIdentifier>, b: seq<ItemIdentifier>)
    ensures Orders(a + b) == Orders(a) + Orders(b)
    decreases |b|
  {
    if b == [] {
      assert a + b == a;
    } else {
      var b' := b[..|b| - 1];
      OrdersDistribute(a, b');
      assert (a + b)[..|a + b| - 1] == a + b';
    }
  }

  /** A bucket holds order identifiers only. */
  lemma {:induction false} BucketHoldsOrders(filed: seq<Filed>, g: TimeGroup)
    ensures HeaderTitles(Bucket(filed, g)) == []
    ensures Orders(Bucket(filed, g)) == Bucket(filed, g)
    decreases |filed|
  {
    if filed != [] {
      var pre := filed[..|filed| - 1];
      var f := filed[|filed| - 1];
      var tail := if f.group == g then [OrderIdentifier(f.id)] else [];
      BucketHoldsOrders(pre, g);
      HeaderTitlesDistribute(Bucket(pre, g), tail);
      OrdersDistribute(Bucket(pre, g), tail);
      assert HeaderTitles(tail) == [] && Orders(tail) == tail by {
        if tail != [] { assert tail[..0] == []; }
      }
    }
  }

  /** The headers of the sections are exactly the groups with a non-empty bucket, in the order of the groups. */
  lemma {:induction false} SectionHeaders(filed: seq<Filed>, groups: seq<TimeGroup>)
    ensures HeaderTitles(Sections(filed, groups)) == NonEmptyGroups(filed, groups)
    decreases |groups|
  {
    if groups != [] {
      var pre := groups[..|groups| - 1];
      var g := groups[|groups| - 1];
      var b := Bucket(filed, g);
      SectionHeaders(filed, pre);
      HeaderTitlesDistribute(Sections(filed, pre), Section(b, g));
      if b != [] {
        BucketHoldsOrders(filed, g);
        HeaderTitlesDistribute([SectionHeaderIdentifier(g)], b);
        assert [SectionHeaderIdentifier(g)][..0] == [];
      }
    }
  }

  /** The order identifiers of the sections are the buckets one after the other. */
  lemma {:induction false} SectionOrders(filed: seq<Filed>, groups: seq<TimeGroup>)
    ensures Orders(Sections(filed, groups)) == Concat(filed, groups)
    decreases |groups|
  {
    if groups != [] {
      var pre := groups[..|groups| - 1];
      var g := groups[|groups| - 1];
      var b := Bucket(filed, g);
      SectionOrders(filed, pre);
      OrdersDistribute(Sections(filed, pre), Section(b, g));
      BucketHoldsOrders(filed, g);
      if b != [] {
        OrdersDistribute([SectionHeaderIdentifier(g)], b);
        assert [SectionHeaderIdentifier(g)][..0] == [];
      }
    }
  }

  /** Every item is a header or an order. */
  lemma {:induction false} HeadersPlusOrders(items: seq<ItemIdentifier>)
    ensures |items| == |HeaderTitles(items)| + |Orders(items)|
    decreases |items|
  {
    if items != [] {
      HeadersPlusOrders(items[..|items| - 1]);
    }
  }

  /** The five buckets in their fixed order. */
  lemma ConcatAll(filed: seq<Filed>)
    ensures Concat(filed, ALL_GROUPS) ==
      Bucket(filed, GroupToday) + Bucket(filed, GroupYesterday) + Bucket(filed, GroupOlderTwoDays) +
      Bucket(filed, GroupOlderWeek) + Bucket(filed, GroupOlderMonth)
  {
    var g1 := [GroupToday];
    var g2 := g1 + [GroupYesterday];
    var g3 := g2 + [GroupOlderTwoDays];
    var g4 := g3 + [GroupOlderWeek];
    assert g1[..0] == [] && g2[..1] == g1 && g3[..2] == g2 && g4[..3] == g3;
    assert Concat(filed, g1) == Bucket(filed, GroupToday);
    assert Concat(filed, g2) == Concat(filed, g1) + Bucket(filed, GroupYesterday);
    assert Concat(filed, g3) == Concat(filed, g2) + Bucket(filed, GroupOlderTwoDays);
    assert Concat(filed, g4) == Concat(filed, g3) + Bucket(filed, GroupOlderWeek);
    assert ALL_GROUPS[..4] == g4;
    assert Concat(filed, ALL_GROUPS) == Concat(filed, g4) + Bucket(filed, GroupOlderMonth);
  }

  /** The five buckets together are as long as the entries: each entry is in exactly one of them. */
  lemma {:induction false} BucketsPartition(filed: seq<Filed>)
    ensures |Bucket(filed, GroupToday)| + |Bucket(filed, GroupYesterday)| + |Bucket(filed, GroupOlderTwoDays)| +
            |Bucket(filed, GroupOlderWeek)| + |Bucket(filed, GroupOlderMonth)| == |filed|
    decreases |filed|
  {
    if filed != [] {
      BucketsPartition(filed[..|filed| - 1]);
    }
  }

  lemma {:induction false} NonEmptyGroupsMembers(filed: seq<Filed>, groups: seq<TimeGroup>, g: TimeGroup)
    ensures g in NonEmptyGroups(filed, groups) <==> g in groups && Bucket(filed, g) != []
    decreases |groups|
  {
    if groups != [] {
      var pre := groups[..|groups| - 1];
      NonEmptyGroupsMembers(filed, pre, g);
      assert groups == pre + [groups[|groups| - 1]];
    }
  }

  predicate RankIncreasing(gs: seq<TimeGroup>) {
    forall i, j :: 0 <= i < j < |gs| ==> Rank(gs[i]) < Rank(gs[j])
  }

  /** The five groups, each once, newest first. */
  lemma AllGroupsInOrder(g: TimeGroup)
    ensures g in ALL_GROUPS
    ensures RankIncreasing(ALL_GROUPS)
  {
    assert forall k :: 0 <= k < |ALL_GROUPS| ==> Rank(ALL_GROUPS[k]) == k;
    match g {
      case GroupToday => assert ALL_GROUPS[0] == g;
      case GroupYesterday => assert ALL_GROUPS[1] == g;
      case GroupOlderTwoDays => assert ALL_GROUPS[2] == g;
      case GroupOlderWeek => assert ALL_GROUPS[3] == g;
      case GroupOlderMonth => assert ALL_GROUPS[4] == g;
    }
  }

  lemma {:induction false} NonEmptyGroupsInRankOrder(filed: seq<Filed>, groups: seq<TimeGroup>)
    requires RankIncreasing(groups)
    ensures RankIncreasing(NonEmptyGroups(filed, groups))
    decreases |groups|
  {
    if groups != [] {
      var pre := groups[..|groups| - 1];
      var last := groups[|groups| - 1];
      assert RankIncreasing(pre) by {
        forall i, j | 0 <= i < j < |pre| ensures Rank(pre[i]) < Rank(pre[j]) {
          assert pre[i] == groups[i] && pre[j] == groups[j];
        }
      }
      NonEmptyGroupsInRankOrder(filed, pre);
      var ne := NonEmptyGroups(filed, pre);
      forall g | g in ne ensures Rank(g) < Rank(last) {
        NonEmptyGroupsMembers(filed, pre, g);
        var k :| 0 <= k < |pre| && pre[k] == g;
        assert groups[k] == g;
      }
      var r := NonEmptyGroups(filed, groups);
      forall i, j | 0 <= i < j < |r| ensures Rank(r[i]) < Rank(r[j]) {
        if j == |ne| {
          assert r[i] == ne[i];
          assert ne[i] in ne;
        } else {
          assert r[i] == ne[i] && r[j] == ne[j];
        }
      }
    }
  }

  /** The layout has one order entry per filed entry and, besides, only headers. */
  lemma LayoutCounts(filed: seq<Filed>)
    ensures |Orders(Sections(filed, ALL_GROUPS))| == |filed|
    ensures |Sections(filed, ALL_GROUPS)| == |filed| + |HeaderTitles(Sections(filed, ALL_GROUPS))|
  {
    SectionOrders(filed, ALL_GROUPS);
    ConcatAll(filed);
    BucketsPartition(filed);
    HeadersPlusOrders(Sections(filed, ALL_GROUPS));
  }

  /** Every order entry of the layout is the identifier of a filed entry, and every filed entry is in its group's bucket. */
  lemma LayoutOrders(filed: seq<Filed>)
    ensures forall i :: 0 <= i < |filed| ==> OrderIdentifier(filed[i].id) in Bucket(filed, filed[i].group)
    ensures forall x :: x in Orders(Sections(filed, ALL_GROUPS)) ==>
      exists i :: 0 <= i < |filed| && x == OrderIdentifier(filed[i].id)
  {
    forall i | 0 <= i < |filed| ensures OrderIdentifier(filed[i].id) in Bucket(filed, filed[i].group) {
      BucketMembers(filed, filed[i].group);
    }
    var orders := Orders(Sections(filed, ALL_GROUPS));
    SectionOrders(filed, ALL_GROUPS);
    ConcatAll(filed);
    forall x | x in orders ensures exists i :: 0 <= i < |filed| && x == OrderIdentifier(filed[i].id) {
      var g :| g in ALL_GROUPS && x in Bucket(filed, g);
      BucketMembers(filed, g);
    }
  }

  /**
   * A group has a header exactly when some entry is filed under it, and the
   * headers are in the fixed order Today, Yesterday, two days, week, month.
   */
  lemma LayoutHeaders(filed: seq<Filed>)
    ensures forall g :: g in HeaderTitles(Sections(filed, ALL_GROUPS)) <==>
      exists i :: 0 <= i < |filed| && filed[i].group == g
    ensures RankIncreasing(HeaderTitles(Sections(filed, ALL_GROUPS)))
  {
    SectionHeaders(filed, ALL_GROUPS);
    AllGroupsInOrder(GroupToday);
    NonEmptyGroupsInRankOrder(filed, ALL_GROUPS);
    forall g ensures g in NonEmptyGroups(filed, ALL_GROUPS) <==> exists i :: 0 <= i < |filed| && filed[i].group == g {
      NonEmptyGroupsMembers(filed, ALL_GROUPS, g);
      BucketMembers(filed, g);
      AllGroupsInOrder(g);
      if Bucket(filed, g) != [] {
        assert Bucket(filed, g)[0] in Bucket(filed, g);
      }
    }
  }

  /** The order entries of the layout hold every entry's identifier exactly as often as the entries do. */
  lemma LayoutEntries(filed: seq<Filed>)
    ensures multiset(Orders(Sections(filed, ALL_GROUPS))) == multiset(Identifiers(filed))
  {
    SectionOrders(filed, ALL_GROUPS);
    ConcatAll(filed);
    BucketsPartitionEntries(filed);
  }

  /** The identifiers of the found summaries, in order. */
  function IdentifyAll(found: seq<OrderSummary>): seq<ItemIdentifier> {
    seq(|found|, i requires 0 <= i < |found| => Identify(found[i]))
  }

  /**
   * The layout of `getItemIdentifiers`: each found order exactly once (as
   * often as it was found), under the group of its date; one header per
   * group that has orders, in the fixed order Today, Yesterday, two days,
   * week, month.
   */
  lemma LayoutShape(c: Clock, parse: string -> Option<int>, found: seq<OrderSummary>)
    ensures multiset(Orders(Layout(c, parse, found))) == multiset(IdentifyAll(found))
    ensures forall i :: 0 <= i < |found| ==> Identify(found[i]) in Orders(Layout(c, parse, found))
    ensures |Layout(c, parse, found)| == |found| + |HeaderTitles(Layout(c, parse, found))|
    ensures forall i :: 0 <= i < |found| ==>
      Identify(found[i]) in Bucket(Filing(c, parse, found), GroupOf(c, parse, found[i]))
    ensures forall g :: g in HeaderTitles(Layout(c, parse, found)) <==>
      exists i :: 0 <= i < |found| && GroupOf(c, parse, found[i]) == g
    ensures RankIncreasing(HeaderTitles(Layout(c, parse, found)))
  {
    var filed := Filing(c, parse, found);
    assert forall i :: 0 <= i < |found| ==>
      filed[i].group == GroupOf(c, parse, found[i]) && OrderIdentifier(filed[i].id) == Identify(found[i]);
    LayoutCounts(filed);
    LayoutOrders(filed);
    LayoutHeaders(filed);
    LayoutEntries(filed);
    IdentifiersAt(filed);
    assert Identifiers(filed) == IdentifyAll(found);
    forall i | 0 <= i < |found| ensures Identify(found[i]) in Orders(Layout(c, parse, found)) {
      assert IdentifyAll(found)[i] == Identify(found[i]);
      assert Identify(found[i]) in multiset(IdentifyAll(found));
    }
  }

  /**
   * The section of group `g`: when `g` has orders, its header comes right after
   * the sections of the newer groups and is followed by its bucket, which lists
   * exactly the found orders of group `g`, in the order they were found.
   */
  lemma SectionInFoundOrder(c: Clock, parse: string -> Option<int>, found: seq<OrderSummary>, g: TimeGroup)
    ensures Bucket(Filing(c, parse, found), g) != [] ==>
      Sections(Filing(c, parse, found), ALL_GROUPS[..Rank(g)]) +
        ([SectionHeaderIdentifier(g)] + Bucket(Filing(c, parse, found), g)) <= Layout(c, parse, found)
    ensures |BucketIndices(Filing(c, parse, found), g)| == |Bucket(Filing(c, parse, found), g)|
    ensures forall k :: 0 <= k < |BucketIndices(Filing(c, parse, found), g)| ==>
      && BucketIndices(Filing(c, parse, found), g)[k] < |found|
      && GroupOf(c, parse, found[BucketIndices(Filing(c, parse, found), g)[k]]) == g
      && Bucket(Filing(c, parse, found), g)[k] == Identify(found[BucketIndices(Filing(c, parse, found), g)[k]])
    ensures forall k, l :: 0 <= k < l < |BucketIndices(Filing(c, parse, found), g)| ==>
      BucketIndices(Filing(c, parse, found), g)[k] < BucketIndices(Filing(c, parse, found), g)[l]
    ensures forall i :: 0 <= i < |found| && GroupOf(c, parse, found[i]) == g ==>
      i in BucketIndices(Filing(c, parse, found), g)
  {
    var filed := Filing(c, parse, found);
    BucketKeepsOrder(filed, g);
    AllGroupsInOrder(g);
    assert ALL_GROUPS[Rank(g)] == g;
    if Bucket(filed, g) != [] {
      SectionPlacement(filed, ALL_GROUPS, Rank(g));
    }
  }

  /**
   * Across both steps of `getItemIdentifiers`, the orders of one group keep the
   * relative order of `remoteItemIds`: the `k`-th order of the group's bucket
   * is the summary of a requested id, at a position that grows with `k`.
   */
  lemma GroupKeepsIdOrder(c: Clock, parse: string -> Option<int>, ids: seq<RemoteId>,
                          summaries: map<RemoteId, OrderSummary>, g: TimeGroup)
    ensures var found := FoundSummaries(ids, summaries);
      var idx := BucketIndices(Filing(c, parse, found), g);
      var pos := FoundIndices(ids, summaries);
      && |idx| == |Bucket(Filing(c, parse, found), g)|
      && (forall k :: 0 <= k < |idx| ==>
            && idx[k] < |pos| && pos[idx[k]] < |ids| && ids[pos[idx[k]]] in summaries
            && Bucket(Filing(c, parse, found), g)[k] == Identify(summaries[ids[pos[idx[k]]]]))
      && (forall k, l :: 0 <= k < l < |idx| ==> pos[idx[k]] < pos[idx[l]])
  {
    var found := FoundSummaries(ids, summaries);
    SectionInFoundOrder(c, parse, found, g);
    FoundKeepsIdOrder(ids, summaries);
  }

  /**
   * Each non-empty bucket sits right after its own header, which comes right
   * after the sections of the groups before it.
   */
  lemma SectionPlacement(filed: seq<Filed>, groups: seq<TimeGroup>, k: nat)
    requires k < |groups|
    requires Bucket(filed, groups[k]) != []
    ensures Sections(filed, groups[..k]) + ([SectionHeaderIdentifier(groups[k])] + Bucket(filed, groups[k]))
      <= Sections(filed, groups)
  {
    SectionsPrefix(filed, groups, k + 1);
    assert groups[..k + 1][..k] == groups[..k];
  }

  /** The sections of a prefix of the groups are a prefix of the sections of all of them. */
  lemma {:induction false} SectionsPrefix(filed: seq<Filed>, groups: seq<TimeGroup>, k: nat)
    requires k <= |groups|
    ensures Sections(filed, groups[..k]) <= Sections(filed, groups)
    decreases |groups| - k
  {
    if k < |groups| {
      SectionsPrefix(filed, groups, k + 1);
      assert groups[..k + 1][..k] == groups[..k];
    } else {
      assert groups[..k] == groups;
    }
  }

  /** Any sequence that classifies each summary in place is the filing. */
  lemma FilingIsClassification(c: Clock, parse: string -> Option<int>, found: seq<OrderSummary>, filed: seq<Filed>)
    requires |filed| == |found|
    requires forall k :: 0 <= k < |found| ==> filed[k] == Classify(c, parse, found[k])
    ensures filed == Filing(c, parse, found)
  {
  }

  /** One more entry extends the bucket of its own group and no other. */
  lemma BucketsAppend(filed: seq<Filed>, f: Filed)
    ensures Bucket(filed + [f], f.group) == Bucket(filed, f.group) + [OrderIdentifier(f.id)]
    ensures forall g | g != f.group :: Bucket(filed + [f], g) == Bucket(filed, g)
  {
    assert (filed + [f])[..|filed|] == filed;
  }

  /** The layout written out as the five sections in their fixed order. */
  lemma LayoutUnfolds(filed: seq<Filed>)
    ensures Sections(filed, ALL_GROUPS) ==
      Section(Bucket(filed, GroupToday), GroupToday) +
      Section(Bucket(filed, GroupYesterday), GroupYesterday) +
      Section(Bucket(filed, GroupOlderTwoDays), GroupOlderTwoDays) +
      Section(Bucket(filed, GroupOlderWeek), GroupOlderWeek) +
      Section(Bucket(filed, GroupOlderMonth), GroupOlderMonth)
  {
    var g1 := [GroupToday];
    var g2 := g1 + [GroupYesterday];
    var g3 := g2 + [GroupOlderTwoDays];
    var g4 := g3 + [GroupOlderWeek];
    assert g1[..0] == [] && g2[..1] == g1 && g3[..2] == g2 && g4[..3] == g3;
    assert Sections(filed, g1) == Section(Bucket(filed, GroupToday), GroupToday);
    assert Sections(filed, g2) == Sections(filed, g1) + Section(Bucket(filed, GroupYesterday), GroupYesterday);
    assert Sections(filed, g3) == Sections(filed, g2) + Section(Bucket(filed, GroupOlderTwoDays), GroupOlderTwoDays);
    assert Sections(filed, g4) == Sections(filed, g3) + Section(Bucket(filed, GroupOlderWeek), GroupOlderWeek);
    assert ALL_GROUPS[..4] == g4;
    assert Sections(filed, ALL_GROUPS) == Sections(filed, g4) + Section(Bucket(filed, GroupOlderMonth), GroupOlderMonth);
  }

  // ----- getItemsAndFetchIfNecessary -----

  /** `itemIdentifiers.mapNotNull { (it as? OrderIdentifier)?.remoteId }`. */
  function RemoteIdsOf(identifiers: seq<ItemIdentifier>): (r: seq<RemoteId>)
    ensures |r| <= |identifiers|
    ensures forall id :: id in r <==> OrderIdentifier(id) in identifiers
    decreases |identifiers|
  {
    if identifiers == [] then []
    else
      var pre := identifiers[..|identifiers| - 1];
      var last := identifiers[|identifiers| - 1];
      assert identifiers == pre + [last];
      RemoteIdsOf(pre) + (if last.OrderIdentifier? then [last.remoteId] else [])
  }

  /** `remoteItemIds.filter { !ordersMap.containsKey(it) }`: the ids to fetch, in order. */
  function MissingIds(ids: seq<RemoteId>, orders: map<RemoteId, Order>): (r: seq<RemoteId>)
    ensures |r| <= |ids|
    ensures forall id :: id in r <==> id in ids && id !in orders
    decreases |ids|
  {
    if ids == [] then []
    else
      var pre := ids[..|ids| - 1];
      var last := ids[|ids| - 1];
      assert ids == pre + [last];
      MissingIds(pre, orders) + (if last !in orders then [last] else [])
  }

  /**
   * The ids are taken in list order: collecting over two lists one after the
   * other is collecting over each and concatenating, so no id moves ahead of
   * one listed before it.
   */
  lemma {:induction false} RemoteIdsOfAppend(a: seq<ItemIdentifier>, b: seq<ItemIdentifier>)
    ensures RemoteIdsOf(a + b) == RemoteIdsOf(a) + RemoteIdsOf(b)
    decreases |b|
  {
    if b == [] {
      assert a + b == a;
    } else {
      var pre := b[..|b| - 1];
      var last := b[|b| - 1];
      assert b == pre + [last];
      assert a + b == (a + pre) + [last];
      assert (a + b)[..|a + b| - 1] == a + pre;
      RemoteIdsOfAppend(a, pre);
    }
  }

  /** `MissingIds` on a list with one more id: the missing ids so far, then that id if the store lacks it. */
  lemma MissingIdsSnoc(ids: seq<RemoteId>, x: RemoteId, orders: map<RemoteId, Order>)
    ensures MissingIds(ids + [x], orders) == MissingIds(ids, orders) + (if x !in orders then [x] else [])
  {
    assert (ids + [x])[..|ids + [x]| - 1] == ids;
  }

  /** The ids to fetch keep the order of the listed ids, the same way. */
  lemma {:induction false} MissingIdsAppend(a: seq<RemoteId>, b: seq<RemoteId>, orders: map<RemoteId, Order>)
    ensures MissingIds(a + b, orders) == MissingIds(a, orders) + MissingIds(b, orders)
    decreases |b|
  {
    if b == [] {
      assert a + b == a;
    } else {
      var pre := b[..|b| - 1];
      var last := b[|b| - 1];
      assert b == pre + [last];
      assert a + b == (a + pre) + [last];
      var tail := if last !in orders then [last] else [];
      calc {
        MissingIds(a + b, orders);
        { MissingIdsSnoc(a + pre, last, orders); }
        MissingIds(a + pre, orders) + tail;
        { MissingIdsAppend(a, pre, orders); }
        MissingIds(a, orders) + MissingIds(pre, orders) + tail;
        { MissingIdsSnoc(pre, last, orders); }
        MissingIds(a, orders) + MissingIds(b, orders);
      }
    }
  }

  /** The `orderName` of a listed order: first name, a space, last name. */
  function OrderName(o: Order): string {
    o.billingFirstName + " " + o.billingLastName
  }

  /** The text before the first space and the text after it. */
  function SplitName(name: string): (string, string)
    decreases |name|
  {
    if name == [] then ([], [])
    else if name[0] == ' ' then ([], name[1..])
    else
      var (first, last) := SplitName(name[1..]);
      ([name[0]] + first, last)
  }

  /** A first name without a space can be read back from `orderName`, and so can the last name. */
  lemma {:induction false} OrderNameRoundTrip(o: Order)
    requires ' ' !in o.billingFirstName
    ensures SplitName(OrderName(o)) == (o.billingFirstName, o.billingLastName)
  {
    NameSplitsAtSpace(o.billingFirstName, o.billingLastName);
  }

  lemma {:induction false} NameSplitsAtSpace(first: string, last: string)
    requires ' ' !in first
    ensures SplitName(first + " " + last) == (first, last)
    decreases |first|
  {
    if first == [] {
      assert first + " " + last == [' '] + last;
      assert ([' '] + last)[1..] == last;
    } else {
      NameSplitsAtSpace(first[1..], last);
      assert (first + " " + last)[1..] == first[1..] + " " + last;
      assert [first[0]] + first[1..] == first;
    }
  }

  /** `mapSummary`: the stored order, or a placeholder while it loads. */
  function MapSummary(id: RemoteId, orders: map<RemoteId, Order>): ItemUIType {
    if id !in orders then LoadingItem(id)
    else
      var o := orders[id];
      WCOrderListUIItem(RemoteId(o.remoteOrderId), o.number, o.status, OrderName(o), o.total)
  }

  /** One element of the `map` of `getItemsAndFetchIfNecessary`. */
  function ItemFor(identifier: ItemIdentifier, orders: map<RemoteId, Order>): ItemUIType {
    match identifier
    case OrderIdentifier(id) => MapSummary(id, orders)
    case SectionHeaderIdentifier(title) => SectionHeader(title)
  }

  /** The list `getItemsAndFetchIfNecessary` returns: one UI item per identifier, position by position. */
  function ItemsFor(identifiers: seq<ItemIdentifier>, orders: map<RemoteId, Order>): seq<ItemUIType> {
    seq(|identifiers|, i requires 0 <= i < |identifiers| => ItemFor(identifiers[i], orders))
  }

  /**
   * Headers stay headers with their title; an order the store has is shown
   * with its own id, number, status and total, and as its name the first name,
   * one space and the last name (from which both names can be read back when
   * the first has no space); any other order is a loading placeholder for its
   * id.
   */
  lemma ItemsShowStoredOrders(identifiers: seq<ItemIdentifier>, orders: map<RemoteId, Order>, i: nat)
    requires i < |identifiers|
    ensures |ItemsFor(identifiers, orders)| == |identifiers|
    ensures identifiers[i].SectionHeaderIdentifier? ==>
      ItemsFor(identifiers, orders)[i] == SectionHeader(identifiers[i].title)
    ensures identifiers[i].OrderIdentifier? && identifiers[i].remoteId !in orders ==>
      ItemsFor(identifiers, orders)[i] == LoadingItem(identifiers[i].remoteId)
    ensures identifiers[i].OrderIdentifier? && identifiers[i].remoteId in orders ==>
      var o := orders[identifiers[i].remoteId];
      && ItemsFor(identifiers, orders)[i].WCOrderListUIItem?
      && ItemsFor(identifiers, orders)[i].remoteOrderId == RemoteId(o.remoteOrderId)
      && ItemsFor(identifiers, orders)[i].orderNumber == o.number
      && ItemsFor(identifiers, orders)[i].status == o.status
      && ItemsFor(identifiers, orders)[i].orderName == o.billingFirstName + " " + o.billingLastName
      && (' ' !in o.billingFirstName ==>
            SplitName(ItemsFor(identifiers, orders)[i].orderName) == (o.billingFirstName, o.billingLastName))
      && ItemsFor(identifiers, orders)[i].orderTotal == o.total
  {
    if identifiers[i].OrderIdentifier? && identifiers[i].remoteId in orders {
      var o := orders[identifiers[i].remoteId];
      if ' ' !in o.billingFirstName {
        OrderNameRoundTrip(o);
      }
    }
  }

  /**
   * A position shows a loading placeholder exactly when it holds an order
   * identifier whose id is among those requested from the fetcher, and every
   * requested id is shown as loading somewhere.
   */
  lemma LoadingExactlyForFetched(identifiers: seq<ItemIdentifier>, orders: map<RemoteId, Order>)
    ensures forall i :: 0 <= i < |identifiers| ==>
      (ItemsFor(identifiers, orders)[i].LoadingItem? <==>
        identifiers[i].OrderIdentifier? && identifiers[i].remoteId in MissingIds(RemoteIdsOf(identifiers), orders))
    ensures forall id :: id in MissingIds(RemoteIdsOf(identifiers), orders) ==>
      exists i :: 0 <= i < |identifiers| && ItemsFor(identifiers, orders)[i] == LoadingItem(id)
  {
    var items := ItemsFor(identifiers, orders);
    var missing := MissingIds(RemoteIdsOf(identifiers), orders);
    forall i | 0 <= i < |identifiers|
      ensures items[i].LoadingItem? <==> identifiers[i].OrderIdentifier? && identifiers[i].remoteId in missing
    {
      if identifiers[i].OrderIdentifier? {
        assert identifiers[i] in identifiers;
      }
    }
    forall id | id in missing
      ensures exists i :: 0 <= i < |identifiers| && items[i] == LoadingItem(id)
    {
      assert OrderIdentifier(id) in identifiers;
      var i :| 0 <= i < |identifiers| && identifiers[i] == OrderIdentifier(id);
      assert items[i] == LoadingItem(id);
    }
  }

  /** A `fetchOrders` call: the site and the ids requested. */
  datatype FetchRequest = FetchRequest(site: Site, remoteItemIds: seq<RemoteId>)

  /** `FetchOrderListPayload`, wrapped in the action that is dispatched. */
  datatype FetchOrderListPayload = FetchOrderListPayload(listDescriptor: ListDescriptor, offset: int)

  /**
   * `WCOrderListItemDataSource`. The fetcher and the dispatcher are recorded
   * as the requests sent to them.
   */
  class WCOrderListItemDataSource {
    var fetchRequests: seq<FetchRequest>
    var dispatched: seq<FetchOrderListPayload>

    constructor()
      ensures fetchRequests == [] && dispatched == []
    {
      fetchRequests := [];
      dispatched := [];
    }

    /**
     * Maps each identifier to its UI item and asks the fetcher for exactly
     * the orders the store does not have. `orders` is the store's answer for
     * the listed ids.
     */
    method GetItemsAndFetchIfNecessary(listDescriptor: ListDescriptor, itemIdentifiers: seq<ItemIdentifier>,
                                       orders: map<RemoteId, Order>) returns (items: seq<ItemUIType>)
      modifies this
      ensures items == ItemsFor(itemIdentifiers, orders)
      ensures fetchRequests == old(fetchRequests) +
        [FetchRequest(listDescriptor.site, MissingIds(RemoteIdsOf(itemIdentifiers), orders))]
      ensures dispatched == old(dispatched)
    {
      var remoteItemIds := RemoteIdsOf(itemIdentifiers);
      fetchRequests := fetchRequests + [FetchRequest(listDescriptor.site, MissingIds(remoteItemIds, orders))];
      items := ItemsFor(itemIdentifiers, orders);
    }

    /**
     * Files every found summary into one of five buckets by its creation date,
     * then lists each non-empty bucket after its header, newest group first.
     * `summaries` is the store's answer for the site, `clock` the calendar at
     * the time of the call and `parse` the ISO-8601 reader.
     */
    method GetItemIdentifiers(listDescriptor: ListDescriptor, remoteItemIds: seq<RemoteId>, isListFullyFetched: bool,
                              summaries: map<RemoteId, OrderSummary>, clock: Clock, parse: string -> Option<int>)
      returns (allItems: seq<ItemIdentifier>)
      ensures allItems == Layout(clock, parse, FoundSummaries(remoteItemIds, summaries))
    {
      var orderSummaries := FoundSummaries(remoteItemIds, summaries);
      var listToday: seq<ItemIdentifier> := [];
      var listYesterday: seq<ItemIdentifier> := [];
      var listTwoDays: seq<ItemIdentifier> := [];
      var listWeek: seq<ItemIdentifier> := [];
      var listMonth: seq<ItemIdentifier> := [];
      var i := 0;
      ghost var filed: seq<Filed> := [];
      while i < |orderSummaries|
        invariant 0 <= i <= |orderSummaries|
        invariant |filed| == i
        invariant forall k :: 0 <= k < i ==> filed[k] == Classify(clock, parse, orderSummaries[k])
        invariant listToday == Bucket(filed, GroupToday)
        invariant listYesterday == Bucket(filed, GroupYesterday)
        invariant listTwoDays == Bucket(filed, GroupOlderTwoDays)
        invariant listWeek == Bucket(filed, GroupOlderWeek)
        invariant listMonth == Bucket(filed, GroupOlderMonth)
      {
        var summary := orderSummaries[i];
        var date := DateOrNow(clock, parse, summary.dateCreated);
        var id := Identify(summary);
        var group := TimeGroupForDate(clock, date);
        ghost var f := Filed(id.remoteId, group);
        BucketsAppend(filed, f);
        match group {
          case GroupToday => listToday := listToday + [id];
          case GroupYesterday => listYesterday := listYesterday + [id];
          case GroupOlderTwoDays => listTwoDays := listTwoDays + [id];
          case GroupOlderWeek => listWeek := listWeek + [id];
          case GroupOlderMonth => listMonth := listMonth + [id];
        }
        filed := filed + [f];
        i := i + 1;
      }
      FilingIsClassification(clock, parse, orderSummaries, filed);
      LayoutUnfolds(filed);
      allItems := Section(listToday, GroupToday) + Section(listYesterday, GroupYesterday) +
        Section(listTwoDays, GroupOlderTwoDays) + Section(listWeek, GroupOlderWeek) + Section(listMonth, GroupOlderMonth);
    }

    /** `fetchList`: dispatches one request for the page at `offset`. */
    method FetchList(listDescriptor: ListDescriptor, offset: int)
      modifies this
      ensures dispatched == old(dispatched) + [FetchOrderListPayload(listDescriptor, offset)]
      ensures fetchRequests == old(fetchRequests)
    {
      dispatched := dispatched + [FetchOrderListPayload(listDescriptor, offset)];
    }
  }

}
