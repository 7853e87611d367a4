/**
  Views and engagement from metric snapshots (src/modules/social/services/metric.service.ts:65-133). A
  snapshot is a cumulative reading, so what counts is each series' newest one, a series being a campaign,
  a creator and a platform. `MeasureOf` says so directly; the methods query, then fold into maps.

  Of readings taken at the same time the one further down the table counts. The table may come in any order,
  so this stands for every choice the database can make between them; without such ties the order does not
  matter.
 */
module Metrics {
  import opened Outcomes
  import opened Sums

  datatype Platform = TikTok | Instagram | Snapchat | YouTube | X

  datatype Snapshot = Snapshot(
    campaign: nat, creator: nat, platform: Platform, views: nat, likes: nat, comments: nat, shares: nat,
    capturedAt: int)

  datatype EngagementReading = EngagementReading(views: int, likes: int, comments: int, shares: int)

  predicate SameSeries(first: Snapshot, second: Snapshot)
  {
    first.campaign == second.campaign && first.creator == second.creator && first.platform == second.platform
  }

  predicate Clash(first: Snapshot, second: Snapshot)
  {
    SameSeries(first, second) && first.capturedAt == second.capturedAt && first != second
  }

  /** No two different readings of one series carry the same time. */
  ghost predicate TieFree(table: seq<Snapshot>)
  {
    forall first, second :: first in table && second in table ==> !Clash(first, second)
  }

  // What counts.

  predicate InSeries(row: Snapshot, campaign: nat, creator: nat, platform: Platform)
  {
    row.campaign == campaign && row.creator == creator && row.platform == platform
  }

  function Latest(table: seq<Snapshot>, campaign: nat, creator: nat, platform: Platform): (latest: Option<Snapshot>)
    ensures latest.None? ==> forall row :: row in table ==> !InSeries(row, campaign, creator, platform)
    ensures latest.Some? ==>
              && latest.value in table
              && InSeries(latest.value, campaign, creator, platform)
              && forall row :: row in table && InSeries(row, campaign, creator, platform) ==>
                                 row.capturedAt <= latest.value.capturedAt
  {
    if table == [] then None
    else
      var before, row := Latest(table[..|table| - 1], campaign, creator, platform), table[|table| - 1];
      if InSeries(row, campaign, creator, platform) && (before.None? || before.value.capturedAt <= row.capturedAt)
      then Some(row) else before
  }

  lemma LatestAppend(table: seq<Snapshot>, row: Snapshot, campaign: nat, creator: nat, platform: Platform)
    ensures
      var before := Latest(table, campaign, creator, platform);
      Latest(table + [row], campaign, creator, platform) ==
      if InSeries(row, campaign, creator, platform) && (before.None? || before.value.capturedAt <= row.capturedAt)
      then Some(row) else before
  {
    assert (table + [row])[..|table + [row]| - 1] == table;
  }

  function OnPlatform(table: seq<Snapshot>, campaign: nat, creator: nat, measure: Snapshot -> int): Platform -> int
  {
    (platform: Platform) =>
      var latest := Latest(table, campaign, creator, platform);
      if latest.None? then 0 else measure(latest.value)
  }

  /** A creator's count on a campaign: the newest reading of each platform, added up. */
  function MeasureOf(table: seq<Snapshot>, campaign: nat, creator: nat, measure: Snapshot -> int): int
  {
    var on := OnPlatform(table, campaign, creator, measure);
    on(TikTok) + on(Instagram) + on(Snapchat) + on(YouTube) + on(X)
  }

  datatype Count = Views | Likes | Comments | Shares

  function Measure(count: Count): Snapshot -> int
  {
    (row: Snapshot) =>
      match count
      case Views => row.views
      case Likes => row.likes
      case Comments => row.comments
      case Shares => row.shares
  }

  // The query: filter, newest first, one row for each distinct key.

  function Where(table: seq<Snapshot>, wanted: Snapshot -> bool): (rows: seq<Snapshot>)
    ensures forall row :: row in rows <==> row in table && wanted(row)
  {
    if table == [] then []
    else Where(table[..|table| - 1], wanted) + if wanted(table[|table| - 1]) then [table[|table| - 1]] else []
  }

  predicate NewestFirst(rows: seq<Snapshot>)
  {
    forall i, j :: 0 <= i < j < |rows| ==> rows[j].capturedAt <= rows[i].capturedAt
  }

  function Insert(row: Snapshot, rows: seq<Snapshot>): (sorted: seq<Snapshot>)
    ensures forall other :: other in sorted <==> other == row || other in rows
  {
    if rows == [] then [row]
    else if rows[0].capturedAt <= row.capturedAt then [row] + rows
    else
      assert rows == [rows[0]] + rows[1..];
      [rows[0]] + Insert(row, rows[1..])
  }

  function SortNewestFirst(rows: seq<Snapshot>): (sorted: seq<Snapshot>)
    ensures forall row :: row in sorted <==> row in rows
  {
    if rows == [] then []
    else
      assert rows == rows[..|rows| - 1] + [rows[|rows| - 1]];
      Insert(rows[|rows| - 1], SortNewestFirst(rows[..|rows| - 1]))
  }

  lemma {:induction false} InsertKeepsOrder(row: Snapshot, rows: seq<Snapshot>)
    requires NewestFirst(rows)
    ensures NewestFirst(Insert(row, rows))
  {
    if rows != [] && row.capturedAt < rows[0].capturedAt {
      var rest := Insert(row, rows[1..]);
      InsertKeepsOrder(row, rows[1..]);
      forall j | 0 <= j < |rest| ensures rest[j].capturedAt <= rows[0].capturedAt {
        assert rest[j] in rest;
      }
    }
  }

  lemma {:induction false} SortSorts(rows: seq<Snapshot>)
    ensures NewestFirst(SortNewestFirst(rows))
  {
    if rows != [] {
      SortSorts(rows[..|rows| - 1]);
      InsertKeepsOrder(rows[|rows| - 1], SortNewestFirst(rows[..|rows| - 1]));
    }
  }

  type Key = Snapshot -> (nat, Platform)

  predicate KeyIn(rows: seq<Snapshot>, key: Key, value: (nat, Platform))
  {
    exists k :: 0 <= k < |rows| && key(rows[k]) == value
  }

  function FirstOfEach(rows: seq<Snapshot>, key: Key): seq<Snapshot>
  {
    if rows == [] then []
    else
      var before, row := FirstOfEach(rows[..|rows| - 1], key), rows[|rows| - 1];
      if KeyIn(before, key, key(row)) then before else before + [row]
  }

  function LatestPerPlatform(table: seq<Snapshot>, wanted: Snapshot -> bool, key: Key): seq<Snapshot>
  {
    FirstOfEach(SortNewestFirst(Where(table, wanted)), key)
  }

  /** The first row of a series. */
  function FirstIn(rows: seq<Snapshot>, campaign: nat, creator: nat, platform: Platform): Option<Snapshot>
  {
    if rows == [] then None
    else if InSeries(rows[0], campaign, creator, platform) then Some(rows[0])
    else FirstIn(rows[1..], campaign, creator, platform)
  }

  lemma {:induction false} FirstIsAmong(rows: seq<Snapshot>, campaign: nat, creator: nat, platform: Platform)
    ensures FirstIn(rows, campaign, creator, platform).Some? ==>
              FirstIn(rows, campaign, creator, platform).value in rows
  {
    if rows != [] {
      FirstIsAmong(rows[1..], campaign, creator, platform);
    }
  }

  /** A row goes in front of its series unless a newer one is there. */
  lemma {:induction false} InsertThenFirst(
    row: Snapshot, rows: seq<Snapshot>, campaign: nat, creator: nat, platform: Platform)
    requires NewestFirst(rows)
    ensures
      var before := FirstIn(rows, campaign, creator, platform);
      FirstIn(Insert(row, rows), campaign, creator, platform) ==
      if InSeries(row, campaign, creator, platform) && (before.None? || before.value.capturedAt <= row.capturedAt)
      then Some(row) else before
  {
    FirstIsAmong(rows, campaign, creator, platform);
    if rows != [] {
      if rows[0].capturedAt <= row.capturedAt {
        assert ([row] + rows)[1..] == rows;
      } else {
        InsertThenFirst(row, rows[1..], campaign, creator, platform);
        assert ([rows[0]] + Insert(row, rows[1..]))[1..] == Insert(row, rows[1..]);
      }
    }
  }

  /** Sorted newest first, the first row of a series is the one that counts. */
  lemma {:induction false} FirstSortedIsLatest(rows: seq<Snapshot>, campaign: nat, creator: nat, platform: Platform)
    ensures FirstIn(SortNewestFirst(rows), campaign, creator, platform) == Latest(rows, campaign, creator, platform)
  {
    if rows != [] {
      var n := |rows| - 1;
      FirstSortedIsLatest(rows[..n], campaign, creator, platform);
      SortSorts(rows[..n]);
      InsertThenFirst(rows[n], SortNewestFirst(rows[..n]), campaign, creator, platform);
    }
  }

  /** A filter that wants all of a series keeps its newest. */
  lemma {:induction false} FilterKeepsLatest(
    table: seq<Snapshot>, wanted: Snapshot -> bool, campaign: nat, creator: nat, platform: Platform)
    requires forall row :: InSeries(row, campaign, creator, platform) ==> wanted(row)
    ensures Latest(Where(table, wanted), campaign, creator, platform) == Latest(table, campaign, creator, platform)
  {
    if table != [] {
      var n := |table| - 1;
      FilterKeepsLatest(table[..n], wanted, campaign, creator, platform);
      if wanted(table[n]) {
        LatestAppend(Where(table[..n], wanted), table[n], campaign, creator, platform);
      } else {
        assert Where(table, wanted) == Where(table[..n], wanted);
      }
    }
  }

  lemma {:induction false} KeptIsAmong(rows: seq<Snapshot>, key: Key, k: nat)
    requires k < |FirstOfEach(rows, key)|
    ensures FirstOfEach(rows, key)[k] in rows
  {
    var n := |rows| - 1;
    if k < |FirstOfEach(rows[..n], key)| {
      KeptIsAmong(rows[..n], key, k);
    }
  }

  lemma {:induction false} FirstInLonger(
    rows: seq<Snapshot>, row: Snapshot, campaign: nat, creator: nat, platform: Platform)
    ensures
      var before := FirstIn(rows, campaign, creator, platform);
      FirstIn(rows + [row], campaign, creator, platform) ==
      if before.Some? then before else if InSeries(row, campaign, creator, platform) then Some(row) else None
  {
    if rows == [] {
      assert rows + [row] == [row];
    } else {
      FirstInLonger(rows[1..], row, campaign, creator, platform);
      assert (rows + [row])[1..] == rows[1..] + [row];
    }
  }

  lemma {:induction false} FirstIsThere(rows: seq<Snapshot>, campaign: nat, creator: nat, platform: Platform)
    ensures FirstIn(rows, campaign, creator, platform).Some? ==>
              InSeries(FirstIn(rows, campaign, creator, platform).value, campaign, creator, platform)
  {
    if rows != [] {
      FirstIsThere(rows[1..], campaign, creator, platform);
    }
  }

  lemma EarlierSeriesIsKept(rows: seq<Snapshot>, key: Key, row: Snapshot)
    requires forall i :: 0 <= i < |rows| ==> (key(rows[i]) == key(row) <==> SameSeries(rows[i], row))
    ensures FirstIn(rows, row.campaign, row.creator, row.platform).Some? ==>
              KeyIn(FirstOfEach(rows, key), key, key(row))
  {
    var first := FirstIn(rows, row.campaign, row.creator, row.platform);
    FirstIsAmong(rows, row.campaign, row.creator, row.platform);
    FirstIsThere(rows, row.campaign, row.creator, row.platform);
    if first.Some? {
      var i :| 0 <= i < |rows| && rows[i] == first.value;
      KeysAreKept(rows, key, i);
    }
  }

  /** Where keys tell series apart, the row kept for a key is the first of its series. */
  lemma {:induction false} KeptIsFirst(rows: seq<Snapshot>, key: Key, k: nat)
    requires k < |FirstOfEach(rows, key)|
    requires forall i, j :: 0 <= i < |rows| && 0 <= j < |rows| ==>
               (key(rows[i]) == key(rows[j]) <==> SameSeries(rows[i], rows[j]))
    ensures
      var kept := FirstOfEach(rows, key)[k];
      FirstIn(rows, kept.campaign, kept.creator, kept.platform) == Some(kept)
  {
    var n := |rows| - 1;
    var before, kept := FirstOfEach(rows[..n], key), FirstOfEach(rows, key)[k];
    assert rows == rows[..n] + [rows[n]];
    FirstInLonger(rows[..n], rows[n], kept.campaign, kept.creator, kept.platform);
    if k < |before| {
      KeptIsFirst(rows[..n], key, k);
    } else {
      EarlierSeriesIsKept(rows[..n], key, rows[n]);
    }
  }

  lemma {:induction false} KeysAreKept(rows: seq<Snapshot>, key: Key, i: nat)
    requires i < |rows|
    ensures KeyIn(FirstOfEach(rows, key), key, key(rows[i]))
  {
    var n := |rows| - 1;
    var before, kept := FirstOfEach(rows[..n], key), FirstOfEach(rows, key);
    if i < n {
      KeysAreKept(rows[..n], key, i);
      var k :| 0 <= k < |before| && key(before[k]) == key(rows[i]);
      assert kept[k] == before[k];
    } else if |before| < |kept| {
      assert kept[|before|] == rows[n];
    }
  }

  lemma {:induction false} KeptOnce(rows: seq<Snapshot>, key: Key, i: nat, j: nat)
    requires i < j < |FirstOfEach(rows, key)|
    ensures key(FirstOfEach(rows, key)[i]) != key(FirstOfEach(rows, key)[j])
  {
    var n := |rows| - 1;
    var before := FirstOfEach(rows[..n], key);
    if j < |before| {
      KeptOnce(rows[..n], key, i, j);
    } else {
      assert !KeyIn(before, key, key(rows[n]));
      assert key(before[i]) != key(rows[n]);
    }
  }

  /** One row for each series that the query covers: the one that counts. */
  predicate OnePerSeries(table: seq<Snapshot>, wanted: Snapshot -> bool, rows: seq<Snapshot>)
  {
    && (forall k :: 0 <= k < |rows| ==> wanted(rows[k]) && Counts(table, rows[k]))
    && SeriesDiffer(rows)
    && (forall row {:trigger SeriesIn(rows, row)} :: row in table && wanted(row) ==> SeriesIn(rows, row))
  }

  predicate SeriesDiffer(rows: seq<Snapshot>)
  {
    forall j, k :: 0 <= j < k < |rows| ==> !SameSeries(rows[j], rows[k])
  }

  predicate Counts(table: seq<Snapshot>, row: Snapshot)
  {
    Latest(table, row.campaign, row.creator, row.platform) == Some(row)
  }

  predicate SeriesIn(rows: seq<Snapshot>, row: Snapshot)
  {
    exists k :: 0 <= k < |rows| && SameSeries(rows[k], row)
  }

  /** The key tells the series apart among the rows wanted, and whole series are wanted. */
  ghost predicate KeyIsSeries(wanted: Snapshot -> bool, key: Key)
  {
    && (forall first, second :: wanted(first) && wanted(second) ==>
          (key(first) == key(second) <==> SameSeries(first, second)))
    && (forall first, second :: SameSeries(first, second) ==> wanted(first) == wanted(second))
  }

  /** What the query returns for a series is what counts in the table. */
  lemma QueriedRowCounts(table: seq<Snapshot>, wanted: Snapshot -> bool, key: Key, k: nat)
    requires KeyIsSeries(wanted, key) && k < |LatestPerPlatform(table, wanted, key)|
    ensures wanted(LatestPerPlatform(table, wanted, key)[k]) && Counts(table, LatestPerPlatform(table, wanted, key)[k])
  {
    var sorted, row := SortNewestFirst(Where(table, wanted)), LatestPerPlatform(table, wanted, key)[k];
    KeptIsAmong(sorted, key, k);
    forall i | 0 <= i < |sorted| ensures wanted(sorted[i]) {
      assert sorted[i] in sorted;
    }
    KeptIsFirst(sorted, key, k);
    FirstSortedIsLatest(Where(table, wanted), row.campaign, row.creator, row.platform);
    forall other | InSeries(other, row.campaign, row.creator, row.platform) ensures wanted(other) {
      assert SameSeries(other, row);
    }
    FilterKeepsLatest(table, wanted, row.campaign, row.creator, row.platform);
  }

  lemma QueryFindsLatest(table: seq<Snapshot>, wanted: Snapshot -> bool, key: Key)
    requires KeyIsSeries(wanted, key)
    ensures OnePerSeries(table, wanted, LatestPerPlatform(table, wanted, key))
  {
    var sorted := SortNewestFirst(Where(table, wanted));
    var rows := LatestPerPlatform(table, wanted, key);
    forall k | 0 <= k < |rows| ensures wanted(rows[k]) && Counts(table, rows[k]) {
      QueriedRowCounts(table, wanted, key, k);
    }
    forall j, k | 0 <= j < k < |rows| ensures !SameSeries(rows[j], rows[k]) {
      KeptOnce(sorted, key, j, k);
      assert wanted(rows[j]) && wanted(rows[k]);
    }
    forall row | row in table && wanted(row) ensures SeriesIn(rows, row) {
      EverySeriesQueried(table, wanted, key, row);
    }
  }

  lemma EverySeriesQueried(table: seq<Snapshot>, wanted: Snapshot -> bool, key: Key, row: Snapshot)
    requires KeyIsSeries(wanted, key) && row in table && wanted(row)
    ensures SeriesIn(LatestPerPlatform(table, wanted, key), row)
  {
    var sorted, rows := SortNewestFirst(Where(table, wanted)), LatestPerPlatform(table, wanted, key);
    assert row in sorted;
    var i :| 0 <= i < |sorted| && sorted[i] == row;
    KeysAreKept(sorted, key, i);
    var k :| 0 <= k < |rows| && key(rows[k]) == key(row);
    KeptIsAmong(sorted, key, k);
  }

  // Summing the query's rows is summing over platforms.

  function Share(campaign: nat, creator: nat, measure: Snapshot -> int): Snapshot -> int
  {
    (row: Snapshot) => if row.campaign == campaign && row.creator == creator then measure(row) else 0
  }

  function ShareOn(campaign: nat, creator: nat, platform: Platform, measure: Snapshot -> int): Snapshot -> int
  {
    (row: Snapshot) => if InSeries(row, campaign, creator, platform) then measure(row) else 0
  }

  lemma ShareOfOne(rows: seq<Snapshot>, k: nat, measure: Snapshot -> int)
    requires k < |rows| && SeriesDiffer(rows)
    ensures Sum(rows, ShareOn(rows[k].campaign, rows[k].creator, rows[k].platform, measure)) == measure(rows[k])
  {
    var share := ShareOn(rows[k].campaign, rows[k].creator, rows[k].platform, measure);
    forall j | 0 <= j < |rows| && j != k ensures share(rows[j]) == 0 {
      if j < k {
        assert !SameSeries(rows[j], rows[k]);
      } else {
        assert !SameSeries(rows[k], rows[j]);
      }
    }
    SumSingle(rows, k, share);
  }

  lemma PlatformShare(
    table: seq<Snapshot>, wanted: Snapshot -> bool, rows: seq<Snapshot>, campaign: nat, creator: nat,
    platform: Platform, measure: Snapshot -> int)
    requires OnePerSeries(table, wanted, rows)
    requires forall row :: row in table && row.campaign == campaign && row.creator == creator ==> wanted(row)
    ensures Sum(rows, ShareOn(campaign, creator, platform, measure))
            == OnPlatform(table, campaign, creator, measure)(platform)
  {
    var latest := Latest(table, campaign, creator, platform);
    if latest.None? {
      SumZero(rows, ShareOn(campaign, creator, platform, measure));
    } else {
      assert SeriesIn(rows, latest.value);
      var k :| 0 <= k < |rows| && SameSeries(rows[k], latest.value);
      assert Counts(table, rows[k]);
      ShareOfOne(rows, k, measure);
    }
  }

  /** Every row is on one of the platforms. */
  lemma {:induction false} SharesByPlatform(rows: seq<Snapshot>, campaign: nat, creator: nat, measure: Snapshot -> int)
    ensures Sum(rows, Share(campaign, creator, measure)) ==
            Sum(rows, ShareOn(campaign, creator, TikTok, measure))
            + Sum(rows, ShareOn(campaign, creator, Instagram, measure))
            + Sum(rows, ShareOn(campaign, creator, Snapchat, measure))
            + Sum(rows, ShareOn(campaign, creator, YouTube, measure))
            + Sum(rows, ShareOn(campaign, creator, X, measure))
  {
    if rows != [] {
      SharesByPlatform(rows[..|rows| - 1], campaign, creator, measure);
    }
  }

  /** Adding up the rows of one creator and campaign gives their count. */
  lemma RowsAddUp(
    table: seq<Snapshot>, wanted: Snapshot -> bool, rows: seq<Snapshot>, campaign: nat, creator: nat,
    measure: Snapshot -> int)
    requires OnePerSeries(table, wanted, rows)
    requires forall row :: row in table && row.campaign == campaign && row.creator == creator ==> wanted(row)
    ensures Sum(rows, Share(campaign, creator, measure)) == MeasureOf(table, campaign, creator, measure)
  {
    SharesByPlatform(rows, campaign, creator, measure);
    PlatformShare(table, wanted, rows, campaign, creator, TikTok, measure);
    PlatformShare(table, wanted, rows, campaign, creator, Instagram, measure);
    PlatformShare(table, wanted, rows, campaign, creator, Snapchat, measure);
    PlatformShare(table, wanted, rows, campaign, creator, YouTube, measure);
    PlatformShare(table, wanted, rows, campaign, creator, X, measure);
  }

  // The services' own functions.

  function OfCampaign(campaign: nat): Snapshot -> bool
  {
    (row: Snapshot) => row.campaign == campaign
  }

  function OfCreator(creator: nat): Snapshot -> bool
  {
    (row: Snapshot) => row.creator == creator
  }

  const ByCreator: Key := (row: Snapshot) => (row.creator, row.platform)
  const ByCampaign: Key := (row: Snapshot) => (row.campaign, row.platform)

  predicate Measured(table: seq<Snapshot>, campaign: nat, creator: nat)
  {
    exists row :: row in table && row.campaign == campaign && row.creator == creator
  }

  /** The map holds exactly the campaign's measured creators, each with their count. */
  ghost predicate CountsByCreator(table: seq<Snapshot>, campaign: nat, counts: map<nat, int>, measure: Snapshot -> int)
  {
    forall creator: nat ::
      && (creator in counts <==> Measured(table, campaign, creator))
      && (creator in counts ==> counts[creator] == MeasureOf(table, campaign, creator, measure))
  }

  /** The fold over some rows, grouped by a key: each group's running sum. */
  ghost predicate Folded(rows: seq<Snapshot>, group: Snapshot -> nat, counts: map<nat, int>, measure: Snapshot -> int)
  {
    forall g: nat ::
      && (g in counts <==> GroupIn(rows, group, g))
      && Sum(rows, InGroup(group, g, measure)) == (if g in counts then counts[g] else 0)
  }

  predicate GroupIn(rows: seq<Snapshot>, group: Snapshot -> nat, g: nat)
  {
    exists k :: 0 <= k < |rows| && group(rows[k]) == g
  }

  lemma FoldStep(
    rows: seq<Snapshot>, row: Snapshot, group: Snapshot -> nat, counts: map<nat, int>, measure: Snapshot -> int)
    requires Folded(rows, group, counts, measure)
    ensures
      var current := if group(row) in counts then counts[group(row)] else 0;
      Folded(rows + [row], group, counts[group(row) := current + measure(row)], measure)
  {
    var current := if group(row) in counts then counts[group(row)] else 0;
    var after := counts[group(row) := current + measure(row)];
    forall g: nat
      ensures g in after <==> GroupIn(rows + [row], group, g)
      ensures Sum(rows + [row], InGroup(group, g, measure)) == (if g in after then after[g] else 0)
    {
      SumAppend(rows, row, InGroup(group, g, measure));
      assert (rows + [row])[|rows|] == row;
      if GroupIn(rows, group, g) {
        var k :| 0 <= k < |rows| && group(rows[k]) == g;
        assert (rows + [row])[k] == rows[k];
      }
    }
  }

  const CreatorOf: Snapshot -> nat := (row: Snapshot) => row.creator
  const CampaignOf: Snapshot -> nat := (row: Snapshot) => row.campaign

  /** Folding a campaign's newest rows by creator gives the counts. */
  lemma FoldCountsByCreator(
    table: seq<Snapshot>, campaign: nat, rows: seq<Snapshot>, counts: map<nat, int>, measure: Snapshot -> int)
    requires OnePerSeries(table, OfCampaign(campaign), rows)
    requires Folded(rows, CreatorOf, counts, measure)
    ensures CountsByCreator(table, campaign, counts, measure)
  {
    forall creator: nat
      ensures creator in counts <==> Measured(table, campaign, creator)
      ensures creator in counts ==> counts[creator] == MeasureOf(table, campaign, creator, measure)
    {
      RowsAddUp(table, OfCampaign(campaign), rows, campaign, creator, measure);
      SumSame(rows, InGroup(CreatorOf, creator, measure), Share(campaign, creator, measure));
      if Measured(table, campaign, creator) {
        var row :| row in table && row.campaign == campaign && row.creator == creator;
        assert SeriesIn(rows, row);
      }
      if GroupIn(rows, CreatorOf, creator) {
        var k :| 0 <= k < |rows| && CreatorOf(rows[k]) == creator;
        assert rows[k] in table && OfCampaign(campaign)(rows[k]);
      }
    }
  }

  method LatestViewsByCreator(table: seq<Snapshot>, campaign: nat) returns (viewsByCreator: map<nat, int>)
    ensures CountsByCreator(table, campaign, viewsByCreator, Measure(Views))
  {
    var latestPerPlatform := LatestPerPlatform(table, OfCampaign(campaign), ByCreator);
    viewsByCreator := map[];
    for i := 0 to |latestPerPlatform|
      invariant Folded(latestPerPlatform[..i], CreatorOf, viewsByCreator, Measure(Views))
    {
      var row := latestPerPlatform[i];
      FoldStep(latestPerPlatform[..i], row, CreatorOf, viewsByCreator, Measure(Views));
      assert latestPerPlatform[..i + 1] == latestPerPlatform[..i] + [row];
      var current := if row.creator in viewsByCreator then viewsByCreator[row.creator] else 0;
      viewsByCreator := viewsByCreator[row.creator := current + row.views];
    }
    assert latestPerPlatform[..|latestPerPlatform|] == latestPerPlatform;
    QueryFindsLatest(table, OfCampaign(campaign), ByCreator);
    FoldCountsByCreator(table, campaign, latestPerPlatform, viewsByCreator, Measure(Views));
  }

  /** One count of each reading. */
  function Project(readings: map<nat, EngagementReading>, pick: EngagementReading -> int): map<nat, int>
  {
    map u | u in readings :: pick(readings[u])
  }

  function Pick(count: Count): EngagementReading -> int
  {
    (reading: EngagementReading) =>
      match count
      case Views => reading.views
      case Likes => reading.likes
      case Comments => reading.comments
      case Shares => reading.shares
  }

  /** Each count of the readings is its own fold. */
  ghost predicate ReadingsFolded(rows: seq<Snapshot>, readings: map<nat, EngagementReading>)
  {
    forall count: Count :: Folded(rows, CreatorOf, Project(readings, Pick(count)), Measure(count))
  }

  function Plus(reading: EngagementReading, row: Snapshot): EngagementReading
  {
    EngagementReading(reading.views + row.views, reading.likes + row.likes, reading.comments + row.comments,
                      reading.shares + row.shares)
  }

  function ReadingAt(readings: map<nat, EngagementReading>, creator: nat): EngagementReading
  {
    if creator in readings then readings[creator] else EngagementReading(0, 0, 0, 0)
  }

  lemma ReadingStep(rows: seq<Snapshot>, row: Snapshot, readings: map<nat, EngagementReading>)
    requires ReadingsFolded(rows, readings)
    ensures ReadingsFolded(rows + [row], readings[row.creator := Plus(ReadingAt(readings, row.creator), row)])
  {
    var next := readings[row.creator := Plus(ReadingAt(readings, row.creator), row)];
    forall count: Count ensures Folded(rows + [row], CreatorOf, Project(next, Pick(count)), Measure(count)) {
      var counts := Project(readings, Pick(count));
      FoldStep(rows, row, CreatorOf, counts, Measure(count));
      assert Project(next, Pick(count))
             == counts[row.creator := (if row.creator in counts then counts[row.creator] else 0) + Measure(count)(row)];
    }
  }

  method LatestReadingsByCreator(table: seq<Snapshot>, campaign: nat)
    returns (readings: map<nat, EngagementReading>)
    ensures forall count: Count ::
              CountsByCreator(table, campaign, Project(readings, Pick(count)), Measure(count))
  {
    var latestPerPlatform := LatestPerPlatform(table, OfCampaign(campaign), ByCreator);
    readings := map[];
    for i := 0 to |latestPerPlatform|
      invariant ReadingsFolded(latestPerPlatform[..i], readings)
    {
      var snapshot := latestPerPlatform[i];
      ReadingStep(latestPerPlatform[..i], snapshot, readings);
      assert latestPerPlatform[..i + 1] == latestPerPlatform[..i] + [snapshot];
      readings := readings[snapshot.creator := Plus(ReadingAt(readings, snapshot.creator), snapshot)];
    }
    assert latestPerPlatform[..|latestPerPlatform|] == latestPerPlatform;
    QueryFindsLatest(table, OfCampaign(campaign), ByCreator);
    forall count: Count ensures CountsByCreator(table, campaign, Project(readings, Pick(count)), Measure(count)) {
      FoldCountsByCreator(table, campaign, latestPerPlatform, Project(readings, Pick(count)), Measure(count));
    }
  }

  lemma FoldCountsByCampaign(
    table: seq<Snapshot>, creator: nat, rows: seq<Snapshot>, counts: map<nat, int>, measure: Snapshot -> int)
    requires OnePerSeries(table, OfCreator(creator), rows)
    requires Folded(rows, CampaignOf, counts, measure)
    ensures CountsByCampaign(table, creator, counts, measure)
  {
    forall campaign: nat
      ensures campaign in counts <==> Measured(table, campaign, creator)
      ensures campaign in counts ==> counts[campaign] == MeasureOf(table, campaign, creator, measure)
    {
      RowsAddUp(table, OfCreator(creator), rows, campaign, creator, measure);
      SumSame(rows, InGroup(CampaignOf, campaign, measure), Share(campaign, creator, measure));
      if Measured(table, campaign, creator) {
        var row :| row in table && row.campaign == campaign && row.creator == creator;
        assert SeriesIn(rows, row);
      }
      if GroupIn(rows, CampaignOf, campaign) {
        var k :| 0 <= k < |rows| && CampaignOf(rows[k]) == campaign;
        assert rows[k] in table && OfCreator(creator)(rows[k]);
      }
    }
  }

  ghost predicate CountsByCampaign(table: seq<Snapshot>, creator: nat, counts: map<nat, int>, measure: Snapshot -> int)
  {
    forall campaign: nat ::
      && (campaign in counts <==> Measured(table, campaign, creator))
      && (campaign in counts ==> counts[campaign] == MeasureOf(table, campaign, creator, measure))
  }

  method LatestViewsByCampaignForCreator(table: seq<Snapshot>, creator: nat) returns (viewsByCampaign: map<nat, int>)
    ensures CountsByCampaign(table, creator, viewsByCampaign, Measure(Views))
  {
    var latestPerPlatform := LatestPerPlatform(table, OfCreator(creator), ByCampaign);
    viewsByCampaign := map[];
    for i := 0 to |latestPerPlatform|
      invariant Folded(latestPerPlatform[..i], CampaignOf, viewsByCampaign, Measure(Views))
    {
      var row := latestPerPlatform[i];
      FoldStep(latestPerPlatform[..i], row, CampaignOf, viewsByCampaign, Measure(Views));
      assert latestPerPlatform[..i + 1] == latestPerPlatform[..i] + [row];
      var current := if row.campaign in viewsByCampaign then viewsByCampaign[row.campaign] else 0;
      viewsByCampaign := viewsByCampaign[row.campaign := current + row.views];
    }
    assert latestPerPlatform[..|latestPerPlatform|] == latestPerPlatform;
    QueryFindsLatest(table, OfCreator(creator), ByCampaign);
    FoldCountsByCampaign(table, creator, latestPerPlatform, viewsByCampaign, Measure(Views));
  }

  function CreatorsOf(table: seq<Snapshot>, campaign: nat): set<nat>
  {
    set row | row in table && row.campaign == campaign :: row.creator
  }

  function ViewsOf(table: seq<Snapshot>, campaign: nat): nat -> int
  {
    (creator: nat) => MeasureOf(table, campaign, creator, Measure(Views))
  }

  /** The campaign total is its creators' counts added up, once each. */
  method TotalViewsForCampaign(table: seq<Snapshot>, campaign: nat) returns (total: int)
    ensures total == SetSum(CreatorsOf(table, campaign), ViewsOf(table, campaign))
  {
    var viewsByCreator := LatestViewsByCreator(table, campaign);
    total := 0;
    var left := viewsByCreator.Keys;
    ghost var views := ViewsOf(table, campaign);
    assert left == CreatorsOf(table, campaign);
    while left != {}
      invariant left <= viewsByCreator.Keys
      invariant total + SetSum(left, views) == SetSum(CreatorsOf(table, campaign), views)
      decreases |left|
    {
      var creator :| creator in left;
      SetSumRemove(left, creator, views);
      total := total + viewsByCreator[creator];
      left := left - {creator};
    }
  }

  /** What the maps hold, column by column: the newest views, likes, comments and shares of each platform, added up. */
  lemma ReadingsHoldTheirColumns(
    table: seq<Snapshot>, campaign: nat, creator: nat, views: map<nat, int>, readings: map<nat, EngagementReading>)
    requires CountsByCreator(table, campaign, views, Measure(Views))
    requires forall count: Count :: CountsByCreator(table, campaign, Project(readings, Pick(count)), Measure(count))
    requires Measured(table, campaign, creator)
    ensures creator in views && creator in readings
    ensures views[creator] == readings[creator].views
            == MeasureOf(table, campaign, creator, (row: Snapshot) => row.views)
    ensures readings[creator].likes == MeasureOf(table, campaign, creator, (row: Snapshot) => row.likes)
    ensures readings[creator].comments == MeasureOf(table, campaign, creator, (row: Snapshot) => row.comments)
    ensures readings[creator].shares == MeasureOf(table, campaign, creator, (row: Snapshot) => row.shares)
  {
    ColumnHeld(table, campaign, creator, readings, Views);
    ColumnHeld(table, campaign, creator, readings, Likes);
    ColumnHeld(table, campaign, creator, readings, Comments);
    ColumnHeld(table, campaign, creator, readings, Shares);
  }

  lemma ColumnHeld(
    table: seq<Snapshot>, campaign: nat, creator: nat, readings: map<nat, EngagementReading>, count: Count)
    requires CountsByCreator(table, campaign, Project(readings, Pick(count)), Measure(count))
    requires Measured(table, campaign, creator)
    ensures creator in readings
    ensures Pick(count)(readings[creator]) == MeasureOf(table, campaign, creator, Measure(count))
  {
    assert creator in Project(readings, Pick(count));
  }

  /** A newer reading replaces its own platform's share and touches nobody else's. */
  lemma NewerReadingReplacesItsShare(
    table: seq<Snapshot>, row: Snapshot, campaign: nat, creator: nat, measure: Snapshot -> int)
    requires forall other :: other in table && SameSeries(other, row) ==> other.capturedAt <= row.capturedAt
    ensures MeasureOf(table + [row], campaign, creator, measure) ==
            MeasureOf(table, campaign, creator, measure)
            + (if row.campaign == campaign && row.creator == creator
               then measure(row) - OnPlatform(table, campaign, creator, measure)(row.platform) else 0)
  {
    forall platform: Platform
      ensures OnPlatform(table + [row], campaign, creator, measure)(platform) ==
              if InSeries(row, campaign, creator, platform) then measure(row)
              else OnPlatform(table, campaign, creator, measure)(platform)
    {
      LatestAppend(table, row, campaign, creator, platform);
    }
  }

  /** A reading older than the newest of its series changes no count. */
  lemma OlderReadingChangesNothing(
    table: seq<Snapshot>, row: Snapshot, newest: Snapshot, campaign: nat, creator: nat, measure: Snapshot -> int)
    requires newest in table && SameSeries(newest, row) && row.capturedAt < newest.capturedAt
    ensures MeasureOf(table + [row], campaign, creator, measure) == MeasureOf(table, campaign, creator, measure)
  {
    forall platform: Platform
      ensures OnPlatform(table + [row], campaign, creator, measure)(platform)
              == OnPlatform(table, campaign, creator, measure)(platform)
    {
      LatestAppend(table, row, campaign, creator, platform);
    }
  }

  /** The counts do not depend on the order in which readings were stored. */
  lemma StorageOrderDoesNotMatter(
    first: seq<Snapshot>, second: seq<Snapshot>, campaign: nat, creator: nat, measure: Snapshot -> int)
    requires TieFree(first) && forall row :: row in first <==> row in second
    ensures MeasureOf(first, campaign, creator, measure) == MeasureOf(second, campaign, creator, measure)
  {
    forall platform: Platform
      ensures Latest(first, campaign, creator, platform) == Latest(second, campaign, creator, platform)
    {
      var one, two := Latest(first, campaign, creator, platform), Latest(second, campaign, creator, platform);
      if one.Some? && two.Some? {
        assert !Clash(one.value, two.value);
      }
    }
  }
}
