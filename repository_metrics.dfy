/** The chart data behind the comparison view
    (`src/components/RepositoryMetrics.tsx`): the per-day views and clones
    rows aligned across repositories, the rows of the referrer bar chart,
    the stars/forks bars and the per-repository totals.

    A chart row of the source is an object with one field per repository
    name (`<name>_views`, `<name>_uniques`, ...). Here a row holds one
    sequence per measure, indexed by the repository's position in the stats
    list, so that two repositories with the same name do not share a
    field. */
module RepositoryMetrics {
  import opened JsLib
  import opened RepositorySelector

  /** One day of the traffic API's views or clones series. */
  datatype TrafficPoint = TrafficPoint(count: int, uniques: int, timestamp: string)

  /** One entry of the traffic API's popular-referrers list. */
  datatype ReferrerEntry = ReferrerEntry(referrer: string, count: int, uniques: int)

  /** A repository together with its three traffic series. */
  datatype RepositoryStats = RepositoryStats(
    repository: Repository,
    views: seq<TrafficPoint>,
    clones: seq<TrafficPoint>,
    referrers: seq<ReferrerEntry>)

  /** The two day-by-day charts, which are built the same way. */
  datatype Series = Views | Clones

  function SeriesOf(stat: RepositoryStats, kind: Series): seq<TrafficPoint>
  {
    match kind
    case Views => stat.views
    case Clones => stat.clones
  }

  // ---------------------------------------------------------------------
  // Days
  // ---------------------------------------------------------------------

  /** `timestamp.split('T')[0]`: the calendar day of an ISO timestamp. */
  function DatePart(timestamp: string): string
  {
    PrefixBefore(timestamp, 'T')
  }

  function DaysOf(series: seq<TrafficPoint>): seq<string>
  {
    seq(|series|, i requires 0 <= i < |series| => DatePart(series[i].timestamp))
  }

  lemma DaysOfSnoc(seen: seq<string>, series: seq<TrafficPoint>, j: nat)
    requires j < |series|
    ensures seen + DaysOf(series[..j + 1]) == seen + DaysOf(series[..j]) + [DatePart(series[j].timestamp)]
  {
    assert series[..j + 1] == series[..j] + [series[j]];
    assert DaysOf(series[..j + 1]) == DaysOf(series[..j]) + [DatePart(series[j].timestamp)];
  }

  /** The days in the order the nested `forEach` loops meet them: every
      record of the first repository, then of the second, and so on. */
  function AllDays(stats: seq<RepositoryStats>, kind: Series): seq<string>
  {
    if stats == [] then []
    else AllDays(stats[..|stats| - 1], kind) + DaysOf(SeriesOf(stats[|stats| - 1], kind))
  }

  /** Some record of some repository falls on `day`. */
  ghost predicate Recorded(stats: seq<RepositoryStats>, kind: Series, day: string)
  {
    exists k :: 0 <= k < |stats| && day in DaysOf(SeriesOf(stats[k], kind))
  }

  /** A day recorded in `stats` is recorded in all but the last repository
      or in the last one. */
  lemma RecordedSplit(stats: seq<RepositoryStats>, kind: Series, day: string)
    requires stats != []
    ensures Recorded(stats, kind, day) <==>
            Recorded(stats[..|stats| - 1], kind, day) || day in DaysOf(SeriesOf(stats[|stats| - 1], kind))
  {
    var init := stats[..|stats| - 1];
    if Recorded(init, kind, day) {
      var k :| 0 <= k < |init| && day in DaysOf(SeriesOf(init[k], kind));
      assert init[k] == stats[k];
    }
    if Recorded(stats, kind, day) {
      var k :| 0 <= k < |stats| && day in DaysOf(SeriesOf(stats[k], kind));
      if k < |init| {
        assert init[k] == stats[k];
      }
    }
  }

  lemma {:induction false} AllDaysMembers(stats: seq<RepositoryStats>, kind: Series, day: string)
    ensures day in AllDays(stats, kind) <==> Recorded(stats, kind, day)
  {
    if stats != [] {
      AllDaysMembers(stats[..|stats| - 1], kind, day);
      RecordedSplit(stats, kind, day);
    }
  }

  /** `series.find(p => p.timestamp.split('T')[0] === day)`: the first record
      of the series on that day. */
  function FindByDay(series: seq<TrafficPoint>, day: string): (r: Option<TrafficPoint>)
    ensures r.None? <==> forall j :: 0 <= j < |series| ==> DatePart(series[j].timestamp) != day
    ensures r.Some? ==> exists k :: 0 <= k < |series| && series[k] == r.value &&
                          DatePart(r.value.timestamp) == day &&
                          forall j :: 0 <= j < k ==> DatePart(series[j].timestamp) != day
  {
    var k := FindIndex(series, (p: TrafficPoint) => DatePart(p.timestamp) == day);
    if k < |series| then Some(series[k]) else None
  }

  // ---------------------------------------------------------------------
  // Views and clones charts
  // ---------------------------------------------------------------------

  /** One row of the views or clones chart: its day and, for the repository
      at each position, the count (`<name>_views` or `<name>_clones`) and the
      unique count (`<name>_uniques`) of that day. */
  datatype SeriesRow = SeriesRow(date: string, counts: seq<int>, uniques: seq<int>)

  function RowDates(rows: seq<SeriesRow>): seq<string>
  {
    seq(|rows|, i requires 0 <= i < |rows| => rows[i].date)
  }

  /** The row has a value for every repository: that of the repository's
      first record on the row's day, or 0 when it has none. */
  ghost predicate RowFilled(row: SeriesRow, stats: seq<RepositoryStats>, kind: Series)
  {
    && |row.counts| == |stats|
    && |row.uniques| == |stats|
    && forall k :: 0 <= k < |stats| ==>
         match FindByDay(SeriesOf(stats[k], kind), row.date)
         case Some(p) => row.counts[k] == p.count && row.uniques[k] == p.uniques
         case None => row.counts[k] == 0 && row.uniques[k] == 0
  }

  /** The first nested `forEach` of `prepareViewsData`/`prepareClonesData`:
      the day of every record added to a `Set`. */
  method CollectDays(stats: seq<RepositoryStats>, kind: Series) returns (allTimestamps: seq<string>)
    ensures allTimestamps == FirstSeen(AllDays(stats, kind))
  {
    // The source's `Set`, kept in insertion order.
    allTimestamps := [];
    var i := 0;
    assert stats[..0] == [];
    while i < |stats|
      invariant 0 <= i <= |stats|
      invariant allTimestamps == FirstSeen(AllDays(stats[..i], kind))
    {
      assert stats[..i + 1][..i] == stats[..i];
      allTimestamps := AddDays(allTimestamps, AllDays(stats[..i], kind), SeriesOf(stats[i], kind));
      i := i + 1;
    }
    assert stats[..i] == stats;
  }

  /** The inner `forEach`: the day of each record of one series added to the
      `Set` that holds the days of `seen`. */
  method AddDays(allTimestamps: seq<string>, ghost seen: seq<string>, series: seq<TrafficPoint>)
    returns (added: seq<string>)
    requires allTimestamps == FirstSeen(seen)
    ensures added == FirstSeen(seen + DaysOf(series))
  {
    added := allTimestamps;
    var j := 0;
    assert seen + DaysOf(series[..0]) == seen;
    while j < |series|
      invariant 0 <= j <= |series|
      invariant added == FirstSeen(seen + DaysOf(series[..j]))
    {
      var day := DatePart(series[j].timestamp);
      FirstSeenAppend(seen + DaysOf(series[..j]), day);
      DaysOfSnoc(seen, series, j);
      added := SetAdd(added, day);
      j := j + 1;
    }
    assert series[..j] == series;
  }

  /** The inner `forEach` that fills one row, repository by repository. */
  method FillRow(stats: seq<RepositoryStats>, kind: Series, day: string) returns (row: SeriesRow)
    ensures row.date == day && RowFilled(row, stats, kind)
  {
    var counts: seq<int> := [];
    var uniques: seq<int> := [];
    var k := 0;
    while k < |stats|
      invariant 0 <= k <= |stats|
      invariant |counts| == k && |uniques| == k
      invariant forall m :: 0 <= m < k ==>
                  match FindByDay(SeriesOf(stats[m], kind), day)
                  case Some(p) => counts[m] == p.count && uniques[m] == p.uniques
                  case None => counts[m] == 0 && uniques[m] == 0
    {
      var found := FindByDay(SeriesOf(stats[k], kind), day);
      counts := counts + [if found.Some? then found.value.count else 0];
      uniques := uniques + [if found.Some? then found.value.uniques else 0];
      k := k + 1;
    }
    row := SeriesRow(day, counts, uniques);
  }

  /** `prepareViewsData` (for `Views`) and `prepareClonesData` (for
      `Clones`): one row per distinct day on which any repository has a
      record, days ascending, every row filled in for every repository. */
  method PrepareSeriesData(stats: seq<RepositoryStats>, kind: Series) returns (rows: seq<SeriesRow>)
    ensures StrictlySorted(RowDates(rows))
    ensures forall day :: day in RowDates(rows) <==> Recorded(stats, kind, day)
    ensures forall i :: 0 <= i < |rows| ==> RowFilled(rows[i], stats, kind)
  {
    var allTimestamps := CollectDays(stats, kind);
    var sortedTimestamps := SortStrings(allTimestamps);
    SortStringsStrict(allTimestamps);
    forall day ensures day in sortedTimestamps <==> Recorded(stats, kind, day) {
      assert day in sortedTimestamps <==> day in multiset(allTimestamps);
      AllDaysMembers(stats, kind, day);
    }
    rows := FillRows(stats, kind, sortedTimestamps);
  }

  /** The `map` over the sorted days: one filled row per day, in order. */
  method FillRows(stats: seq<RepositoryStats>, kind: Series, days: seq<string>) returns (rows: seq<SeriesRow>)
    ensures RowDates(rows) == days
    ensures forall i :: 0 <= i < |rows| ==> RowFilled(rows[i], stats, kind)
  {
    rows := [];
    var t := 0;
    while t < |days|
      invariant 0 <= t <= |days|
      invariant |rows| == t
      invariant forall r :: 0 <= r < t ==> rows[r].date == days[r]
      invariant forall r :: 0 <= r < t ==> RowFilled(rows[r], stats, kind)
    {
      var row := FillRow(stats, kind, days[t]);
      rows := rows + [row];
      t := t + 1;
    }
    assert RowDates(rows) == days;
  }

  // ---------------------------------------------------------------------
  // Referrers bar chart
  // ---------------------------------------------------------------------

  /** `referrers.slice(0, 5)`. */
  function Top5(refs: seq<ReferrerEntry>): seq<ReferrerEntry>
  {
    if |refs| <= 5 then refs else refs[..5]
  }

  function ReferrerNames(refs: seq<ReferrerEntry>): seq<string>
  {
    seq(|refs|, i requires 0 <= i < |refs| => refs[i].referrer)
  }

  lemma ReferrerNamesSnoc(seen: seq<string>, refs: seq<ReferrerEntry>, j: nat)
    requires j < |refs|
    ensures seen + ReferrerNames(refs[..j + 1]) == seen + ReferrerNames(refs[..j]) + [refs[j].referrer]
  {
    assert refs[..j + 1] == refs[..j] + [refs[j]];
    assert ReferrerNames(refs[..j + 1]) == ReferrerNames(refs[..j]) + [refs[j].referrer];
  }

  /** The referrer names in the order the nested `forEach` loops meet them:
      the first five of the first repository, then of the second, ... */
  function TopReferrerNames(stats: seq<RepositoryStats>): seq<string>
  {
    if stats == [] then []
    else TopReferrerNames(stats[..|stats| - 1]) + ReferrerNames(Top5(stats[|stats| - 1].referrers))
  }

  /** `name` is among the first five referrers of some repository. */
  ghost predicate InSomeTop5(stats: seq<RepositoryStats>, name: string)
  {
    exists k :: 0 <= k < |stats| && name in ReferrerNames(Top5(stats[k].referrers))
  }

  /** A name among the first five of some repository is among those of
      all but the last repository or among the last one's. */
  lemma InSomeTop5Split(stats: seq<RepositoryStats>, name: string)
    requires stats != []
    ensures InSomeTop5(stats, name) <==>
            InSomeTop5(stats[..|stats| - 1], name) || name in ReferrerNames(Top5(stats[|stats| - 1].referrers))
  {
    var init := stats[..|stats| - 1];
    if InSomeTop5(init, name) {
      var k :| 0 <= k < |init| && name in ReferrerNames(Top5(init[k].referrers));
      assert init[k] == stats[k];
    }
    if InSomeTop5(stats, name) {
      var k :| 0 <= k < |stats| && name in ReferrerNames(Top5(stats[k].referrers));
      if k < |init| {
        assert init[k] == stats[k];
      }
    }
  }

  lemma {:induction false} TopReferrerNamesMembers(stats: seq<RepositoryStats>, name: string)
    ensures name in TopReferrerNames(stats) <==> InSomeTop5(stats, name)
  {
    if stats != [] {
      TopReferrerNamesMembers(stats[..|stats| - 1], name);
      InSomeTop5Split(stats, name);
    }
  }

  /** `referrers.find(r => r.referrer === name)`, over the whole list. */
  function FindReferrer(refs: seq<ReferrerEntry>, name: string): (r: Option<ReferrerEntry>)
    ensures r.None? <==> forall j :: 0 <= j < |refs| ==> refs[j].referrer != name
    ensures r.Some? ==> exists k :: 0 <= k < |refs| && refs[k] == r.value && r.value.referrer == name &&
                          forall j :: 0 <= j < k ==> refs[j].referrer != name
  {
    var k := FindIndex(refs, (e: ReferrerEntry) => e.referrer == name);
    if k < |refs| then Some(refs[k]) else None
  }

  /** One row of the referrer chart: the referrer and, for the repository
      at each position, its count from that referrer. */
  datatype ReferrerRow = ReferrerRow(name: string, counts: seq<int>)

  function RowNames(rows: seq<ReferrerRow>): seq<string>
  {
    seq(|rows|, i requires 0 <= i < |rows| => rows[i].name)
  }

  /** Every repository has a value: the count of the first entry of its
      full referrer list with the row's name, or 0 when there is none. */
  ghost predicate ReferrerRowFilled(row: ReferrerRow, stats: seq<RepositoryStats>)
  {
    && |row.counts| == |stats|
    && forall k :: 0 <= k < |stats| ==>
         match FindReferrer(stats[k].referrers, row.name)
         case Some(e) => row.counts[k] == e.count
         case None => row.counts[k] == 0
  }

  /** The first nested `forEach` of `prepareReferrersData`: the names of
      each repository's first five referrers added to a `Set`. */
  method CollectTopReferrers(stats: seq<RepositoryStats>) returns (allReferrers: seq<string>)
    ensures allReferrers == FirstSeen(TopReferrerNames(stats))
  {
    // The source's `Set`, kept in insertion order.
    allReferrers := [];
    var i := 0;
    assert stats[..0] == [];
    while i < |stats|
      invariant 0 <= i <= |stats|
      invariant allReferrers == FirstSeen(TopReferrerNames(stats[..i]))
    {
      assert stats[..i + 1][..i] == stats[..i];
      allReferrers := AddReferrers(allReferrers, TopReferrerNames(stats[..i]), Top5(stats[i].referrers));
      i := i + 1;
    }
    assert stats[..i] == stats;
  }

  /** The inner `forEach`: the name of each of the given referrers added to
      the `Set` that holds the names of `seen`. */
  method AddReferrers(allReferrers: seq<string>, ghost seen: seq<string>, top: seq<ReferrerEntry>)
    returns (added: seq<string>)
    requires allReferrers == FirstSeen(seen)
    ensures added == FirstSeen(seen + ReferrerNames(top))
  {
    added := allReferrers;
    var j := 0;
    assert seen + ReferrerNames(top[..0]) == seen;
    while j < |top|
      invariant 0 <= j <= |top|
      invariant added == FirstSeen(seen + ReferrerNames(top[..j]))
    {
      var name := top[j].referrer;
      FirstSeenAppend(seen + ReferrerNames(top[..j]), name);
      ReferrerNamesSnoc(seen, top, j);
      added := SetAdd(added, name);
      j := j + 1;
    }
    assert top[..j] == top;
  }

  /** The inner `forEach` that fills one referrer row. */
  method FillReferrerRow(stats: seq<RepositoryStats>, name: string) returns (row: ReferrerRow)
    ensures row.name == name && ReferrerRowFilled(row, stats)
  {
    var counts: seq<int> := [];
    var k := 0;
    while k < |stats|
      invariant 0 <= k <= |stats|
      invariant |counts| == k
      invariant forall m :: 0 <= m < k ==>
                  match FindReferrer(stats[m].referrers, name)
                  case Some(e) => counts[m] == e.count
                  case None => counts[m] == 0
    {
      var refData := FindReferrer(stats[k].referrers, name);
      counts := counts + [if refData.Some? then refData.value.count else 0];
      k := k + 1;
    }
    row := ReferrerRow(name, counts);
  }

  /** `prepareReferrersData`: one row per distinct referrer among the first
      five of each repository, in the order first met, each row filled from
      the repositories' full lists. */
  method PrepareReferrersData(stats: seq<RepositoryStats>) returns (rows: seq<ReferrerRow>)
    ensures RowNames(rows) == FirstSeen(TopReferrerNames(stats))
    ensures NoDuplicates(RowNames(rows))
    ensures forall name :: name in RowNames(rows) <==> InSomeTop5(stats, name)
    ensures forall i :: 0 <= i < |rows| ==> ReferrerRowFilled(rows[i], stats)
  {
    var allReferrers := CollectTopReferrers(stats);
    forall name ensures name in allReferrers <==> InSomeTop5(stats, name) {
      TopReferrerNamesMembers(stats, name);
    }
    rows := FillReferrerRows(stats, allReferrers);
  }

  /** The `map` over the collected names: one filled row per name, in order. */
  method FillReferrerRows(stats: seq<RepositoryStats>, names: seq<string>) returns (rows: seq<ReferrerRow>)
    ensures RowNames(rows) == names
    ensures forall i :: 0 <= i < |rows| ==> ReferrerRowFilled(rows[i], stats)
  {
    rows := [];
    var t := 0;
    while t < |names|
      invariant 0 <= t <= |names|
      invariant |rows| == t
      invariant forall r :: 0 <= r < t ==> rows[r].name == names[r]
      invariant forall r :: 0 <= r < t ==> ReferrerRowFilled(rows[r], stats)
    {
      var row := FillReferrerRow(stats, names[t]);
      rows := rows + [row];
      t := t + 1;
    }
    assert RowNames(rows) == names;
  }

  // ---------------------------------------------------------------------
  // Stars and forks, totals
  // ---------------------------------------------------------------------

  datatype StarsForksRow = StarsForksRow(name: string, stars: int, forks: int)

  /** `prepareStarsForks`: one bar group per repository, in list order. */
  function PrepareStarsForks(stats: seq<RepositoryStats>): (rows: seq<StarsForksRow>)
    ensures |rows| == |stats|
    ensures forall i :: 0 <= i < |rows| ==>
              rows[i].name == stats[i].repository.name &&
              rows[i].stars == stats[i].repository.stars &&
              rows[i].forks == stats[i].repository.forks
  {
    seq(|stats|, i requires 0 <= i < |stats| =>
      StarsForksRow(stats[i].repository.name, stats[i].repository.stars, stats[i].repository.forks))
  }

  /** The three totals of a summary table row. */
  datatype Totals = Totals(views: int, uniqueVisitors: int, clones: int)

  function TotalsOf(stat: RepositoryStats): (t: Totals)
    ensures stat.views == [] ==> t.views == 0 && t.uniqueVisitors == 0
    ensures stat.clones == [] ==> t.clones == 0
    ensures (forall p :: p in stat.views ==> p.count >= 0) ==> t.views >= 0
    ensures (forall p :: p in stat.views ==> p.uniques >= 0) ==> t.uniqueVisitors >= 0
    ensures (forall p :: p in stat.clones ==> p.count >= 0) ==> t.clones >= 0
  {
    Totals(
      SumBy(stat.views, (p: TrafficPoint) => p.count),
      SumBy(stat.views, (p: TrafficPoint) => p.uniques),
      SumBy(stat.clones, (p: TrafficPoint) => p.count))
  }

  /** The sum of a series' counts and of its unique counts, added up from
      the front: the reference definitions for the table's left folds. */
  function CountSum(series: seq<TrafficPoint>): int
  {
    if series == [] then 0 else series[0].count + CountSum(series[1..])
  }

  function UniquesSum(series: seq<TrafficPoint>): int
  {
    if series == [] then 0 else series[0].uniques + UniquesSum(series[1..])
  }

  lemma {:induction false} CountFoldIsCountSum(series: seq<TrafficPoint>)
    ensures SumBy(series, (p: TrafficPoint) => p.count) == CountSum(series)
  {
    var f := (p: TrafficPoint) => p.count;
    if series != [] {
      SumByConcat([series[0]], series[1..], f);
      assert [series[0]] + series[1..] == series;
      assert [series[0]][..0] == [];
      CountFoldIsCountSum(series[1..]);
    }
  }

  lemma {:induction false} UniquesFoldIsUniquesSum(series: seq<TrafficPoint>)
    ensures SumBy(series, (p: TrafficPoint) => p.uniques) == UniquesSum(series)
  {
    var f := (p: TrafficPoint) => p.uniques;
    if series != [] {
      SumByConcat([series[0]], series[1..], f);
      assert [series[0]] + series[1..] == series;
      assert [series[0]][..0] == [];
      UniquesFoldIsUniquesSum(series[1..]);
    }
  }

  /** A row of the summary table: total views, total unique visitors and
      total clones are the sums over the repository's series. */
  lemma TotalsAreSums(stat: RepositoryStats)
    ensures TotalsOf(stat) == Totals(CountSum(stat.views), UniquesSum(stat.views), CountSum(stat.clones))
  {
    CountFoldIsCountSum(stat.views);
    UniquesFoldIsUniquesSum(stat.views);
    CountFoldIsCountSum(stat.clones);
  }
}
