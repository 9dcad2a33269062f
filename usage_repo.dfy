/**
 * `UsageRepository`: today's foreground time per app, computed from the
 * platform's RESUMED/PAUSED event stream, and its snapshot in the store.
 *
 * The platform services are parameters: `events` is what `queryEvents(start, end)`
 * delivers, `end` is the clock reading taken before the query, `today` is
 * the "yyyy-MM-dd" date string and `labelOf` is the package manager's lookup
 * (None where it throws NameNotFoundException).
 */
module UsageRepo {
  import opened Wrappers
  import opened Collections
  import opened UsageStore

  datatype EventType = ActivityResumed | ActivityPaused | OtherEvent(code: int)

  datatype UsageEvent = UsageEvent(packageName: string, eventType: EventType, timeStamp: int)

  datatype AppUsageInfo = AppUsageInfo(packageName: string, appName: string, usageTimeMs: int)

  /** Totals of one minute or less are dropped. */
  const NoiseFloorMs := 60000

  function InfoUsage(a: AppUsageInfo): int {
    a.usageTimeMs
  }

  function InfoPackage(a: AppUsageInfo): string {
    a.packageName
  }

  /** The two maps of the fold: open foreground start and running total, per package. */
  datatype Tally = Tally(foregroundStart: LinkedMap, usageMap: LinkedMap)

  ghost predicate TallyValid(t: Tally) {
    Valid(t.foregroundStart) && Valid(t.usageMap)
  }

  /** Every running total in the map is positive: only positive durations are ever added. */
  ghost predicate PositiveTotals(m: LinkedMap) {
    forall k :: k in m.values ==> m.values[k] > 0
  }

  /** `if (duration > 0) usageMap[pkg] = (usageMap[pkg] ?: 0L) + duration`. */
  function AddUsage(usageMap: LinkedMap, pkg: string, duration: int): (r: LinkedMap)
    requires Valid(usageMap)
    ensures Valid(r)
    ensures duration > 0 ==> Get(r, pkg) == Some(Get(usageMap, pkg).GetOr(0) + duration)
    ensures duration <= 0 ==> r == usageMap
    ensures forall q :: q != pkg ==> Get(r, q) == Get(usageMap, q)
  {
    if duration > 0 then Put(usageMap, pkg, Get(usageMap, pkg).GetOr(0) + duration) else usageMap
  }

  function Positive(x: int): int {
    if x > 0 then x else 0
  }

  /** One turn of the `while (events.hasNextEvent())` loop. */
  function Step(t: Tally, e: UsageEvent): (r: Tally)
    requires TallyValid(t)
    ensures TallyValid(r)
    // RESUMED: the open start becomes this timestamp, overwriting an earlier one
    ensures e.eventType == ActivityResumed ==>
      Get(r.foregroundStart, e.packageName) == Some(e.timeStamp) && r.usageMap == t.usageMap
    // PAUSED: the open start is always cleared ...
    ensures e.eventType == ActivityPaused ==> Get(r.foregroundStart, e.packageName) == None
    // ... and the session is credited when it has positive length
    ensures e.eventType == ActivityPaused && Get(t.foregroundStart, e.packageName).Some? ==>
      Get(r.usageMap, e.packageName).GetOr(0)
        == Get(t.usageMap, e.packageName).GetOr(0) + Positive(e.timeStamp - Get(t.foregroundStart, e.packageName).value)
    // an unmatched PAUSED and every other event type leave both maps as they are
    ensures e.eventType.OtherEvent? || (e.eventType == ActivityPaused && Get(t.foregroundStart, e.packageName).None?) ==>
      r == t
    // other packages are not touched
    ensures forall q :: q != e.packageName ==>
      Get(r.foregroundStart, q) == Get(t.foregroundStart, q) && Get(r.usageMap, q) == Get(t.usageMap, q)
  {
    match e.eventType
    case ActivityResumed =>
      Tally(Put(t.foregroundStart, e.packageName, e.timeStamp), t.usageMap)
    case ActivityPaused =>
      var startTime := Get(t.foregroundStart, e.packageName);
      var open := Remove(t.foregroundStart, e.packageName);
      if startTime.Some? then
        Tally(open, AddUsage(t.usageMap, e.packageName, e.timeStamp - startTime.value))
      else
        Tally(open, t.usageMap)
    case OtherEvent(_) => t
  }

  /** The maps after the `while` loop has consumed `events`. */
  function Fold(events: seq<UsageEvent>): (t: Tally)
    ensures TallyValid(t)
  {
    if events == [] then Tally(EmptyMap, EmptyMap)
    else Step(Fold(events[..|events| - 1]), events[|events| - 1])
  }

  lemma FoldNext(events: seq<UsageEvent>, i: nat)
    requires i < |events|
    ensures Fold(events[..i + 1]) == Step(Fold(events[..i]), events[i])
  {
    assert events[..i + 1][..i] == events[..i];
  }

  /** The follow-up `for` loop after `j` of the still-open packages, in map order, were charged up to `end`. */
  function CloseOpen(t: Tally, end: int, j: nat): (r: LinkedMap)
    requires TallyValid(t) && j <= |t.foregroundStart.keys|
    ensures Valid(r)
  {
    if j == 0 then t.usageMap
    else
      var pkg := t.foregroundStart.keys[j - 1];
      assert pkg in t.foregroundStart.keys;
      AddUsage(CloseOpen(t, end, j - 1), pkg, end - t.foregroundStart.values[pkg])
  }

  /** Per-package totals once every open session has been closed at `end`. */
  function Totals(events: seq<UsageEvent>, end: int): (r: LinkedMap)
    ensures Valid(r)
  {
    var t := Fold(events);
    CloseOpen(t, end, |t.foregroundStart.keys|)
  }

  /** The label the package manager gives, or the package name when the lookup fails. */
  function AppName(labelOf: string -> Option<string>, pkg: string): string {
    labelOf(pkg).GetOr(pkg)
  }

  /** `usageMap.filter { it.value > 60_000 }.map { ... }`, in map order. */
  function Kept(keys: seq<string>, values: map<string, int>, labelOf: string -> Option<string>): (r: seq<AppUsageInfo>)
    requires forall k :: k in keys ==> k in values
    ensures forall x :: x in r ==>
      && x.packageName in keys
      && x.usageTimeMs == values[x.packageName]
      && x.usageTimeMs > NoiseFloorMs
      && x.appName == AppName(labelOf, x.packageName)
    ensures forall k :: k in keys && values[k] > NoiseFloorMs ==> AppUsageInfo(k, AppName(labelOf, k), values[k]) in r
  {
    if keys == [] then []
    else
      var rest := Kept(keys[1..], values, labelOf);
      var k := keys[0];
      assert forall q :: q in keys <==> q == k || q in keys[1..];
      if values[k] > NoiseFloorMs then [AppUsageInfo(k, AppName(labelOf, k), values[k])] + rest else rest
  }

  lemma {:induction false} KeptDistinct(keys: seq<string>, values: map<string, int>, labelOf: string -> Option<string>)
    requires forall k :: k in keys ==> k in values
    requires Distinct(keys)
    ensures DistinctBy(Kept(keys, values, labelOf), InfoPackage)
  {
    if keys != [] {
      var rest := Kept(keys[1..], values, labelOf);
      assert Distinct(keys[1..]) && keys[0] !in keys[1..];
      KeptDistinct(keys[1..], values, labelOf);
      if values[keys[0]] > NoiseFloorMs {
        var r := [AppUsageInfo(keys[0], AppName(labelOf, keys[0]), values[keys[0]])] + rest;
        forall i, j | 0 <= i < j < |r| ensures InfoPackage(r[i]) != InfoPackage(r[j]) {
          assert r[j] == rest[j - 1] && rest[j - 1] in rest;
          if i > 0 {
            assert r[i] == rest[i - 1];
          }
        }
      }
    }
  }

  /** What `queryTodayUsage` returns: the kept totals, longest first, ties in map order. */
  function TodayUsage(events: seq<UsageEvent>, end: int, labelOf: string -> Option<string>): seq<AppUsageInfo> {
    var totals := Totals(events, end);
    SortDesc(Kept(totals.keys, totals.values, labelOf), InfoUsage)
  }

  /** The rows `refreshAndSave` writes: each record stamped with today's date, other fields unchanged. */
  function Stamped(infos: seq<AppUsageInfo>, today: string): (r: seq<AppUsageEntity>)
    ensures |r| == |infos|
    ensures forall i :: 0 <= i < |r| ==>
      r[i] == AppUsageEntity(infos[i].packageName, infos[i].appName, infos[i].usageTimeMs, today)
  {
    if infos == [] then []
    else
      var x := infos[|infos| - 1];
      Stamped(infos[..|infos| - 1], today) + [AppUsageEntity(x.packageName, x.appName, x.usageTimeMs, today)]
  }

  lemma {:induction false} FoldPositive(events: seq<UsageEvent>)
    ensures PositiveTotals(Fold(events).usageMap)
  {
    if events != [] {
      FoldPositive(events[..|events| - 1]);
      var t := Fold(events[..|events| - 1]);
      var e := events[|events| - 1];
      forall k | k in Fold(events).usageMap.values ensures Fold(events).usageMap.values[k] > 0 {
        assert Get(Fold(events).usageMap, k).Some?;
        if k != e.packageName {
          assert Get(t.usageMap, k) == Get(Fold(events).usageMap, k);
        }
      }
    }
  }

  lemma {:induction false} CloseOpenPositive(t: Tally, end: int, j: nat)
    requires TallyValid(t) && j <= |t.foregroundStart.keys|
    requires PositiveTotals(t.usageMap)
    ensures PositiveTotals(CloseOpen(t, end, j))
  {
    if j > 0 {
      CloseOpenPositive(t, end, j - 1);
      var before := CloseOpen(t, end, j - 1);
      var pkg := t.foregroundStart.keys[j - 1];
      forall k | k in CloseOpen(t, end, j).values ensures CloseOpen(t, end, j).values[k] > 0 {
        assert Get(CloseOpen(t, end, j), k).Some?;
        if k != pkg {
          assert Get(before, k) == Get(CloseOpen(t, end, j), k);
        }
      }
    }
  }

  /** Only positive durations are ever added, so every total in the map is positive. */
  lemma TotalsPositive(events: seq<UsageEvent>, end: int)
    ensures PositiveTotals(Totals(events, end))
  {
    FoldPositive(events);
    CloseOpenPositive(Fold(events), end, |Fold(events).foregroundStart.keys|);
  }

  // ---------------------------------------------------------------------------
  // An independent reading: each package's events on their own

  /** A package's open session start and credited total, reading only its own events. */
  datatype Sessions = Sessions(open: Option<int>, total: int)

  function PackageSessions(events: seq<UsageEvent>, p: string): Sessions {
    if events == [] then Sessions(None, 0)
    else
      var s := PackageSessions(events[..|events| - 1], p);
      var e := events[|events| - 1];
      if e.packageName != p then s
      else
        match e.eventType
        case ActivityResumed => Sessions(Some(e.timeStamp), s.total)
        case ActivityPaused =>
          if s.open.Some? then Sessions(None, s.total + Positive(e.timeStamp - s.open.value)) else s
        case OtherEvent(_) => s
  }

  /** A package's foreground time: its closed sessions plus the open one, cut at `end`. */
  function PackageTotal(events: seq<UsageEvent>, end: int, p: string): int {
    var s := PackageSessions(events, p);
    s.total + (if s.open.Some? then Positive(end - s.open.value) else 0)
  }

  lemma {:induction false} FoldIsPerPackage(events: seq<UsageEvent>, p: string)
    ensures Get(Fold(events).foregroundStart, p) == PackageSessions(events, p).open
    ensures Get(Fold(events).usageMap, p).GetOr(0) == PackageSessions(events, p).total
  {
    if events != [] {
      FoldIsPerPackage(events[..|events| - 1], p);
    }
  }

  /** One turn of the follow-up loop charges only the package it visits. */
  lemma CloseOpenStep(t: Tally, end: int, j: nat, p: string)
    requires TallyValid(t) && 0 < j <= |t.foregroundStart.keys|
    ensures var pkg := t.foregroundStart.keys[j - 1];
      Get(CloseOpen(t, end, j), p).GetOr(0) == Get(CloseOpen(t, end, j - 1), p).GetOr(0)
        + (if p == pkg then Positive(end - t.foregroundStart.values[pkg]) else 0)
  {
    assert t.foregroundStart.keys[j - 1] in t.foregroundStart.keys;
  }

  /** The packages visited after `j` turns: those of the first `j - 1`, and the `j`-th, which is new. */
  lemma VisitedPrefix(ks: seq<string>, j: nat, p: string)
    requires Distinct(ks) && 0 < j <= |ks|
    ensures (p in ks[..j]) <==> (p in ks[..j - 1] || p == ks[j - 1])
    ensures p == ks[j - 1] ==> p !in ks[..j - 1]
  {
    var before := ks[..j - 1];
    assert ks[..j] == before + [ks[j - 1]];
    if p == ks[j - 1] {
      forall i | 0 <= i < |before| ensures before[i] != p {
        assert before[i] == ks[i];
      }
    }
  }

  /** What the loop has charged `p` after `j` turns, given what it had after `j - 1`. */
  lemma ChargedAfterStep(t: Tally, end: int, j: nat, p: string)
    requires TallyValid(t) && 0 < j <= |t.foregroundStart.keys|
    requires Get(CloseOpen(t, end, j - 1), p).GetOr(0) == Get(t.usageMap, p).GetOr(0)
      + (if p in t.foregroundStart.keys[..j - 1] then Positive(end - t.foregroundStart.values[p]) else 0)
    ensures Get(CloseOpen(t, end, j), p).GetOr(0) == Get(t.usageMap, p).GetOr(0)
      + (if p in t.foregroundStart.keys[..j] then Positive(end - t.foregroundStart.values[p]) else 0)
  {
    CloseOpenStep(t, end, j, p);
    VisitedPrefix(t.foregroundStart.keys, j, p);
  }

  lemma {:induction false} CloseOpenPerPackage(t: Tally, end: int, j: nat, p: string)
    requires TallyValid(t) && j <= |t.foregroundStart.keys|
    ensures Get(CloseOpen(t, end, j), p).GetOr(0) == Get(t.usageMap, p).GetOr(0)
      + (if p in t.foregroundStart.keys[..j] then Positive(end - t.foregroundStart.values[p]) else 0)
  {
    if j > 0 {
      CloseOpenPerPackage(t, end, j - 1, p);
      ChargedAfterStep(t, end, j, p);
    }
  }

  /** The fold with its follow-up loop computes, for every package, the per-package reading. */
  lemma TotalsArePerPackage(events: seq<UsageEvent>, end: int, p: string)
    ensures Get(Totals(events, end), p).GetOr(0) == PackageTotal(events, end, p)
  {
    var t := Fold(events);
    FoldIsPerPackage(events, p);
    CloseOpenPerPackage(t, end, |t.foregroundStart.keys|, p);
    assert t.foregroundStart.keys[..|t.foregroundStart.keys|] == t.foregroundStart.keys;
  }

  // ---------------------------------------------------------------------------
  // What `queryTodayUsage` promises

  /**
   * Exactly the packages whose foreground time exceeds one minute are listed,
   * each with the looked-up name (or its package name) and that time.
   */
  lemma TodayUsageContents(events: seq<UsageEvent>, end: int, labelOf: string -> Option<string>)
    ensures forall x :: x in TodayUsage(events, end, labelOf) ==>
      x == AppUsageInfo(x.packageName, AppName(labelOf, x.packageName), PackageTotal(events, end, x.packageName))
      && x.usageTimeMs > NoiseFloorMs
    ensures forall p :: PackageTotal(events, end, p) > NoiseFloorMs ==>
      AppUsageInfo(p, AppName(labelOf, p), PackageTotal(events, end, p)) in TodayUsage(events, end, labelOf)
  {
    var totals := Totals(events, end);
    var kept := Kept(totals.keys, totals.values, labelOf);
    var r := TodayUsage(events, end, labelOf);
    assert forall x :: x in r <==> x in multiset(r);
    assert forall x :: x in kept <==> x in multiset(kept);
    forall x | x in r
      ensures x == AppUsageInfo(x.packageName, AppName(labelOf, x.packageName), PackageTotal(events, end, x.packageName))
    {
      TotalsArePerPackage(events, end, x.packageName);
    }
    forall p | PackageTotal(events, end, p) > NoiseFloorMs
      ensures AppUsageInfo(p, AppName(labelOf, p), PackageTotal(events, end, p)) in r
    {
      TotalsArePerPackage(events, end, p);
      assert p in totals.values;
    }
  }

  /** The list is in non-increasing order of usage and names each package at most once. */
  lemma TodayUsageSortedDistinct(events: seq<UsageEvent>, end: int, labelOf: string -> Option<string>)
    ensures SortedDesc(TodayUsage(events, end, labelOf), InfoUsage)
    ensures DistinctBy(TodayUsage(events, end, labelOf), InfoPackage)
  {
    var totals := Totals(events, end);
    KeptDistinct(totals.keys, totals.values, labelOf);
    SortDescDistinct(Kept(totals.keys, totals.values, labelOf), InfoUsage, InfoPackage);
  }

  lemma {:induction false} SessionsInWindow(events: seq<UsageEvent>, p: string, lo: int)
    requires forall i :: 0 <= i < |events| ==> lo <= events[i].timeStamp
    requires forall i, j :: 0 <= i < j < |events| ==> events[i].timeStamp <= events[j].timeStamp
    ensures var s := PackageSessions(events, p);
      var last := if events == [] then lo else events[|events| - 1].timeStamp;
      && 0 <= s.total
      && (s.open.Some? ==> lo <= s.open.value <= last && s.total <= s.open.value - lo)
      && (s.open.None? ==> s.total <= last - lo)
  {
    if events != [] {
      var init := events[..|events| - 1];
      assert forall i :: 0 <= i < |init| ==> init[i] == events[i];
      SessionsInWindow(init, p, lo);
      if init != [] {
        assert init[|init| - 1].timeStamp <= events[|events| - 1].timeStamp;
      }
    }
  }

  /**
   * With the stream in time order inside [start, end], no package is credited
   * more than the length of the window.
   */
  lemma TotalWithinWindow(events: seq<UsageEvent>, start: int, end: int, p: string)
    requires forall i :: 0 <= i < |events| ==> start <= events[i].timeStamp <= end
    requires forall i, j :: 0 <= i < j < |events| ==> events[i].timeStamp <= events[j].timeStamp
    requires start <= end
    ensures 0 <= PackageTotal(events, end, p) <= end - start
  {
    SessionsInWindow(events, p, start);
  }

  /** A session still open at the end is counted up to `end`: RESUMED(A, 0) at 120000 gives A = 120000. */
  lemma OpenSessionRunsToEnd(a: string, labelOf: string -> Option<string>)
    ensures TodayUsage([UsageEvent(a, ActivityResumed, 0)], 120000, labelOf) == [AppUsageInfo(a, AppName(labelOf, a), 120000)]
  {
    var events := [UsageEvent(a, ActivityResumed, 0)];
    assert events[..0] == [];
    assert [] + [a] == [a];
    var t := Fold(events);
    assert Fold(events[..0]) == Tally(EmptyMap, EmptyMap);
    assert t == Step(Fold(events[..0]), events[0]);
    assert t.foregroundStart == LinkedMap([a], map[a := 0]);
    assert t.usageMap == EmptyMap;
    var totals := Totals(events, 120000);
    assert CloseOpen(t, 120000, 0) == EmptyMap;
    assert totals == CloseOpen(t, 120000, 1);
    assert totals == AddUsage(EmptyMap, a, 120000 - 0);
    assert totals == LinkedMap([a], map[a := 120000]);
    var kept := Kept(totals.keys, totals.values, labelOf);
    assert [a][1..] == [];
    assert Kept([], totals.values, labelOf) == [];
    assert kept == [AppUsageInfo(a, AppName(labelOf, a), 120000)] + [];
    assert [AppUsageInfo(a, AppName(labelOf, a), 120000)][..0] == [];
  }

  /** A second RESUMED overwrites the first: the abandoned session counts for nothing. */
  lemma LaterResumeWins(a: string, t0: int, t1: int, t2: int, end: int)
    requires t0 <= t1 < t2
    ensures PackageTotal([UsageEvent(a, ActivityResumed, t0), UsageEvent(a, ActivityResumed, t1),
      UsageEvent(a, ActivityPaused, t2)], end, a) == t2 - t1
  {
    var events := [UsageEvent(a, ActivityResumed, t0), UsageEvent(a, ActivityResumed, t1), UsageEvent(a, ActivityPaused, t2)];
    assert events[..2][..1] == [events[0]];
    assert events[..2][..1][..0] == [];
    assert PackageSessions(events[..1], a) == Sessions(Some(t0), 0);
    assert PackageSessions(events[..2], a) == Sessions(Some(t1), 0);
  }

  /** One closed session of `d` milliseconds is the only total. */
  lemma OneSessionTotals(a: string, d: int, end: int)
    requires d > 0
    ensures Totals([UsageEvent(a, ActivityResumed, 0), UsageEvent(a, ActivityPaused, d)], end) == LinkedMap([a], map[a := d])
  {
    var e := [UsageEvent(a, ActivityResumed, 0), UsageEvent(a, ActivityPaused, d)];
    assert e[..1][..0] == [];
    assert Fold(e[..1]).foregroundStart == LinkedMap([a], map[a := 0]);
    assert Without([a], a) == [];
  }

  /** One session of exactly a minute is dropped; one millisecond more is kept. */
  lemma NoiseFloorIsStrict(a: string, labelOf: string -> Option<string>, end: int)
    ensures TodayUsage([UsageEvent(a, ActivityResumed, 0), UsageEvent(a, ActivityPaused, 60000)], end, labelOf) == []
    ensures TodayUsage([UsageEvent(a, ActivityResumed, 0), UsageEvent(a, ActivityPaused, 60001)], end, labelOf)
      == [AppUsageInfo(a, AppName(labelOf, a), 60001)]
  {
    OneSessionTotals(a, 60000, end);
    OneSessionTotals(a, 60001, end);
    SingleTotalListing(a, 60000, labelOf);
    SingleTotalListing(a, 60001, labelOf);
  }

  /** The listing of a single total: the package when it passes the floor, nothing otherwise. */
  lemma SingleTotalListing(a: string, v: int, labelOf: string -> Option<string>)
    ensures SortDesc(Kept([a], map[a := v], labelOf), InfoUsage)
      == if v > NoiseFloorMs then [AppUsageInfo(a, AppName(labelOf, a), v)] else []
  {
    assert [a][1..] == [];
    if v > NoiseFloorMs {
      assert [AppUsageInfo(a, AppName(labelOf, a), v)][..0] == [];
    }
  }

  /** After `refreshAndSave`, today's rows are exactly today's listing, stamped, in order. */
  lemma RefreshStoresToday(rows: seq<AppUsageEntity>, today: string, events: seq<UsageEvent>, end: int,
                           labelOf: string -> Option<string>)
    ensures var saved := Stamped(TodayUsage(events, end, labelOf), today);
      DatedOn(Replaced(rows, today, saved), today) == saved
  {
    var usage := TodayUsage(events, end, labelOf);
    var saved := Stamped(usage, today);
    TodayUsageSortedDistinct(events, end, labelOf);
    assert DistinctBy(saved, PackageOf) by {
      forall i, j | 0 <= i < j < |saved| ensures PackageOf(saved[i]) != PackageOf(saved[j]) {
        assert InfoPackage(usage[i]) != InfoPackage(usage[j]);
      }
    }
    ReplacedDay(rows, today, saved);
  }

  /** After `refreshAndSave`, today's rows are exactly today's listing and other days are untouched. */
  lemma RefreshReplacesToday(rows: seq<AppUsageEntity>, today: string, events: seq<UsageEvent>, end: int,
                             labelOf: string -> Option<string>, other: string)
    requires other != today
    ensures var saved := Stamped(TodayUsage(events, end, labelOf), today);
      && DatedOn(Replaced(rows, today, saved), today) == saved
      && DatedOn(Replaced(rows, today, saved), other) == DatedOn(rows, other)
  {
    RefreshStoresToday(rows, today, events, end, labelOf);
    ReplacedOtherDays(rows, today, Stamped(TodayUsage(events, end, labelOf), today), other);
  }

  /** Stamping today's date on the records keeps their total. */
  lemma {:induction false} StampedTotal(infos: seq<AppUsageInfo>, today: string)
    ensures RowsTotal(Stamped(infos, today)) == SumBy(infos, InfoUsage)
  {
    if infos != [] {
      var init := infos[..|infos| - 1];
      StampedTotal(init, today);
      var rows := Stamped(infos, today);
      assert rows[..|rows| - 1] == Stamped(init, today);
    }
  }

  /** Once today's usage is saved, the stored total for today is the sum of that usage. */
  lemma RefreshedTotal(rows: seq<AppUsageEntity>, today: string, events: seq<UsageEvent>, end: int, labelOf: string -> Option<string>)
    ensures RowsTotal(DatedOn(Replaced(rows, today, Stamped(TodayUsage(events, end, labelOf), today)), today))
      == SumBy(TodayUsage(events, end, labelOf), InfoUsage)
  {
    RefreshStoresToday(rows, today, events, end, labelOf);
    StampedTotal(TodayUsage(events, end, labelOf), today);
  }

  class UsageRepository {
    const dao: AppUsageDao

    constructor (dao: AppUsageDao)
      ensures this.dao == dao
    {
      this.dao := dao;
    }

    /** The body of the `while` loop: one event read from the stream. */
    method HandleEvent(foregroundStart: LinkedMap, usageMap: LinkedMap, event: UsageEvent)
      returns (foregroundStart': LinkedMap, usageMap': LinkedMap)
      requires TallyValid(Tally(foregroundStart, usageMap))
      ensures Tally(foregroundStart', usageMap') == Step(Tally(foregroundStart, usageMap), event)
    {
      var pkg := event.packageName;
      foregroundStart', usageMap' := foregroundStart, usageMap;
      match event.eventType {
        case ActivityResumed =>
          foregroundStart' := Put(foregroundStart, pkg, event.timeStamp);
        case ActivityPaused =>
          var startTime := Get(foregroundStart, pkg);
          foregroundStart' := Remove(foregroundStart, pkg);
          if startTime.Some? {
            usageMap' := AddUsage(usageMap, pkg, event.timeStamp - startTime.value);
          }
        case OtherEvent(_) =>
      }
    }

    /** The `while (events.hasNextEvent())` loop of `queryTodayUsage`. */
    method ReadEvents(events: seq<UsageEvent>) returns (foregroundStart: LinkedMap, usageMap: LinkedMap)
      ensures Tally(foregroundStart, usageMap) == Fold(events)
    {
      foregroundStart := EmptyMap;
      usageMap := EmptyMap;
      var i := 0;
      while i < |events|
        invariant 0 <= i <= |events|
        invariant Tally(foregroundStart, usageMap) == Fold(events[..i])
      {
        foregroundStart, usageMap := HandleEvent(foregroundStart, usageMap, events[i]);
        FoldNext(events, i);
        i := i + 1;
      }
      assert events[..|events|] == events;
    }

    /** The `for ((pkg, startTime) in foregroundStart)` loop: still-open sessions are charged up to `end`. */
    method CloseSessions(folded: Tally, end: int) returns (usageMap: LinkedMap)
      requires TallyValid(folded)
      ensures usageMap == CloseOpen(folded, end, |folded.foregroundStart.keys|)
    {
      var foregroundStart := folded.foregroundStart;
      usageMap := folded.usageMap;
      for j := 0 to |foregroundStart.keys|
        invariant usageMap == CloseOpen(folded, end, j)
      {
        var pkg := foregroundStart.keys[j];
        assert pkg in foregroundStart.keys;
        var duration := end - foregroundStart.values[pkg];
        usageMap := AddUsage(usageMap, pkg, duration);
      }
    }

    /** `queryTodayUsage`: the event loop, the loop over open sessions, then filter, map and sort. */
    method QueryTodayUsage(events: seq<UsageEvent>, end: int, labelOf: string -> Option<string>)
      returns (r: seq<AppUsageInfo>)
      ensures r == TodayUsage(events, end, labelOf)
      ensures SortedDesc(r, InfoUsage) && DistinctBy(r, InfoPackage)
      ensures forall x :: x in r ==> x.usageTimeMs > NoiseFloorMs && x.usageTimeMs == PackageTotal(events, end, x.packageName)
    {
      var foregroundStart, usageMap := ReadEvents(events);
      usageMap := CloseSessions(Tally(foregroundStart, usageMap), end);
      var kept := Kept(usageMap.keys, usageMap.values, labelOf);
      r := SortDesc(kept, InfoUsage);
      TodayUsageSortedDistinct(events, end, labelOf);
      TodayUsageContents(events, end, labelOf);
    }

    /** `refreshAndSave`: today's listing, stamped with today's date, replaces that day's rows. */
    method RefreshAndSave(today: string, events: seq<UsageEvent>, end: int, labelOf: string -> Option<string>)
      requires dao.Valid()
      modifies dao
      ensures dao.Valid()
      ensures dao.rows == Replaced(old(dao.rows), today, Stamped(TodayUsage(events, end, labelOf), today))
    {
      var infos := QueryTodayUsage(events, end, labelOf);
      var usages := Stamped(infos, today);
      dao.ReplaceByDate(today, usages);
    }

    /** `getTodayUsageFlow`, the first value the flow emits. */
    method GetTodayUsage(today: string) returns (r: seq<AppUsageEntity>)
      ensures r == UsageByDate(dao.rows, today)
    {
      r := dao.GetUsageByDate(today);
    }

    /** `getTodayTotalMs`: the stored sum for today, 0 when there are no rows. */
    method GetTodayTotalMs(today: string) returns (r: int)
      ensures r == RowsTotal(DatedOn(dao.rows, today))
      ensures (forall x :: x in dao.rows ==> x.date != today) ==> r == 0
    {
      var total := dao.GetTotalUsageByDate(today);
      r := total.GetOr(0);
      if total.None? {
        DatedOnEmpty(dao.rows, today);
      }
    }
  }
}
