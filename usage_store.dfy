/**
 * The `app_usage` table behind `AppUsageDao`. Rows are kept in insertion
 * (rowid) order; the primary key is (date, packageName), so the table never
 * holds two rows with the same key.
 */
module UsageStore {
  import opened Wrappers
  import opened Collections

  /** One row: a package's foreground time on one day ("yyyy-MM-dd"). */
  datatype AppUsageEntity = AppUsageEntity(packageName: string, appName: string, usageTimeMs: int, date: string)

  function UsageOf(row: AppUsageEntity): int {
    row.usageTimeMs
  }

  function PackageOf(row: AppUsageEntity): string {
    row.packageName
  }

  predicate HasKey(row: AppUsageEntity, date: string, packageName: string) {
    row.date == date && row.packageName == packageName
  }

  ghost predicate KeysUnique(rows: seq<AppUsageEntity>) {
    forall i, j :: 0 <= i < j < |rows| ==> !HasKey(rows[j], rows[i].date, rows[i].packageName)
  }

  /** The rows dated `date`, in table order (`WHERE date = :date`). */
  function DatedOn(rows: seq<AppUsageEntity>, date: string): seq<AppUsageEntity> {
    if rows == [] then []
    else DatedOn(rows[..|rows| - 1], date) + (if rows[|rows| - 1].date == date then [rows[|rows| - 1]] else [])
  }

  /** The query selects every row with that date and nothing else. */
  lemma {:induction false} DatedOnMembers(rows: seq<AppUsageEntity>, date: string)
    ensures forall x :: x in DatedOn(rows, date) <==> x in rows && x.date == date
  {
    if rows != [] {
      assert rows == rows[..|rows| - 1] + [rows[|rows| - 1]];
      DatedOnMembers(rows[..|rows| - 1], date);
    }
  }

  lemma DatedOnAppend(rows: seq<AppUsageEntity>, x: AppUsageEntity, date: string)
    ensures DatedOn(rows + [x], date) == DatedOn(rows, date) + (if x.date == date then [x] else [])
  {
    assert (rows + [x])[..|rows|] == rows;
  }

  lemma DatedOnEmpty(rows: seq<AppUsageEntity>, date: string)
    requires forall x :: x in rows ==> x.date != date
    ensures DatedOn(rows, date) == []
  {
    DatedOnMembers(rows, date);
    if DatedOn(rows, date) != [] {
      assert DatedOn(rows, date)[0] in DatedOn(rows, date);
    }
  }

  /** Everything except the rows dated `date` (`DELETE FROM app_usage WHERE date = :date`). */
  function DeleteDated(rows: seq<AppUsageEntity>, date: string): (r: seq<AppUsageEntity>)
    ensures forall x :: x in r <==> x in rows && x.date != date
    ensures KeysUnique(rows) ==> KeysUnique(r)
  {
    if rows == [] then []
    else
      var init, last := rows[..|rows| - 1], rows[|rows| - 1];
      assert rows == init + [last];
      var kept := DeleteDated(init, date);
      assert KeysUnique(rows) ==> KeysUnique(init) by {
        if KeysUnique(rows) {
          forall i, j | 0 <= i < j < |init| ensures !HasKey(init[j], init[i].date, init[i].packageName) {
            assert init[i] == rows[i] && init[j] == rows[j];
          }
        }
      }
      if last.date == date then kept
      else
        AppendFreshKey(kept, init, last);
        kept + [last]
  }

  /** The rows without key (date, packageName), in table order. */
  function WithoutKey(rows: seq<AppUsageEntity>, date: string, packageName: string): (r: seq<AppUsageEntity>)
    ensures forall x :: x in r <==> x in rows && !HasKey(x, date, packageName)
    ensures (forall x :: x in rows ==> !HasKey(x, date, packageName)) ==> r == rows
    ensures KeysUnique(rows) ==> KeysUnique(r)
  {
    if rows == [] then []
    else
      var init, last := rows[..|rows| - 1], rows[|rows| - 1];
      assert rows == init + [last];
      var kept := WithoutKey(init, date, packageName);
      assert KeysUnique(rows) ==> KeysUnique(init) by {
        if KeysUnique(rows) {
          forall i, j | 0 <= i < j < |init| ensures !HasKey(init[j], init[i].date, init[i].packageName) {
            assert init[i] == rows[i] && init[j] == rows[j];
          }
        }
      }
      if HasKey(last, date, packageName) then kept
      else
        AppendFreshKey(kept, init, last);
        kept + [last]
  }

  /** A row drawn from `init` never shares its key with a row that comes after all of `init`. */
  lemma AppendFreshKey(kept: seq<AppUsageEntity>, init: seq<AppUsageEntity>, last: AppUsageEntity)
    requires forall x :: x in kept ==> x in init
    ensures KeysUnique(init + [last]) && KeysUnique(kept) ==> KeysUnique(kept + [last])
  {
    if KeysUnique(init + [last]) && KeysUnique(kept) {
      var rows := init + [last];
      var r := kept + [last];
      forall i, j | 0 <= i < j < |r| ensures !HasKey(r[j], r[i].date, r[i].packageName) {
        if j < |kept| {
          assert r[i] == kept[i] && r[j] == kept[j];
        } else {
          assert r[i] == kept[i] && kept[i] in init;
          var k :| 0 <= k < |init| && init[k] == kept[i];
          assert rows[k] == kept[i] && rows[|init|] == last;
        }
      }
    }
  }

  /**
   * One insert under `OnConflictStrategy.REPLACE`: a row with the same key is
   * deleted first, then the new row is appended with a fresh rowid.
   */
  function Upsert(rows: seq<AppUsageEntity>, row: AppUsageEntity): (r: seq<AppUsageEntity>)
    ensures KeysUnique(rows) ==> KeysUnique(r)
    ensures row in r
    ensures forall x :: x in r && HasKey(x, row.date, row.packageName) ==> x == row
    ensures forall x :: x in rows && !HasKey(x, row.date, row.packageName) ==> x in r
    ensures forall x :: x in r ==> x == row || x in rows
  {
    var kept := WithoutKey(rows, row.date, row.packageName);
    var r := kept + [row];
    assert KeysUnique(rows) ==> KeysUnique(r) by {
      if KeysUnique(rows) {
        forall i, j | 0 <= i < j < |r| ensures !HasKey(r[j], r[i].date, r[i].packageName) {
          if j < |kept| {
            assert r[i] == kept[i] && r[j] == kept[j];
          } else {
            assert r[i] == kept[i] && kept[i] in kept && r[j] == row;
          }
        }
      }
    }
    r
  }

  /** `insertAll(usages)`: the rows inserted one after another. */
  function UpsertAll(rows: seq<AppUsageEntity>, usages: seq<AppUsageEntity>): (r: seq<AppUsageEntity>)
    ensures KeysUnique(rows) ==> KeysUnique(r)
  {
    if usages == [] then rows
    else Upsert(UpsertAll(rows, usages[..|usages| - 1]), usages[|usages| - 1])
  }

  /** `replaceByDate(date, usages)`: delete the day's rows, then insert the new ones. */
  function Replaced(rows: seq<AppUsageEntity>, date: string, usages: seq<AppUsageEntity>): (r: seq<AppUsageEntity>)
    ensures KeysUnique(rows) ==> KeysUnique(r)
  {
    UpsertAll(DeleteDated(rows, date), usages)
  }

  /** `SELECT * ... WHERE date = :date ORDER BY usageTimeMs DESC`; ties stay in rowid order. */
  function UsageByDate(rows: seq<AppUsageEntity>, date: string): seq<AppUsageEntity> {
    SortDesc(DatedOn(rows, date), UsageOf)
  }

  /** The listing for a date holds exactly the rows of that date, once each, longest first. */
  lemma UsageByDateMembers(rows: seq<AppUsageEntity>, date: string)
    ensures forall x :: x in UsageByDate(rows, date) <==> x in rows && x.date == date
    ensures |UsageByDate(rows, date)| == |DatedOn(rows, date)|
    ensures SortedDesc(UsageByDate(rows, date), UsageOf)
  {
    DatedOnMembers(rows, date);
    assert forall x :: x in UsageByDate(rows, date) <==> x in multiset(DatedOn(rows, date));
  }

  /** `SUM(usageTimeMs)` over some rows. */
  function RowsTotal(rows: seq<AppUsageEntity>): int {
    SumBy(rows, UsageOf)
  }

  // ---------------------------------------------------------------------------
  // Properties of replace-by-date

  /** Appending a row whose key is new to the table is a plain append. */
  lemma UpsertFresh(rows: seq<AppUsageEntity>, row: AppUsageEntity)
    requires forall x :: x in rows ==> !HasKey(x, row.date, row.packageName)
    ensures Upsert(rows, row) == rows + [row]
  {
  }

  lemma DistinctInit(usages: seq<AppUsageEntity>)
    requires usages != [] && DistinctBy(usages, PackageOf)
    ensures DistinctBy(usages[..|usages| - 1], PackageOf)
    ensures forall i :: 0 <= i < |usages| - 1 ==> usages[i].packageName != usages[|usages| - 1].packageName
  {
    var init := usages[..|usages| - 1];
    forall i, j | 0 <= i < j < |init| ensures PackageOf(init[i]) != PackageOf(init[j]) {
      assert init[i] == usages[i] && init[j] == usages[j];
    }
  }

  /** One more row, new to the day's packages, extends the day's rows by itself. */
  lemma StepFresh(base: seq<AppUsageEntity>, day: seq<AppUsageEntity>, init: seq<AppUsageEntity>, last: AppUsageEntity)
    requires DatedOn(UpsertAll(base, init), last.date) == day + init
    requires forall x :: x in day + init ==> x.packageName != last.packageName
    ensures DatedOn(UpsertAll(base, init + [last]), last.date) == day + (init + [last])
  {
    var before := UpsertAll(base, init);
    assert forall x :: x in before ==> !HasKey(x, last.date, last.packageName) by {
      DatedOnMembers(before, last.date);
      forall x | x in before && x.date == last.date ensures x.packageName != last.packageName {
        assert x in day + init;
      }
    }
    assert UpsertAll(base, init + [last]) == before + [last] by {
      assert (init + [last])[..|init|] == init;
      UpsertFresh(before, last);
    }
    DatedOnAppend(before, last, last.date);
    ConcatAssoc(day, init, [last]);
  }

  /** No row of `usages` shares its package with a row of `day`. */
  ghost predicate FreshPackages(day: seq<AppUsageEntity>, usages: seq<AppUsageEntity>) {
    forall i, j :: 0 <= i < |day| && 0 <= j < |usages| ==> day[i].packageName != usages[j].packageName
  }

  lemma DatedFreshInit(day: seq<AppUsageEntity>, date: string, usages: seq<AppUsageEntity>)
    requires usages != []
    requires forall i :: 0 <= i < |usages| ==> usages[i].date == date
    requires DistinctBy(usages, PackageOf)
    requires FreshPackages(day, usages)
    ensures var init := usages[..|usages| - 1];
      && (forall i :: 0 <= i < |init| ==> init[i].date == date)
      && DistinctBy(init, PackageOf)
      && FreshPackages(day, init)
    ensures forall x :: x in day + usages[..|usages| - 1] ==> x.packageName != usages[|usages| - 1].packageName
  {
    var init, last := usages[..|usages| - 1], usages[|usages| - 1];
    DistinctInit(usages);
    forall x | x in day + init ensures x.packageName != last.packageName {
      if x in day {
        var k :| 0 <= k < |day| && day[k] == x;
      } else {
        var k :| 0 <= k < |init| && init[k] == x;
      }
    }
  }

  lemma {:induction false} UpsertAllOntoFreshPackages(base: seq<AppUsageEntity>, date: string, usages: seq<AppUsageEntity>)
    requires forall i :: 0 <= i < |usages| ==> usages[i].date == date
    requires DistinctBy(usages, PackageOf)
    requires FreshPackages(DatedOn(base, date), usages)
    ensures DatedOn(UpsertAll(base, usages), date) == DatedOn(base, date) + usages
  {
    if usages != [] {
      var init, last := usages[..|usages| - 1], usages[|usages| - 1];
      DatedFreshInit(DatedOn(base, date), date, usages);
      UpsertAllOntoFreshPackages(base, date, init);
      StepFresh(base, DatedOn(base, date), init, last);
      assert init + [last] == usages;
    }
  }
  /** After `replaceByDate(d, xs)` with every x dated d and one x per package, the rows dated d are exactly xs. */
  lemma ReplacedDay(rows: seq<AppUsageEntity>, date: string, usages: seq<AppUsageEntity>)
    requires forall i :: 0 <= i < |usages| ==> usages[i].date == date
    requires DistinctBy(usages, PackageOf)
    ensures DatedOn(Replaced(rows, date, usages), date) == usages
  {
    var base := DeleteDated(rows, date);
    DatedOnEmpty(base, date);
    UpsertAllOntoFreshPackages(base, date, usages);
  }

  lemma {:induction false} WithoutKeyOtherDates(rows: seq<AppUsageEntity>, date: string, packageName: string, other: string)
    requires other != date
    ensures DatedOn(WithoutKey(rows, date, packageName), other) == DatedOn(rows, other)
  {
    if rows != [] {
      var init, last := rows[..|rows| - 1], rows[|rows| - 1];
      WithoutKeyOtherDates(init, date, packageName, other);
      if !HasKey(last, date, packageName) {
        DatedOnAppend(WithoutKey(init, date, packageName), last, other);
      }
    }
  }

  lemma {:induction false} DeleteDatedOtherDates(rows: seq<AppUsageEntity>, date: string, other: string)
    requires other != date
    ensures DatedOn(DeleteDated(rows, date), other) == DatedOn(rows, other)
  {
    if rows != [] {
      var init, last := rows[..|rows| - 1], rows[|rows| - 1];
      DeleteDatedOtherDates(init, date, other);
      if last.date != date {
        DatedOnAppend(DeleteDated(init, date), last, other);
      }
    }
  }

  lemma {:induction false} UpsertAllOtherDates(base: seq<AppUsageEntity>, date: string, usages: seq<AppUsageEntity>, other: string)
    requires forall i :: 0 <= i < |usages| ==> usages[i].date == date
    requires other != date
    ensures DatedOn(UpsertAll(base, usages), other) == DatedOn(base, other)
  {
    if usages != [] {
      var init, last := usages[..|usages| - 1], usages[|usages| - 1];
      UpsertAllOtherDates(base, date, init, other);
      var before := UpsertAll(base, init);
      WithoutKeyOtherDates(before, date, last.packageName, other);
      DatedOnAppend(WithoutKey(before, date, last.packageName), last, other);
    }
  }

  /** `replaceByDate(d, xs)` with every x dated d leaves the rows of every other date as they were. */
  lemma ReplacedOtherDays(rows: seq<AppUsageEntity>, date: string, usages: seq<AppUsageEntity>, other: string)
    requires forall i :: 0 <= i < |usages| ==> usages[i].date == date
    requires other != date
    ensures DatedOn(Replaced(rows, date, usages), other) == DatedOn(rows, other)
  {
    DeleteDatedOtherDates(rows, date, other);
    UpsertAllOtherDates(DeleteDated(rows, date), date, usages, other);
  }

  /** Replacing a day with no rows leaves nothing to list for it. */
  lemma ReplacedDayWithNothing(rows: seq<AppUsageEntity>, date: string)
    ensures UsageByDate(Replaced(rows, date, []), date) == []
    ensures forall x :: x in Replaced(rows, date, []) ==> x.date != date
  {
    ReplacedDay(rows, date, []);
  }

  /** The DAO over the table. */
  class AppUsageDao {
    var rows: seq<AppUsageEntity>

    ghost predicate Valid()
      reads this
    {
      KeysUnique(rows)
    }

    constructor ()
      ensures Valid() && rows == []
    {
      rows := [];
    }

    /** `insertAll`: REPLACE on conflict, row by row. */
    method InsertAll(usages: seq<AppUsageEntity>)
      requires Valid()
      modifies this
      ensures Valid()
      ensures rows == UpsertAll(old(rows), usages)
    {
      for i := 0 to |usages|
        invariant Valid()
        invariant rows == UpsertAll(old(rows), usages[..i])
      {
        assert usages[..i + 1][..i] == usages[..i];
        rows := Upsert(rows, usages[i]);
      }
      assert usages[..|usages|] == usages;
    }

    /** `getUsageByDate`: exactly the rows dated `date`, longest first. */
    method GetUsageByDate(date: string) returns (r: seq<AppUsageEntity>)
      ensures r == UsageByDate(rows, date)
      ensures SortedDesc(r, UsageOf)
      ensures forall x :: x in r <==> x in rows && x.date == date
      ensures |r| == |DatedOn(rows, date)|
    {
      r := SortDesc(DatedOn(rows, date), UsageOf);
      UsageByDateMembers(rows, date);
    }

    method DeleteByDate(date: string)
      requires Valid()
      modifies this
      ensures Valid()
      ensures rows == DeleteDated(old(rows), date)
    {
      rows := DeleteDated(rows, date);
    }

    /** `getTotalUsageByDate`: SQL's SUM, which is null when no row matches. */
    method GetTotalUsageByDate(date: string) returns (total: Option<int>)
      ensures total.None? <==> forall x :: x in rows ==> x.date != date
      ensures total.Some? ==> total.value == RowsTotal(DatedOn(rows, date))
    {
      var dated := DatedOn(rows, date);
      DatedOnMembers(rows, date);
      if dated == [] {
        total := None;
      } else {
        assert dated[0] in dated;
        total := Some(RowsTotal(dated));
      }
    }

    /** `replaceByDate`, one transaction: delete the day, then insert. */
    method ReplaceByDate(date: string, usages: seq<AppUsageEntity>)
      requires Valid()
      modifies this
      ensures Valid()
      ensures rows == Replaced(old(rows), date, usages)
    {
      DeleteByDate(date);
      InsertAll(usages);
    }
  }
}
