/**
 * `CheckUsageUseCase`: compares today's usage with the three limits and
 * renders the alert texts.
 */
module CheckUsage {
  import opened Wrappers
  import opened Text
  import opened Collections
  import opened UsageRepo
  import opened Thresholds

  datatype AlertType = TotalExceeded | SnsExceeded | VideoExceeded

  /** The enum constant's position: alerts are produced in this order. */
  function Ordinal(t: AlertType): nat {
    match t
    case TotalExceeded => 0
    case SnsExceeded => 1
    case VideoExceeded => 2
  }

  /** The enum constant's `name`. */
  function TypeName(t: AlertType): string {
    match t
    case TotalExceeded => "TOTAL_EXCEEDED"
    case SnsExceeded => "SNS_EXCEEDED"
    case VideoExceeded => "VIDEO_EXCEEDED"
  }

  datatype UsageAlert = UsageAlert(alertType: AlertType, currentMs: int, limitMs: int, topApps: seq<AppUsageInfo>)

  /** `usages.sumOf { it.usageTimeMs }`. */
  function SumUsage(usages: seq<AppUsageInfo>): int {
    SumBy(usages, InfoUsage)
  }

  /** `usages.filter { it.packageName in packages }`, in input order. */
  function InPackages(usages: seq<AppUsageInfo>, packages: set<string>): (r: seq<AppUsageInfo>)
    ensures forall x :: x in r <==> x in usages && x.packageName in packages
    ensures |r| <= |usages|
  {
    if usages == [] then []
    else
      var init, last := usages[..|usages| - 1], usages[|usages| - 1];
      assert usages == init + [last];
      InPackages(init, packages) + (if last.packageName in packages then [last] else [])
  }

  /**
   * The filter works element by element: a single usage is kept exactly when
   * its package is in the set, and filtering a concatenation concatenates the
   * filtered parts. Together these fix the result as the in-order
   * subsequence of matching usages, repeats included.
   */
  lemma {:induction false} InPackagesConcat(xs: seq<AppUsageInfo>, ys: seq<AppUsageInfo>, packages: set<string>)
    ensures InPackages(xs + ys, packages) == InPackages(xs, packages) + InPackages(ys, packages)
  {
    if ys == [] {
      assert xs + ys == xs;
    } else {
      var init, last := ys[..|ys| - 1], ys[|ys| - 1];
      var kept := if last.packageName in packages then [last] else [];
      SplitLast(xs, ys);
      InPackagesConcat(xs, init, packages);
      InPackagesSnoc(xs + init, last, packages);
      InPackagesSnoc(init, last, packages);
      ConcatAssoc(InPackages(xs, packages), InPackages(init, packages), kept);
    }
  }

  lemma SplitLast<T>(xs: seq<T>, ys: seq<T>)
    requires ys != []
    ensures ys == ys[..|ys| - 1] + [ys[|ys| - 1]]
    ensures xs + ys == (xs + ys[..|ys| - 1]) + [ys[|ys| - 1]]
  {
  }

  lemma InPackagesSnoc(xs: seq<AppUsageInfo>, x: AppUsageInfo, packages: set<string>)
    ensures InPackages(xs + [x], packages) == InPackages(xs, packages) + (if x.packageName in packages then [x] else [])
  {
    var s := xs + [x];
    assert s[..|s| - 1] == xs;
  }

  lemma InPackagesSingle(x: AppUsageInfo, packages: set<string>)
    ensures InPackages([x], packages) == if x.packageName in packages then [x] else []
  {
    assert [x][..0] == [];
  }

  /** `take(n)`. */
  function Take<T>(xs: seq<T>, n: nat): seq<T> {
    if |xs| <= n then xs else xs[..n]
  }

  /** The limit each alert type is checked against. */
  function LimitFor(config: ThresholdConfig, t: AlertType): int {
    match t
    case TotalExceeded => config.totalDailyLimitMs
    case SnsExceeded => config.snsLimitMs
    case VideoExceeded => config.videoLimitMs
  }

  /** The usages each alert type sums: all of them, or one category. */
  function CountedFor(usages: seq<AppUsageInfo>, config: ThresholdConfig, t: AlertType): seq<AppUsageInfo> {
    match t
    case TotalExceeded => usages
    case SnsExceeded => InPackages(usages, config.snsPackages)
    case VideoExceeded => InPackages(usages, config.videoPackages)
  }

  /** The apps an alert lists: the first five overall, or the whole category. */
  function TopAppsFor(usages: seq<AppUsageInfo>, config: ThresholdConfig, t: AlertType): seq<AppUsageInfo> {
    if t == TotalExceeded then Take(usages, 5) else CountedFor(usages, config, t)
  }

  /** The alert of type `t`, present when its sum is strictly over its limit. */
  function AlertFor(usages: seq<AppUsageInfo>, config: ThresholdConfig, t: AlertType): seq<UsageAlert> {
    var current := SumUsage(CountedFor(usages, config, t));
    if current > LimitFor(config, t) then [UsageAlert(t, current, LimitFor(config, t), TopAppsFor(usages, config, t))]
    else []
  }

  /** The alerts `check` returns. */
  function Evaluate(usages: seq<AppUsageInfo>, config: ThresholdConfig): seq<UsageAlert> {
    AlertFor(usages, config, TotalExceeded) + AlertFor(usages, config, SnsExceeded) + AlertFor(usages, config, VideoExceeded)
  }

  predicate HasAlert(alerts: seq<UsageAlert>, t: AlertType) {
    exists i :: 0 <= i < |alerts| && alerts[i].alertType == t
  }

  /** The alert type `t` produces: none, or one carrying `t`'s sum, limit and app list. */
  lemma AlertForShape(usages: seq<AppUsageInfo>, config: ThresholdConfig, t: AlertType)
    ensures var s := AlertFor(usages, config, t);
      && |s| <= 1
      && (s != [] <==> SumUsage(CountedFor(usages, config, t)) > LimitFor(config, t))
      && (s != [] ==> s[0] == UsageAlert(t, SumUsage(CountedFor(usages, config, t)), LimitFor(config, t), TopAppsFor(usages, config, t)))
  {
  }

  /** Pieces of at most one alert each, carrying TOTAL, SNS and VIDEO, concatenate in that order. */
  lemma OrderedPieces(a: seq<UsageAlert>, b: seq<UsageAlert>, c: seq<UsageAlert>)
    requires |a| <= 1 && |b| <= 1 && |c| <= 1
    requires forall x :: x in a ==> x.alertType == TotalExceeded
    requires forall x :: x in b ==> x.alertType == SnsExceeded
    requires forall x :: x in c ==> x.alertType == VideoExceeded
    ensures |a + b + c| <= 3
    ensures forall i, j :: 0 <= i < j < |a + b + c| ==> Ordinal((a + b + c)[i].alertType) < Ordinal((a + b + c)[j].alertType)
  {
    var r := a + b + c;
    forall i, j | 0 <= i < j < |r| ensures Ordinal(r[i].alertType) < Ordinal(r[j].alertType) {
      if i < |a| {
        assert r[i] == a[i];
      } else {
        assert r[i] == b[i - |a|];
      }
      if j < |a| + |b| {
        assert r[j] == b[j - |a|];
      } else {
        assert r[j] == c[j - |a| - |b|];
      }
    }
  }

  /**
   * The alerts come in TOTAL, SNS, VIDEO order, so there are at most three;
   * each carries its type's sum, its limit and its app list, its sum strictly above its limit.
   */
  lemma EvaluateOrdered(usages: seq<AppUsageInfo>, config: ThresholdConfig)
    ensures var r := Evaluate(usages, config);
      && |r| <= 3
      && (forall i, j :: 0 <= i < j < |r| ==> Ordinal(r[i].alertType) < Ordinal(r[j].alertType))
      && (forall x :: x in r ==>
            && x == UsageAlert(x.alertType, SumUsage(CountedFor(usages, config, x.alertType)),
                               LimitFor(config, x.alertType), TopAppsFor(usages, config, x.alertType))
            && x.currentMs > x.limitMs)
  {
    var a, b, c := AlertFor(usages, config, TotalExceeded), AlertFor(usages, config, SnsExceeded), AlertFor(usages, config, VideoExceeded);
    AlertForShape(usages, config, TotalExceeded);
    AlertForShape(usages, config, SnsExceeded);
    AlertForShape(usages, config, VideoExceeded);
    assert forall x :: x in a ==> x == a[0];
    assert forall x :: x in b ==> x == b[0];
    assert forall x :: x in c ==> x == c[0];
    OrderedPieces(a, b, c);
  }

  /** An alert of each type appears exactly when that type's sum is strictly over its limit. */
  lemma EvaluatePresence(usages: seq<AppUsageInfo>, config: ThresholdConfig, t: AlertType)
    ensures HasAlert(Evaluate(usages, config), t) <==> SumUsage(CountedFor(usages, config, t)) > LimitFor(config, t)
  {
    var a, b, c := AlertFor(usages, config, TotalExceeded), AlertFor(usages, config, SnsExceeded), AlertFor(usages, config, VideoExceeded);
    AlertForShape(usages, config, TotalExceeded);
    AlertForShape(usages, config, SnsExceeded);
    AlertForShape(usages, config, VideoExceeded);
    var r := Evaluate(usages, config);
    assert r == a + b + c;
    var s := AlertFor(usages, config, t);
    if HasAlert(r, t) {
      var i :| 0 <= i < |r| && r[i].alertType == t;
      if i < |a| {
        assert r[i] == a[0];
      } else if i < |a| + |b| {
        assert r[i] == b[0];
      } else {
        assert r[i] == c[0];
      }
    }
    if s != [] {
      match t
      case TotalExceeded => assert r[0] == s[0];
      case SnsExceeded => assert r[|a|] == s[0];
      case VideoExceeded => assert r[|a| + |b|] == s[0];
    }
  }

  /** The TOTAL alert lists the first min(5, n) usages in input order. */
  lemma TotalTopApps(usages: seq<AppUsageInfo>, config: ThresholdConfig)
    ensures var top := TopAppsFor(usages, config, TotalExceeded);
      && |top| == (if |usages| < 5 then |usages| else 5)
      && top == usages[..|top|]
  {
  }

  lemma {:induction false} InPackagesNonNegative(usages: seq<AppUsageInfo>, packages: set<string>)
    requires forall i :: 0 <= i < |usages| ==> usages[i].usageTimeMs >= 0
    ensures SumUsage(InPackages(usages, packages)) >= 0
  {
    if usages != [] {
      var init := usages[..|usages| - 1];
      InPackagesNonNegative(init, packages);
      var last := usages[|usages| - 1];
      SumByConcat(InPackages(init, packages), if last.packageName in packages then [last] else [], InfoUsage);
      if last.packageName in packages {
        SumBySingle(last, InfoUsage);
      }
    }
  }

  /**
   * With disjoint categories and non-negative usages, the SNS and video sums
   * together never exceed the total.
   */
  lemma {:induction false} CategoriesWithinTotal(usages: seq<AppUsageInfo>, sns: set<string>, video: set<string>)
    requires sns !! video
    requires forall i :: 0 <= i < |usages| ==> usages[i].usageTimeMs >= 0
    ensures SumUsage(InPackages(usages, sns)) + SumUsage(InPackages(usages, video)) <= SumUsage(usages)
  {
    if usages != [] {
      var init, last := usages[..|usages| - 1], usages[|usages| - 1];
      CategoriesWithinTotal(init, sns, video);
      SumByConcat(InPackages(init, sns), if last.packageName in sns then [last] else [], InfoUsage);
      SumByConcat(InPackages(init, video), if last.packageName in video then [last] else [], InfoUsage);
      SumBySingle(last, InfoUsage);
    }
  }

  /** `check`: the three comparisons, appending to the alert list in turn. */
  method Check(usages: seq<AppUsageInfo>, config: ThresholdConfig) returns (alerts: seq<UsageAlert>)
    ensures alerts == Evaluate(usages, config)
  {
    alerts := [];

    var totalMs := SumUsage(usages);
    if totalMs > config.totalDailyLimitMs {
      alerts := alerts + [UsageAlert(TotalExceeded, totalMs, config.totalDailyLimitMs, Take(usages, 5))];
    }

    var snsUsages := InPackages(usages, config.snsPackages);
    var snsMs := SumUsage(snsUsages);
    if snsMs > config.snsLimitMs {
      alerts := alerts + [UsageAlert(SnsExceeded, snsMs, config.snsLimitMs, snsUsages)];
    }

    var videoUsages := InPackages(usages, config.videoPackages);
    var videoMs := SumUsage(videoUsages);
    if videoMs > config.videoLimitMs {
      alerts := alerts + [UsageAlert(VideoExceeded, videoMs, config.videoLimitMs, videoUsages)];
    }
  }

  // ---------------------------------------------------------------------------
  // formatDuration

  const MsPerHour: int := 3600000
  const MsPerMinute: int := 60000

  /** `formatDuration`: whole hours and the minutes left over, both truncated as `Long` division does. */
  function FormatDuration(ms: int): string {
    var hours := Quot(ms, 3600000);
    var minutes := Quot(Rem(ms, 3600000), 60000);
    if hours > 0 then LongToString(hours) + "h" + LongToString(minutes) + "m" else LongToString(minutes) + "m"
  }

  /** For a non-negative duration: "{h}h{m}m" when there is a whole hour, else "{m}m", with m in 0..59. */
  lemma FormatDurationFields(ms: int)
    requires ms >= 0
    ensures var h, m := ms / MsPerHour, (ms % MsPerHour) / MsPerMinute;
      && 0 <= m < 60
      && h * MsPerHour + m * MsPerMinute <= ms < h * MsPerHour + (m + 1) * MsPerMinute
      && FormatDuration(ms) == (if h > 0 then NatToString(h) + "h" + NatToString(m) + "m" else NatToString(m) + "m")
  {
    var h, r := ms / MsPerHour, ms % MsPerHour;
    var m := r / MsPerMinute;
    assert Quot(ms, MsPerHour) == h;
    assert Rem(ms, MsPerHour) == r;
    assert Quot(r, MsPerMinute) == m;
  }

  lemma DivideByMinutes(ms: int, h: int, m: int, rest: int)
    requires ms == h * MsPerHour + m * MsPerMinute + rest
    requires 0 <= rest < MsPerMinute
    ensures ms / MsPerMinute == h * 60 + m
  {
    assert ms == (h * 60 + m) * MsPerMinute + rest;
  }

  lemma UnspacedShape(hs: string, ms: string)
    ensures hs + "h" + "" + ms + "m" == hs + "h" + ms + "m"
  {
  }

  /** Reading back either shape of the rendered text gives hours * 60 + minutes. */
  lemma ReadRendered(h: nat, m: nat, s: string)
    requires s == (if h > 0 then NatToString(h) + "h" + NatToString(m) + "m" else NatToString(m) + "m")
    ensures ReadDuration(s, "") == Some(h * 60 + m)
  {
    if h > 0 {
      ReadHoursMinutes(h, m, "");
      UnspacedShape(NatToString(h), NatToString(m));
    } else {
      ReadMinutes(m, "");
    }
  }

  /** Reading a rendered duration back gives its whole minutes: nothing but the seconds is lost. */
  lemma FormatDurationRoundTrip(ms: int)
    requires ms >= 0
    ensures ReadDuration(FormatDuration(ms), "") == Some(ms / MsPerMinute)
  {
    var h, m := ms / MsPerHour, (ms % MsPerHour) / MsPerMinute;
    assert ms / MsPerMinute == h * 60 + m by {
      FormatDurationFields(ms);
      DivideByMinutes(ms, h, m, ms - h * MsPerHour - m * MsPerMinute);
    }
    assert ReadDuration(FormatDuration(ms), "") == Some(h * 60 + m) by {
      FormatDurationFields(ms);
      ReadRendered(h, m, FormatDuration(ms));
    }
  }

  lemma FormatDurationNoNewline(ms: int)
    ensures NoNewline(FormatDuration(ms))
  {
    LongToStringNoNewline(Quot(ms, MsPerHour));
    LongToStringNoNewline(Quot(Rem(ms, MsPerHour), MsPerMinute));
  }

  // ---------------------------------------------------------------------------
  // buildAlertMessage

  function TypeLabel(t: AlertType): string {
    match t
    case TotalExceeded => "総スクリーンタイム"
    case SnsExceeded => "SNS使用時間"
    case VideoExceeded => "動画使用時間"
  }

  /** "  {appName}: {duration}". */
  function AppLine(app: AppUsageInfo): string {
    "  " + app.appName + ": " + FormatDuration(app.usageTimeMs)
  }

  function AppLines(apps: seq<AppUsageInfo>): seq<string> {
    MapSeq(apps, AppLine)
  }

  /** The six lines above the app list, for a type label and two rendered durations. */
  function Header(typeLabel: string, current: string, limit: string): seq<string> {
    [ "\U{26A0}\U{FE0F} DopWatch: " + typeLabel + "超過",
      "",
      "📱 現在: " + current,
      "🎯 制限: " + limit,
      "",
      "上位アプリ:" ]
  }

  function HeaderLines(alert: UsageAlert): seq<string> {
    Header(TypeLabel(alert.alertType), FormatDuration(alert.currentMs), FormatDuration(alert.limitMs))
  }

  /** The alert text: the header lines, then the app list as it was joined. */
  function BuildAlertMessage(alert: UsageAlert): string {
    Intended(HeaderLines(alert), AppLines(alert.topApps))
  }

  /** The margin in front of each template line: twelve spaces and '|'. */
  const Margin: string := "            |"

  function WithMargin(ls: seq<string>): (r: seq<string>)
    ensures |r| == |ls|
    ensures forall i :: 0 <= i < |r| ==> r[i] == Margin + ls[i]
  {
    if ls == [] then [] else [Margin + ls[0]] + WithMargin(ls[1..])
  }

  predicate AllNoNewline(ls: seq<string>) {
    forall i :: 0 <= i < |ls| ==> NoNewline(ls[i])
  }

  /**
   * A `trimMargin` template: an empty first line, each line behind the
   * margin with the multi-line value `Join("\n", values)` substituted into the
   * last one, and the eight spaces before the closing quotes.
   */
  function Template(fixed: seq<string>, values: seq<string>): string {
    Join("\n", [""] + WithMargin(fixed + [Join("\n", values)]) + ["        "])
  }

  /** The text the template is meant to produce. */
  function Intended(fixed: seq<string>, values: seq<string>): string {
    Join("\n", fixed + [Join("\n", values)])
  }

  /** The raw string literal of the alert template, with the app list substituted. */
  function AlertTemplate(alert: UsageAlert): string {
    Template(HeaderLines(alert), AppLines(alert.topApps))
  }

  /** `buildAlertMessage` as written: `trimMargin` applied after the app list has been substituted. */
  function BuildAlertMessageAsWritten(alert: UsageAlert): string {
    TrimMargin(AlertTemplate(alert))
  }

  predicate NamesNoNewline(apps: seq<AppUsageInfo>) {
    forall i :: 0 <= i < |apps| ==> NoNewline(apps[i].appName)
  }

  lemma AppLinesNoNewline(apps: seq<AppUsageInfo>)
    requires NamesNoNewline(apps)
    ensures AllNoNewline(AppLines(apps))
  {
    forall i | 0 <= i < |apps| ensures NoNewline(AppLine(apps[i])) {
      FormatDurationNoNewline(apps[i].usageTimeMs);
    }
  }

  lemma HeaderNoNewline(typeLabel: string, current: string, limit: string)
    requires NoNewline(typeLabel) && NoNewline(current) && NoNewline(limit)
    ensures AllNoNewline(Header(typeLabel, current, limit))
  {
  }

  lemma HeaderLinesNoNewline(alert: UsageAlert)
    ensures AllNoNewline(HeaderLines(alert))
  {
    FormatDurationNoNewline(alert.currentMs);
    FormatDurationNoNewline(alert.limitMs);
    HeaderNoNewline(TypeLabel(alert.alertType), FormatDuration(alert.currentMs), FormatDuration(alert.limitMs));
  }

  lemma AllNoNewlineConcat(xs: seq<string>, ys: seq<string>)
    requires AllNoNewline(xs) && AllNoNewline(ys)
    ensures AllNoNewline(xs + ys)
  {
    forall i | 0 <= i < |xs + ys| ensures NoNewline((xs + ys)[i]) {
      if i >= |xs| {
        assert (xs + ys)[i] == ys[i - |xs|];
      }
    }
  }

  /** With a newline-free substituted value, the intended text splits into the fixed lines and the value's lines. */
  lemma IntendedLines(fixed: seq<string>, values: seq<string>)
    requires values != [] && AllNoNewline(fixed) && AllNoNewline(values)
    ensures Intended(fixed, values) == Join("\n", fixed + values)
    ensures Lines(Intended(fixed, values)) == fixed + values
  {
    if fixed == [] {
      assert fixed + [Join("\n", values)] == [Join("\n", values)];
      assert fixed + values == values;
    } else {
      JoinConcat("\n", fixed, [Join("\n", values)]);
      JoinConcat("\n", fixed, values);
    }
    AllNoNewlineConcat(fixed, values);
    LinesOfJoin(fixed + values);
  }

  /**
   * With newline-free app names, the alert text has the six header lines
   * (the type's label, the current and the limit durations) and then exactly
   * one "  name: duration" line per listed app, in order.
   */
  lemma AlertMessageLines(alert: UsageAlert)
    requires alert.topApps != [] && NamesNoNewline(alert.topApps)
    ensures Lines(BuildAlertMessage(alert)) == HeaderLines(alert) + AppLines(alert.topApps)
  {
    HeaderLinesNoNewline(alert);
    AppLinesNoNewline(alert.topApps);
    IntendedLines(HeaderLines(alert), AppLines(alert.topApps));
  }

  lemma {:induction false} StripAllWithMargin(ls: seq<string>)
    ensures StripAll(WithMargin(ls)) == ls
  {
    if ls != [] {
      StripMarginAfter("            ", ls[0]);
      assert Margin + ls[0] == "            " + "|" + ls[0];
      StripAllWithMargin(ls[1..]);
      assert WithMargin(ls)[1..] == WithMargin(ls[1..]);
      assert [ls[0]] + ls[1..] == ls;
    }
  }

  lemma {:induction false} WithMarginConcat(xs: seq<string>, ys: seq<string>)
    ensures WithMargin(xs + ys) == WithMargin(xs) + WithMargin(ys)
  {
    if xs == [] {
      assert xs + ys == ys;
    } else {
      assert (xs + ys)[1..] == xs[1..] + ys;
      WithMarginConcat(xs[1..], ys);
    }
  }

  lemma WithMarginNoNewline(ls: seq<string>)
    requires AllNoNewline(ls)
    ensures AllNoNewline(WithMargin(ls))
  {
  }

  /** The template as the lines `Lines` splits it into, once the value is spliced in. */
  lemma TemplateSplice(fixed: seq<string>, values: seq<string>)
    requires values != []
    ensures Template(fixed, values)
      == Join("\n", [""] + (WithMargin(fixed) + [Margin + values[0]] + values[1..]) + ["        "])
  {
    var pre, post := [""] + WithMargin(fixed), ["        "];
    var spliced := [Margin + values[0]] + values[1..];
    assert Margin + Join("\n", values) == Join("\n", spliced) by {
      JoinPrefixFirst(Margin, values);
    }
    assert [""] + WithMargin(fixed + [Join("\n", values)]) + post == pre + [Join("\n", spliced)] + post by {
      WithMarginConcat(fixed, [Join("\n", values)]);
    }
    JoinSplice(pre, spliced, post);
    ConcatAssoc([""], WithMargin(fixed), spliced);
    ConcatAssoc(WithMargin(fixed), [Margin + values[0]], values[1..]);
    assert pre + spliced + post == [""] + (WithMargin(fixed) + [Margin + values[0]] + values[1..]) + post;
  }

  /**
   * What `trimMargin` makes of the template: the fixed lines, the value's
   * first line, and each later line of the value with its own margin cut as well.
   */
  lemma TemplateTrimmed(fixed: seq<string>, values: seq<string>)
    requires values != [] && AllNoNewline(fixed) && AllNoNewline(values)
    ensures TrimMargin(Template(fixed, values)) == Join("\n", fixed + [values[0]] + StripAll(values[1..]))
  {
    var rest := values[1..];
    var middle := WithMargin(fixed) + [Margin + values[0]] + rest;
    assert Template(fixed, values) == Join("\n", [""] + middle + ["        "]) by {
      TemplateSplice(fixed, values);
    }
    assert [Margin + values[0]] == WithMargin([values[0]]);
    assert AllNoNewline(middle) by {
      WithMarginNoNewline(fixed);
      WithMarginNoNewline([values[0]]);
      assert AllNoNewline(rest) by {
        forall i | 0 <= i < |rest| ensures NoNewline(rest[i]) {
          assert rest[i] == values[i + 1];
        }
      }
      AllNoNewlineConcat(WithMargin(fixed), [Margin + values[0]]);
      AllNoNewlineConcat(WithMargin(fixed) + [Margin + values[0]], rest);
    }
    assert TrimMargin(Join("\n", [""] + middle + ["        "])) == Join("\n", StripAll(middle)) by {
      TrimMarginBetweenBlanks("", middle, "        ");
    }
    assert StripAll(middle) == fixed + [values[0]] + StripAll(rest) by {
      StripAllConcat(WithMargin(fixed) + WithMargin([values[0]]), rest);
      StripAllConcat(WithMargin(fixed), WithMargin([values[0]]));
      StripAllWithMargin(fixed);
      StripAllWithMargin([values[0]]);
    }
  }

  /**
   * When the fixed lines and the value's lines hold no line break and no
   * later line of the value begins, past its blanks, with '|', the template
   * gives the intended text.
   */
  lemma TemplateAgrees(fixed: seq<string>, values: seq<string>)
    requires values != [] && AllNoNewline(fixed) && AllNoNewline(values)
    requires forall i :: 1 <= i < |values| ==> StripMargin(values[i]) == values[i]
    ensures TrimMargin(Template(fixed, values)) == Intended(fixed, values)
  {
    TemplateTrimmed(fixed, values);
    assert forall i :: 0 <= i < |values[1..]| ==> StripMargin(values[1..][i]) == values[1..][i] by {
      forall i | 0 <= i < |values[1..]| ensures StripMargin(values[1..][i]) == values[1..][i] {
        assert values[1..][i] == values[i + 1];
      }
    }
    StripAllNoMargin(values[1..]);
    assert fixed + [values[0]] + values[1..] == fixed + values;
    IntendedLines(fixed, values);
  }

  /** A later line of the value that does begin with a margin loses it: the template gives another text. */
  lemma TemplateDiffers(fixed: seq<string>, values: seq<string>)
    requires |values| >= 2 && AllNoNewline(fixed) && AllNoNewline(values)
    requires StripMargin(values[1]) != values[1]
    ensures TrimMargin(Template(fixed, values)) != Intended(fixed, values)
  {
    TemplateTrimmed(fixed, values);
    IntendedLines(fixed, values);
    var rest := values[1..];
    var written := fixed + [values[0]] + StripAll(rest);
    var intended := fixed + values;
    assert StripAll(rest)[0] == StripMargin(values[1]);
    assert written[|fixed| + 1] != intended[|fixed| + 1];
    if TrimMargin(Template(fixed, values)) == Intended(fixed, values) {
      assert AllNoNewline(rest) by {
        forall i | 0 <= i < |rest| ensures NoNewline(rest[i]) {
          assert rest[i] == values[i + 1];
        }
      }
      StripAllNoNewline(rest);
      AllNoNewlineConcat(fixed, [values[0]]);
      AllNoNewlineConcat(fixed + [values[0]], StripAll(rest));
      AllNoNewlineConcat(fixed, values);
      JoinInjective(written, intended);
    }
  }

  /**
   * A line break inside a substituted value splits it, and the part after
   * the break loses its margin too: one value "  a\n|b" already makes the
   * two texts differ.
   */
  lemma TemplateSplitsBrokenValue()
    ensures TrimMargin(Template(["h"], ["  a\n|b"])) != Intended(["h"], ["  a\n|b"])
  {
    var split := ["  a", "|b"];
    assert Join("\n", ["  a\n|b"]) == Join("\n", split);
    assert Template(["h"], ["  a\n|b"]) == Template(["h"], split);
    assert Intended(["h"], ["  a\n|b"]) == Intended(["h"], split);
    StripMarginAfter("", "b");
    assert "" + "|" + "b" == split[1];
    TemplateDiffers(["h"], split);
  }

  /**
   * `buildAlertMessage` renders the intended text whenever no app label
   * contains a line break and no app line after the first begins, past its
   * blanks, with '|'.
   */
  lemma AsWrittenAgrees(alert: UsageAlert)
    requires alert.topApps != [] && NamesNoNewline(alert.topApps)
    requires forall i :: 1 <= i < |alert.topApps| ==> StripMargin(AppLine(alert.topApps[i])) == AppLine(alert.topApps[i])
    ensures BuildAlertMessageAsWritten(alert) == BuildAlertMessage(alert)
  {
    HeaderLinesNoNewline(alert);
    AppLinesNoNewline(alert.topApps);
    TemplateAgrees(HeaderLines(alert), AppLines(alert.topApps));
  }

  /** With no apps to list, the template's last line is the bare margin and `trimMargin` leaves it empty, as intended. */
  lemma AsWrittenAgreesWithoutApps(alert: UsageAlert)
    requires alert.topApps == []
    ensures BuildAlertMessageAsWritten(alert) == BuildAlertMessage(alert)
  {
    HeaderLinesNoNewline(alert);
    assert AppLines(alert.topApps) == [];
    assert Join("\n", AppLines(alert.topApps)) == "";
    TemplateAgrees(HeaderLines(alert), [""]);
  }

  /**
   * An app name beginning with '|' in second place or later loses its '|'
   * and the two indenting spaces: the rendered text is not the intended one.
   */
  lemma AsWrittenStripsBarredName(alert: UsageAlert)
    requires |alert.topApps| >= 2 && NamesNoNewline(alert.topApps)
    requires alert.topApps[1].appName != [] && alert.topApps[1].appName[0] == '|'
    ensures BuildAlertMessageAsWritten(alert) != BuildAlertMessage(alert)
  {
    var app := alert.topApps[1];
    var name := app.appName;
    var tail := name[1..] + ": " + FormatDuration(app.usageTimeMs);
    assert AppLine(app) == "  " + "|" + tail by {
      assert name == "|" + name[1..];
    }
    StripMarginAfter("  ", tail);
    assert |StripMargin(AppLine(app))| < |AppLine(app)|;
    HeaderLinesNoNewline(alert);
    AppLinesNoNewline(alert.topApps);
    TemplateDiffers(HeaderLines(alert), AppLines(alert.topApps));
  }

  // ---------------------------------------------------------------------------
  // buildFollowUpMessage

  function Icon(t: AlertType): string {
    match t
    case TotalExceeded => "📱"
    case SnsExceeded => "💬"
    case VideoExceeded => "🎬"
  }

  function ShortLabel(t: AlertType): string {
    match t
    case TotalExceeded => "スクリーンタイム"
    case SnsExceeded => "SNS"
    case VideoExceeded => "動画"
  }

  /** "{icon} {label}: {current} / {limit}". */
  function Detail(icon: string, typeLabel: string, current: string, limit: string): string {
    icon + " " + typeLabel + ": " + current + " / " + limit
  }

  lemma DetailNoNewline(icon: string, typeLabel: string, current: string, limit: string)
    requires NoNewline(icon) && NoNewline(typeLabel) && NoNewline(current) && NoNewline(limit)
    ensures NoNewline(Detail(icon, typeLabel, current, limit))
  {
  }

  function FollowUpLine(alert: UsageAlert): string {
    Detail(Icon(alert.alertType), ShortLabel(alert.alertType), FormatDuration(alert.currentMs), FormatDuration(alert.limitMs))
  }

  function FollowUpLines(alerts: seq<UsageAlert>): seq<string> {
    MapSeq(alerts, FollowUpLine)
  }

  function FollowUpTitle(alertNumber: int): string {
    "\U{26A0}\U{FE0F} DopWatch: " + LongToString(alertNumber) + "回目の警告"
  }

  const FollowUpSubtitle: string := "引き続き使用超過中です"

  /** `buildFollowUpMessage`: the two header lines, a blank line, then one line per alert. */
  function BuildFollowUpMessage(alerts: seq<UsageAlert>, alertNumber: int): string {
    var header := FollowUpTitle(alertNumber) + "\n" + FollowUpSubtitle;
    header + "\n\n" + Join("\n", FollowUpLines(alerts))
  }

  /** Two newline-free header lines, a blank line, then the newline-free detail lines. */
  lemma {:induction false} HeadedLines(title: string, subtitle: string, details: seq<string>)
    requires NoNewline(title) && NoNewline(subtitle)
    requires details != [] && AllNoNewline(details)
    ensures Lines(title + "\n" + subtitle + "\n\n" + Join("\n", details)) == [title, subtitle, ""] + details
  {
    var head := [title, subtitle, ""];
    var body := Join("\n", details);
    JoinConcat("\n", head, details);
    assert head[1..] == [subtitle, ""] && [subtitle, ""][1..] == [""];
    assert Join("\n", [""]) == "";
    assert Join("\n", [subtitle, ""]) == subtitle + "\n" + Join("\n", [""]);
    assert Join("\n", head) == title + "\n" + Join("\n", [subtitle, ""]);
    assert title + "\n" + subtitle + "\n\n" + body == title + "\n" + (subtitle + "\n" + "") + "\n" + body by {
      assert "\n\n" == "\n" + "\n";
      assert subtitle + "\n" + "" == subtitle + "\n";
    }
    AllNoNewlineConcat(head, details);
    LinesOfJoin(head + details);
  }

  lemma FollowUpLineNoNewline(a: UsageAlert)
    ensures NoNewline(FollowUpLine(a))
  {
    FormatDurationNoNewline(a.currentMs);
    FormatDurationNoNewline(a.limitMs);
    DetailNoNewline(Icon(a.alertType), ShortLabel(a.alertType), FormatDuration(a.currentMs), FormatDuration(a.limitMs));
  }

  lemma FollowUpLinesNoNewline(alerts: seq<UsageAlert>)
    ensures AllNoNewline(FollowUpLines(alerts))
  {
    forall i | 0 <= i < |alerts| ensures NoNewline(FollowUpLine(alerts[i])) {
      FollowUpLineNoNewline(alerts[i]);
    }
  }

  lemma FollowUpHeaderNoNewline(alertNumber: int)
    ensures NoNewline(FollowUpTitle(alertNumber)) && NoNewline(FollowUpSubtitle)
  {
    LongToStringNoNewline(alertNumber);
  }

  /** The follow-up text names the alert number, then lists one icon/label line per alert, in order. */
  lemma FollowUpMessageLines(alerts: seq<UsageAlert>, alertNumber: int)
    requires alerts != []
    ensures Lines(BuildFollowUpMessage(alerts, alertNumber))
      == [FollowUpTitle(alertNumber), FollowUpSubtitle, ""] + FollowUpLines(alerts)
  {
    FollowUpHeaderNoNewline(alertNumber);
    FollowUpLinesNoNewline(alerts);
    HeadedLines(FollowUpTitle(alertNumber), FollowUpSubtitle, FollowUpLines(alerts));
  }
}
