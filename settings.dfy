/**
 * `SettingsRepository`: the app's key-value preferences, the `Settings`
 * snapshot read from them with defaults, and the writes that change them.
 */
module SettingsStore {
  import opened Wrappers
  import opened Text
  import opened Thresholds

  // ---------------------------------------------------------------------------
  // Keys

  const LineTokenKey: string := "line_channel_access_token"
  const LineGroupIdKey: string := "line_group_id"
  const BeeminderUserKey: string := "beeminder_username"
  const BeeminderTokenKey: string := "beeminder_auth_token"
  const BeeminderGoalKey: string := "beeminder_goal_slug"
  const TotalLimitKey: string := "total_daily_limit_ms"
  const SnsLimitKey: string := "sns_limit_ms"
  const VideoLimitKey: string := "video_limit_ms"
  const DriveFileIdKey: string := "drive_file_id"
  const MaxAlertsKey: string := "max_alerts_per_day"
  const CooldownKey: string := "cooldown_minutes"

  /** The preference store: string, `Long` and `Int` entries by key name. */
  datatype Prefs = Prefs(strings: map<string, string>, longs: map<string, int>, ints: map<string, int>)

  const EmptyPrefs: Prefs := Prefs(map[], map[], map[])

  /** `prefs[key] ?: default`. */
  function ValueOr<V>(m: map<string, V>, key: string, default: V): V {
    if key in m then m[key] else default
  }

  // ---------------------------------------------------------------------------
  // Settings

  datatype Settings = Settings(
    lineToken: string,
    lineGroupId: string,
    beeminderUser: string,
    beeminderToken: string,
    beeminderGoal: string,
    totalLimitMs: int,
    snsLimitMs: int,
    videoLimitMs: int,
    driveFileId: string,
    maxAlertsPerDay: int,
    cooldownMinutes: int)

  /** `Settings()`: the data class with every parameter at its default. */
  const DefaultSettings: Settings := Settings("", "", "", "", "screentime",
    3 * 60 * 60 * 1000, 1 * 60 * 60 * 1000, 1 * 60 * 60 * 1000, "", 3, 120)

  /** The snapshot `settingsFlow` maps the preferences to: each missing key reads as its default. */
  function ReadSettings(p: Prefs): Settings {
    Settings(
      ValueOr(p.strings, LineTokenKey, ""),
      ValueOr(p.strings, LineGroupIdKey, ""),
      ValueOr(p.strings, BeeminderUserKey, ""),
      ValueOr(p.strings, BeeminderTokenKey, ""),
      ValueOr(p.strings, BeeminderGoalKey, "screentime"),
      ValueOr(p.longs, TotalLimitKey, 3 * 60 * 60 * 1000),
      ValueOr(p.longs, SnsLimitKey, 1 * 60 * 60 * 1000),
      ValueOr(p.longs, VideoLimitKey, 1 * 60 * 60 * 1000),
      ValueOr(p.strings, DriveFileIdKey, ""),
      ValueOr(p.ints, MaxAlertsKey, 3),
      ValueOr(p.ints, CooldownKey, 120))
  }

  /**
   * An empty store reads as the data class's own defaults: empty strings, the
   * goal "screentime", limits of 10,800,000 / 3,600,000 / 3,600,000 ms, three
   * alerts a day and a 120-minute cooldown.
   */
  lemma EmptyReadsAsDefaults()
    ensures ReadSettings(EmptyPrefs) == DefaultSettings
    ensures DefaultSettings == Settings("", "", "", "", "screentime", 10800000, 3600000, 3600000, "", 3, 120)
  {
  }

  /** A missing key reads as its default whatever the other keys hold. */
  lemma MissingKeysReadAsDefaults(p: Prefs)
    ensures var s := ReadSettings(p);
      && (LineTokenKey !in p.strings ==> s.lineToken == "")
      && (LineGroupIdKey !in p.strings ==> s.lineGroupId == "")
      && (BeeminderGoalKey !in p.strings ==> s.beeminderGoal == "screentime")
      && (TotalLimitKey !in p.longs ==> s.totalLimitMs == 10800000)
      && (SnsLimitKey !in p.longs ==> s.snsLimitMs == 3600000)
      && (VideoLimitKey !in p.longs ==> s.videoLimitMs == 3600000)
      && (MaxAlertsKey !in p.ints ==> s.maxAlertsPerDay == 3)
      && (CooldownKey !in p.ints ==> s.cooldownMinutes == 120)
  {
  }

  /** `isLineConfigured`. */
  predicate IsLineConfigured(s: Settings) {
    !IsBlank(s.lineToken) && !IsBlank(s.lineGroupId)
  }

  /** `isBeeminderConfigured`: the goal slug plays no part. */
  predicate IsBeeminderConfigured(s: Settings) {
    !IsBlank(s.beeminderUser) && !IsBlank(s.beeminderToken)
  }

  /** `isDriveConfigured`. */
  predicate IsDriveConfigured(s: Settings) {
    !IsBlank(s.driveFileId)
  }

  /** `cooldownMs`: the cooldown in milliseconds (an `Int` widened to `Long`, so no overflow). */
  function CooldownMs(s: Settings): (ms: int)
    ensures s.cooldownMinutes >= 0 ==> ms >= 0 && ms / 60000 == s.cooldownMinutes && ms % 60000 == 0
  {
    s.cooldownMinutes * 60 * 1000
  }

  /** The default cooldown is two hours. */
  lemma DefaultCooldown()
    ensures CooldownMs(DefaultSettings) == 7200000
  {
  }

  /** `getThresholdConfig`: the three limits copied over, the package sets at their defaults. */
  function GetThresholdConfig(s: Settings): (c: ThresholdConfig)
    ensures c.totalDailyLimitMs == s.totalLimitMs && c.snsLimitMs == s.snsLimitMs && c.videoLimitMs == s.videoLimitMs
    ensures c.snsPackages == DefaultSnsPackages && c.videoPackages == DefaultVideoPackages
  {
    WithLimits(s.totalLimitMs, s.snsLimitMs, s.videoLimitMs)
  }

  /** An unconfigured app checks against the default thresholds. */
  lemma DefaultSettingsGiveDefaultThresholds()
    ensures GetThresholdConfig(ReadSettings(EmptyPrefs)) == DefaultConfig
  {
  }

  // ---------------------------------------------------------------------------
  // Writes

  /** `updateLineConfig`: writes the two LINE keys and nothing else. */
  function LineConfigWritten(p: Prefs, token: string, groupId: string): (r: Prefs)
    ensures LineTokenKey in r.strings && r.strings[LineTokenKey] == token
    ensures LineGroupIdKey in r.strings && r.strings[LineGroupIdKey] == groupId
    ensures forall k :: k != LineTokenKey && k != LineGroupIdKey ==> ValueOr(r.strings, k, "") == ValueOr(p.strings, k, "") && (k in r.strings <==> k in p.strings)
    ensures r.longs == p.longs && r.ints == p.ints
  {
    p.(strings := p.strings[LineTokenKey := token][LineGroupIdKey := groupId])
  }

  /** `updateBeeminderConfig`: writes the three Beeminder keys and nothing else. */
  function BeeminderConfigWritten(p: Prefs, user: string, token: string, goal: string): (r: Prefs)
    ensures BeeminderUserKey in r.strings && r.strings[BeeminderUserKey] == user
    ensures BeeminderTokenKey in r.strings && r.strings[BeeminderTokenKey] == token
    ensures BeeminderGoalKey in r.strings && r.strings[BeeminderGoalKey] == goal
    ensures forall k :: k != BeeminderUserKey && k != BeeminderTokenKey && k != BeeminderGoalKey ==>
      ValueOr(r.strings, k, "") == ValueOr(p.strings, k, "") && (k in r.strings <==> k in p.strings)
    ensures r.longs == p.longs && r.ints == p.ints
  {
    p.(strings := p.strings[BeeminderUserKey := user][BeeminderTokenKey := token][BeeminderGoalKey := goal])
  }

  /** `updateThresholds`: writes the three limit keys and nothing else. */
  function ThresholdsWritten(p: Prefs, totalMs: int, snsMs: int, videoMs: int): (r: Prefs)
    ensures TotalLimitKey in r.longs && r.longs[TotalLimitKey] == totalMs
    ensures SnsLimitKey in r.longs && r.longs[SnsLimitKey] == snsMs
    ensures VideoLimitKey in r.longs && r.longs[VideoLimitKey] == videoMs
    ensures forall k :: k != TotalLimitKey && k != SnsLimitKey && k != VideoLimitKey ==>
      ValueOr(r.longs, k, 0) == ValueOr(p.longs, k, 0) && (k in r.longs <==> k in p.longs)
    ensures r.strings == p.strings && r.ints == p.ints
  {
    p.(longs := p.longs[TotalLimitKey := totalMs][SnsLimitKey := snsMs][VideoLimitKey := videoMs])
  }

  /** `updateDriveFileId`: writes the one Drive key and nothing else. */
  function DriveFileIdWritten(p: Prefs, fileId: string): (r: Prefs)
    ensures DriveFileIdKey in r.strings && r.strings[DriveFileIdKey] == fileId
    ensures forall k :: k != DriveFileIdKey ==> ValueOr(r.strings, k, "") == ValueOr(p.strings, k, "") && (k in r.strings <==> k in p.strings)
    ensures r.longs == p.longs && r.ints == p.ints
  {
    p.(strings := p.strings[DriveFileIdKey := fileId])
  }

  /**
   * The remote configuration with its hour limits already converted to
   * milliseconds; a `None` field is absent from the downloaded file.
   */
  datatype RemoteConfig = RemoteConfig(
    totalLimitMs: Option<int>,
    snsLimitMs: Option<int>,
    videoLimitMs: Option<int>,
    maxAlertsPerDay: Option<int>,
    cooldownMinutes: Option<int>)

  /** A present field has overwritten `key`; an absent one has left it as it was, present or not. */
  predicate FieldApplied(before: map<string, int>, after: map<string, int>, key: string, v: Option<int>) {
    && (v.Some? ==> key in after && after[key] == v.value)
    && (v.None? ==> (key in after <==> key in before) && ValueOr(after, key, 0) == ValueOr(before, key, 0))
  }

  /** Writes `key := v` when the field is present. */
  function PutIfPresent(m: map<string, int>, key: string, v: Option<int>): (r: map<string, int>)
    ensures v.Some? ==> r == m[key := v.value]
    ensures v.None? ==> r == m
    ensures FieldApplied(m, r, key, v)
    ensures forall q :: q != key ==> (q in r <==> q in m) && ValueOr(r, q, 0) == ValueOr(m, q, 0)
  {
    if v.Some? then m[key := v.value] else m
  }

  /** `applyRemoteConfig`: each present field overwrites its key; absent fields and all other keys stay. */
  function RemoteConfigApplied(p: Prefs, c: RemoteConfig): (r: Prefs)
    ensures r.strings == p.strings
    ensures forall k :: k != TotalLimitKey && k != SnsLimitKey && k != VideoLimitKey ==> (k in r.longs <==> k in p.longs) && ValueOr(r.longs, k, 0) == ValueOr(p.longs, k, 0)
    ensures forall k :: k != MaxAlertsKey && k != CooldownKey ==> (k in r.ints <==> k in p.ints) && ValueOr(r.ints, k, 0) == ValueOr(p.ints, k, 0)
    ensures FieldApplied(p.longs, r.longs, TotalLimitKey, c.totalLimitMs)
    ensures FieldApplied(p.longs, r.longs, SnsLimitKey, c.snsLimitMs)
    ensures FieldApplied(p.longs, r.longs, VideoLimitKey, c.videoLimitMs)
    ensures FieldApplied(p.ints, r.ints, MaxAlertsKey, c.maxAlertsPerDay)
    ensures FieldApplied(p.ints, r.ints, CooldownKey, c.cooldownMinutes)
  {
    var total := PutIfPresent(p.longs, TotalLimitKey, c.totalLimitMs);
    var sns := PutIfPresent(total, SnsLimitKey, c.snsLimitMs);
    var longs := PutIfPresent(sns, VideoLimitKey, c.videoLimitMs);
    var alerts := PutIfPresent(p.ints, MaxAlertsKey, c.maxAlertsPerDay);
    var ints := PutIfPresent(alerts, CooldownKey, c.cooldownMinutes);
    Prefs(p.strings, longs, ints)
  }

  // ---------------------------------------------------------------------------
  // What the snapshot reads after each write

  /** After `updateLineConfig` the snapshot has the new token and group id and is otherwise the same. */
  lemma ReadAfterLineConfig(p: Prefs, token: string, groupId: string)
    ensures ReadSettings(LineConfigWritten(p, token, groupId)) == ReadSettings(p).(lineToken := token, lineGroupId := groupId)
    ensures IsLineConfigured(ReadSettings(LineConfigWritten(p, token, groupId))) <==> !IsBlank(token) && !IsBlank(groupId)
  {
  }

  lemma ReadAfterBeeminderConfig(p: Prefs, user: string, token: string, goal: string)
    ensures ReadSettings(BeeminderConfigWritten(p, user, token, goal))
      == ReadSettings(p).(beeminderUser := user, beeminderToken := token, beeminderGoal := goal)
  {
  }

  lemma ReadAfterThresholds(p: Prefs, totalMs: int, snsMs: int, videoMs: int)
    ensures ReadSettings(ThresholdsWritten(p, totalMs, snsMs, videoMs))
      == ReadSettings(p).(totalLimitMs := totalMs, snsLimitMs := snsMs, videoLimitMs := videoMs)
    ensures GetThresholdConfig(ReadSettings(ThresholdsWritten(p, totalMs, snsMs, videoMs))) == WithLimits(totalMs, snsMs, videoMs)
  {
  }

  lemma ReadAfterDriveFileId(p: Prefs, fileId: string)
    ensures ReadSettings(DriveFileIdWritten(p, fileId)) == ReadSettings(p).(driveFileId := fileId)
  {
  }

  /** After `applyRemoteConfig` each snapshot field is the remote value when present and the old value otherwise. */
  lemma ReadAfterRemoteConfig(p: Prefs, c: RemoteConfig)
    ensures var old_ := ReadSettings(p);
      ReadSettings(RemoteConfigApplied(p, c)) == old_.(
        totalLimitMs := c.totalLimitMs.GetOr(old_.totalLimitMs),
        snsLimitMs := c.snsLimitMs.GetOr(old_.snsLimitMs),
        videoLimitMs := c.videoLimitMs.GetOr(old_.videoLimitMs),
        maxAlertsPerDay := c.maxAlertsPerDay.GetOr(old_.maxAlertsPerDay),
        cooldownMinutes := c.cooldownMinutes.GetOr(old_.cooldownMinutes))
  {
  }

  /** A remote file with no fields changes nothing. */
  lemma EmptyRemoteConfigChangesNothing(p: Prefs)
    ensures RemoteConfigApplied(p, RemoteConfig(None, None, None, None, None)) == p
  {
  }

  /** Whether Beeminder counts as configured does not depend on the goal slug. */
  lemma BeeminderGoalIrrelevant(s: Settings, goal: string)
    ensures IsBeeminderConfigured(s.(beeminderGoal := goal)) <==> IsBeeminderConfigured(s)
  {
  }

  // ---------------------------------------------------------------------------
  // The repository

  class SettingsRepository {
    var prefs: Prefs

    constructor ()
      ensures prefs == EmptyPrefs
    {
      prefs := EmptyPrefs;
    }

    /** `getSettings`: the current snapshot. */
    method GetSettings() returns (s: Settings)
      ensures s == ReadSettings(prefs)
    {
      s := ReadSettings(prefs);
    }

    method UpdateLineConfig(token: string, groupId: string)
      modifies this
      ensures prefs == LineConfigWritten(old(prefs), token, groupId)
    {
      prefs := prefs.(strings := prefs.strings[LineTokenKey := token]);
      prefs := prefs.(strings := prefs.strings[LineGroupIdKey := groupId]);
    }

    method UpdateBeeminderConfig(user: string, token: string, goal: string)
      modifies this
      ensures prefs == BeeminderConfigWritten(old(prefs), user, token, goal)
    {
      prefs := prefs.(strings := prefs.strings[BeeminderUserKey := user]);
      prefs := prefs.(strings := prefs.strings[BeeminderTokenKey := token]);
      prefs := prefs.(strings := prefs.strings[BeeminderGoalKey := goal]);
    }

    method UpdateThresholds(totalMs: int, snsMs: int, videoMs: int)
      modifies this
      ensures prefs == ThresholdsWritten(old(prefs), totalMs, snsMs, videoMs)
    {
      prefs := prefs.(longs := prefs.longs[TotalLimitKey := totalMs]);
      prefs := prefs.(longs := prefs.longs[SnsLimitKey := snsMs]);
      prefs := prefs.(longs := prefs.longs[VideoLimitKey := videoMs]);
    }

    method UpdateDriveFileId(fileId: string)
      modifies this
      ensures prefs == DriveFileIdWritten(old(prefs), fileId)
    {
      prefs := prefs.(strings := prefs.strings[DriveFileIdKey := fileId]);
    }

    /** `applyRemoteConfig`: one conditional write per field, in order. */
    method ApplyRemoteConfig(c: RemoteConfig)
      modifies this
      ensures prefs == RemoteConfigApplied(old(prefs), c)
    {
      if c.totalLimitMs.Some? {
        prefs := prefs.(longs := prefs.longs[TotalLimitKey := c.totalLimitMs.value]);
      }
      if c.snsLimitMs.Some? {
        prefs := prefs.(longs := prefs.longs[SnsLimitKey := c.snsLimitMs.value]);
      }
      if c.videoLimitMs.Some? {
        prefs := prefs.(longs := prefs.longs[VideoLimitKey := c.videoLimitMs.value]);
      }
      if c.maxAlertsPerDay.Some? {
        prefs := prefs.(ints := prefs.ints[MaxAlertsKey := c.maxAlertsPerDay.value]);
      }
      if c.cooldownMinutes.Some? {
        prefs := prefs.(ints := prefs.ints[CooldownKey := c.cooldownMinutes.value]);
      }
    }
  }
}
