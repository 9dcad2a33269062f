/**
 * `UsageCheckWorker`: one periodic tick. It saves today's usage, sends the
 * twice-daily LINE heartbeat, posts the Beeminder datapoint, checks the
 * thresholds, shows one notification per alert and pushes at most three LINE
 * alerts a day. Its own day-keyed preferences hold the heartbeat flags and
 * the alert counters.
 */
module Worker {
  import opened Wrappers
  import opened Text
  import opened Collections
  import opened UsageStore
  import opened UsageRepo
  import opened SettingsStore
  import opened CheckUsage

  const MaxLineAlertsPerDay: int := 3
  const HeartbeatHourMorning: int := 9
  const HeartbeatHourNight: int := 21

  datatype Slot = Morning | Night

  function SlotName(slot: Slot): string {
    match slot
    case Morning => "morning"
    case Night => "night"
  }

  /** The heartbeat window the hour falls in: 9..11 in the morning, 21..23 at night. */
  function SlotFor(hour: int): Option<Slot> {
    if HeartbeatHourMorning <= hour <= HeartbeatHourMorning + 2 then Some(Morning)
    else if HeartbeatHourNight <= hour <= HeartbeatHourNight + 2 then Some(Night)
    else None
  }

  lemma SlotWindows(hour: int)
    ensures SlotFor(hour) == Some(Morning) <==> 9 <= hour <= 11
    ensures SlotFor(hour) == Some(Night) <==> 21 <= hour <= 23
    ensures SlotFor(hour) == None <==> !(9 <= hour <= 11 || 21 <= hour <= 23)
  {
  }

  /** "heartbeat_sent_{today}_{slot}". */
  function HeartbeatKey(today: string, slot: Slot): string {
    "heartbeat_sent" + "_" + today + "_" + SlotName(slot)
  }

  /** "last_alert_count_{today}". */
  function CountKey(today: string): string {
    "last_alert_count" + "_" + today
  }

  /** The worker's own shared preferences: boolean flags and integer counters. */
  datatype WorkerPrefs = WorkerPrefs(flags: map<string, bool>, counts: map<string, int>)

  const EmptyWorkerPrefs: WorkerPrefs := WorkerPrefs(map[], map[])

  /** `getBoolean(key, false)`. */
  function FlagOf(p: WorkerPrefs, key: string): bool {
    if key in p.flags then p.flags[key] else false
  }

  /** `getInt(key, 0)`. */
  function CountOf(p: WorkerPrefs, key: string): int {
    if key in p.counts then p.counts[key] else 0
  }

  /** What leaves the device, in the order it happens. */
  datatype Delivery =
    | HeartbeatMessage(token: string, groupId: string, text: string)
    | AlertPush(token: string, groupId: string, text: string)
    | BeeminderDatapoint(user: string, goal: string, authToken: string, totalMs: int)
    | Notification(tag: string, contentText: string, bigText: string)

  /** The worker's state after a step: its preferences and what it sent. */
  datatype Outcome = Outcome(prefs: WorkerPrefs, sent: seq<Delivery>)

  datatype WorkResult = Success | Retry

  function HeartbeatEmoji(slot: Slot): string {
    if slot == Morning then "\U{1F305}" else "\U{1F319}"
  }

  function HeartbeatText(slot: Slot, totalMs: int): string {
    HeartbeatEmoji(slot) + " DopWatch 稼働中\n\n"
      + "現在のスクリーンタイム: " + FormatDuration(totalMs) + "\n"
      + "監視は正常に動作しています。\n"
      + "※ この通知が届かなくなったらアプリが無効化されています"
  }

  /**
   * `sendHeartbeatIfNeeded`: outside both windows, or when this slot's flag is
   * already set today, nothing happens; otherwise the message is sent and the
   * flag is set only when the send succeeds.
   */
  function Heartbeat(p: WorkerPrefs, token: string, groupId: string, totalMs: int, hour: int, today: string, sendOk: bool): Outcome {
    match SlotFor(hour)
    case None => Outcome(p, [])
    case Some(slot) =>
      var key := HeartbeatKey(today, slot);
      if FlagOf(p, key) then Outcome(p, [])
      else
        var sent := [HeartbeatMessage(token, groupId, HeartbeatText(slot, totalMs))];
        if sendOk then Outcome(p.(flags := p.flags[key := true]), sent) else Outcome(p, sent)
  }

  /** `canSendLineAlert`: today's counter, zero when absent, is below the cap. */
  predicate CanSendLineAlert(p: WorkerPrefs, today: string) {
    CountOf(p, CountKey(today)) < MaxLineAlertsPerDay
  }

  /** `incrementLineAlertCount`: today's counter goes up by one and nothing else changes. */
  function Incremented(p: WorkerPrefs, today: string): (r: WorkerPrefs)
    ensures CountOf(r, CountKey(today)) == CountOf(p, CountKey(today)) + 1
    ensures forall k :: k != CountKey(today) ==> CountOf(r, k) == CountOf(p, k)
    ensures r.flags == p.flags
  {
    p.(counts := p.counts[CountKey(today) := CountOf(p, CountKey(today)) + 1])
  }

  /** What `showNotification(tag, message)` posts: the first line as the content text, the whole message as the big text. */
  function NotificationFor(tag: string, message: string): Delivery {
    Notification(tag, Lines(message)[0], message)
  }

  /** The notification `showNotification(alert.type.name, buildAlertMessage(alert))` puts up. */
  function AlertNotification(alert: UsageAlert): Delivery {
    NotificationFor(TypeName(alert.alertType), BuildAlertMessage(alert))
  }

  /** The notifications of `alerts.forEach { showNotification(...) }`: one per alert, or none without the permission. */
  function Notifications(alerts: seq<UsageAlert>, canNotify: bool): seq<Delivery> {
    if canNotify then MapSeq(alerts, AlertNotification) else []
  }

  /** What a tick reads and what the outside world answers. */
  datatype TickInput = TickInput(
    usages: seq<AppUsageInfo>,
    settings: Settings,
    totalMs: int,
    hour: int,
    today: string,
    heartbeatOk: bool,
    beeminderOk: bool,
    alertPushOk: bool,
    canNotify: bool)

  function BeeminderStep(s: Settings, totalMs: int): seq<Delivery> {
    if IsBeeminderConfigured(s) then [BeeminderDatapoint(s.beeminderUser, s.beeminderGoal, s.beeminderToken, totalMs)] else []
  }

  function HeartbeatStep(p: WorkerPrefs, i: TickInput): Outcome {
    if IsLineConfigured(i.settings) then
      Heartbeat(p, i.settings.lineToken, i.settings.lineGroupId, i.totalMs, i.hour, i.today, i.heartbeatOk)
    else Outcome(p, [])
  }

  /**
   * The body of `doWork`'s `try` once the data has been read: heartbeat,
   * Beeminder, threshold check, notifications and the capped alert push.
   */
  function Tick(p: WorkerPrefs, i: TickInput): Outcome {
    Respond(p, i, Evaluate(i.usages, GetThresholdConfig(i.settings)))
  }

  /** The pushed alert: the first one's text. */
  function PushOf(s: Settings, alerts: seq<UsageAlert>): Delivery
    requires alerts != []
  {
    AlertPush(s.lineToken, s.lineGroupId, BuildAlertMessage(alerts[0]))
  }

  /**
   * The tick for a given list of alerts. The push counter goes up after every
   * push attempt, whatever its result.
   */
  function Respond(p: WorkerPrefs, i: TickInput, alerts: seq<UsageAlert>): Outcome {
    var hb := HeartbeatStep(p, i);
    var before := hb.sent + BeeminderStep(i.settings, i.totalMs);
    if alerts == [] then Outcome(hb.prefs, before)
    else
      var shown := before + Notifications(alerts, i.canNotify);
      if IsLineConfigured(i.settings) && CanSendLineAlert(hb.prefs, i.today) then
        Outcome(Incremented(hb.prefs, i.today), shown + [PushOf(i.settings, alerts)])
      else Outcome(hb.prefs, shown)
  }

  // ---------------------------------------------------------------------------
  // Properties of one tick

  function IsAlertPush(d: Delivery): bool {
    d.AlertPush?
  }

  function IsLineMessage(d: Delivery): bool {
    d.AlertPush? || d.HeartbeatMessage?
  }

  /** How many of the deliveries are LINE alert pushes. */
  function AlertPushes(sent: seq<Delivery>): nat {
    if sent == [] then 0 else AlertPushes(sent[..|sent| - 1]) + (if IsAlertPush(sent[|sent| - 1]) then 1 else 0)
  }

  lemma {:induction false} AlertPushesConcat(xs: seq<Delivery>, ys: seq<Delivery>)
    ensures AlertPushes(xs + ys) == AlertPushes(xs) + AlertPushes(ys)
  {
    if ys == [] {
      assert xs + ys == xs;
    } else {
      assert (xs + ys)[..|xs + ys| - 1] == xs + ys[..|ys| - 1];
      AlertPushesConcat(xs, ys[..|ys| - 1]);
    }
  }

  lemma NoAlertPushIn(sent: seq<Delivery>)
    requires forall i :: 0 <= i < |sent| ==> !sent[i].AlertPush?
    ensures AlertPushes(sent) == 0
  {
    if sent != [] {
      NoAlertPushIn(sent[..|sent| - 1]);
    }
  }

  lemma NotificationsStep(alerts: seq<UsageAlert>, j: nat, canNotify: bool)
    requires j < |alerts|
    ensures Notifications(alerts[..j + 1], canNotify)
      == Notifications(alerts[..j], canNotify) + (if canNotify then [AlertNotification(alerts[j])] else [])
  {
  }

  predicate AllNotifications(ds: seq<Delivery>) {
    forall k :: 0 <= k < |ds| ==> ds[k].Notification?
  }

  lemma NotificationsOnly(alerts: seq<UsageAlert>, canNotify: bool)
    ensures AllNotifications(Notifications(alerts, canNotify))
    ensures |Notifications(alerts, canNotify)| == (if canNotify then |alerts| else 0)
  {
  }

  /** One notification per alert when permitted, in alert order, tagged by the alert type's name and showing the text's first line. */
  lemma NotificationsPerAlert(alerts: seq<UsageAlert>)
    ensures var ns := Notifications(alerts, true);
      && |ns| == |alerts|
      && forall k :: 0 <= k < |ns| ==>
           ns[k] == Notification(TypeName(alerts[k].alertType), Lines(BuildAlertMessage(alerts[k]))[0], BuildAlertMessage(alerts[k]))
  {
  }

  /**
   * Where `buildAlertMessage` as written renders the intended text (no apps,
   * or no app label with a line break and no app line after the first that
   * begins with a margin), the
   * notification and the push the model sends for an alert are the ones the
   * code sends.
   */
  lemma SentAsWritten(alert: UsageAlert, s: Settings, rest: seq<UsageAlert>)
    requires alert.topApps == []
      || (NamesNoNewline(alert.topApps)
          && forall i :: 1 <= i < |alert.topApps| ==> StripMargin(AppLine(alert.topApps[i])) == AppLine(alert.topApps[i]))
    ensures AlertNotification(alert) == NotificationFor(TypeName(alert.alertType), BuildAlertMessageAsWritten(alert))
    ensures PushOf(s, [alert] + rest) == AlertPush(s.lineToken, s.lineGroupId, BuildAlertMessageAsWritten(alert))
  {
    if alert.topApps == [] {
      AsWrittenAgreesWithoutApps(alert);
    } else {
      AsWrittenAgrees(alert);
    }
  }

  lemma HeartbeatStepShape(p: WorkerPrefs, i: TickInput)
    ensures |HeartbeatStep(p, i).sent| <= 1
    ensures forall k :: 0 <= k < |HeartbeatStep(p, i).sent| ==> HeartbeatStep(p, i).sent[k].HeartbeatMessage?
    ensures HeartbeatStep(p, i).prefs.counts == p.counts
  {
  }

  /** Whether the tick pushes an alert, given its alerts. */
  predicate Pushes(p: WorkerPrefs, i: TickInput, alerts: seq<UsageAlert>) {
    alerts != [] && IsLineConfigured(i.settings) && CanSendLineAlert(HeartbeatStep(p, i).prefs, i.today)
  }

  /** A tick's deliveries in order: heartbeat, Beeminder, notifications, then the push. */
  lemma RespondShape(p: WorkerPrefs, i: TickInput, alerts: seq<UsageAlert>)
    ensures var o := Respond(p, i, alerts);
      var hb := HeartbeatStep(p, i);
      var notes := if alerts == [] then [] else Notifications(alerts, i.canNotify);
      && o.sent == hb.sent + BeeminderStep(i.settings, i.totalMs) + notes + (if Pushes(p, i, alerts) then [PushOf(i.settings, alerts)] else [])
      && o.prefs == (if Pushes(p, i, alerts) then Incremented(hb.prefs, i.today) else hb.prefs)
  {
  }

  /**
   * A tick pushes a LINE alert at most once, only while today's counter is
   * below three, and raises today's counter by exactly the number of pushes;
   * no other counter changes.
   */
  lemma RespondCountsPushes(p: WorkerPrefs, i: TickInput, alerts: seq<UsageAlert>)
    ensures var o := Respond(p, i, alerts);
      && AlertPushes(o.sent) <= 1
      && (AlertPushes(o.sent) == 1 ==> CountOf(p, CountKey(i.today)) < MaxLineAlertsPerDay)
      && CountOf(o.prefs, CountKey(i.today)) == CountOf(p, CountKey(i.today)) + AlertPushes(o.sent)
      && (forall k :: k != CountKey(i.today) ==> CountOf(o.prefs, k) == CountOf(p, k))
  {
    RespondPushCount(p, i, alerts);
    RespondCounters(p, i, alerts);
  }

  /** Deliveries with no alert push among the first three parts push as often as the last part does. */
  lemma PushesOnlyAtEnd(hb: seq<Delivery>, bee: seq<Delivery>, notes: seq<Delivery>, push: seq<Delivery>)
    requires forall k :: 0 <= k < |hb| ==> !hb[k].AlertPush?
    requires forall k :: 0 <= k < |bee| ==> !bee[k].AlertPush?
    requires forall k :: 0 <= k < |notes| ==> !notes[k].AlertPush?
    ensures AlertPushes(hb + bee + notes + push) == AlertPushes(push)
  {
    NoAlertPushIn(hb);
    NoAlertPushIn(bee);
    NoAlertPushIn(notes);
    AlertPushesConcat(hb, bee);
    AlertPushesConcat(hb + bee, notes);
    AlertPushesConcat(hb + bee + notes, push);
  }

  /** The only alert push of a tick is the one at its end. */
  lemma RespondPushCount(p: WorkerPrefs, i: TickInput, alerts: seq<UsageAlert>)
    ensures AlertPushes(Respond(p, i, alerts).sent) == if Pushes(p, i, alerts) then 1 else 0
  {
    var push := if Pushes(p, i, alerts) then [PushOf(i.settings, alerts)] else [];
    assert AlertPushes(Respond(p, i, alerts).sent) == AlertPushes(push) by {
      RespondShape(p, i, alerts);
      HeartbeatStepShape(p, i);
      NotificationsOnly(alerts, i.canNotify);
      PushesOnlyAtEnd(HeartbeatStep(p, i).sent, BeeminderStep(i.settings, i.totalMs),
                      if alerts == [] then [] else Notifications(alerts, i.canNotify), push);
    }
    assert AlertPushes(push) == if Pushes(p, i, alerts) then 1 else 0 by {
      if push != [] {
        assert push[..0] == [];
      }
    }
  }

  /** A tick raises today's counter by one exactly when it pushes, which it does only below three. */
  lemma RespondCounters(p: WorkerPrefs, i: TickInput, alerts: seq<UsageAlert>)
    ensures var o := Respond(p, i, alerts);
      && (Pushes(p, i, alerts) ==> CountOf(p, CountKey(i.today)) < MaxLineAlertsPerDay)
      && CountOf(o.prefs, CountKey(i.today)) == CountOf(p, CountKey(i.today)) + (if Pushes(p, i, alerts) then 1 else 0)
      && (forall k :: k != CountKey(i.today) ==> CountOf(o.prefs, k) == CountOf(p, k))
  {
    RespondShape(p, i, alerts);
    HeartbeatStepShape(p, i);
  }

  lemma TickCountsPushes(p: WorkerPrefs, i: TickInput)
    ensures var o := Tick(p, i);
      && AlertPushes(o.sent) <= 1
      && (AlertPushes(o.sent) == 1 ==> CountOf(p, CountKey(i.today)) < MaxLineAlertsPerDay)
      && CountOf(o.prefs, CountKey(i.today)) == CountOf(p, CountKey(i.today)) + AlertPushes(o.sent)
      && (forall k :: k != CountKey(i.today) ==> CountOf(o.prefs, k) == CountOf(p, k))
  {
    RespondCountsPushes(p, i, Evaluate(i.usages, GetThresholdConfig(i.settings)));
  }

  /** A run of ticks, each starting from the preferences the previous one left. */
  function Ticks(p: WorkerPrefs, inputs: seq<TickInput>): Outcome {
    if inputs == [] then Outcome(p, [])
    else
      var before := Ticks(p, inputs[..|inputs| - 1]);
      var o := Tick(before.prefs, inputs[|inputs| - 1]);
      Outcome(o.prefs, before.sent + o.sent)
  }

  /** Over one day's ticks, the pushes never take today's counter past three. */
  lemma {:induction false} DailyPushCap(p: WorkerPrefs, today: string, inputs: seq<TickInput>)
    requires forall k :: 0 <= k < |inputs| ==> inputs[k].today == today
    requires 0 <= CountOf(p, CountKey(today)) <= MaxLineAlertsPerDay
    ensures var o := Ticks(p, inputs);
      && CountOf(o.prefs, CountKey(today)) == CountOf(p, CountKey(today)) + AlertPushes(o.sent)
      && CountOf(o.prefs, CountKey(today)) <= MaxLineAlertsPerDay
      && AlertPushes(o.sent) <= MaxLineAlertsPerDay - CountOf(p, CountKey(today))
  {
    if inputs != [] {
      var before := Ticks(p, inputs[..|inputs| - 1]);
      DailyPushCap(p, today, inputs[..|inputs| - 1]);
      var last := inputs[|inputs| - 1];
      TickCountsPushes(before.prefs, last);
      AlertPushesConcat(before.sent, Tick(before.prefs, last).sent);
    }
  }

  /** A day whose counter is still at zero allows no more than three LINE alert pushes however many ticks run. */
  lemma AtMostThreePushesPerDay(p: WorkerPrefs, today: string, inputs: seq<TickInput>)
    requires CountOf(p, CountKey(today)) == 0
    requires forall k :: 0 <= k < |inputs| ==> inputs[k].today == today
    ensures AlertPushes(Ticks(p, inputs).sent) <= 3
  {
    DailyPushCap(p, today, inputs);
  }

  /** The heartbeat: outside both windows, or once sent for this slot today, nothing happens. */
  lemma HeartbeatQuiet(p: WorkerPrefs, token: string, groupId: string, totalMs: int, hour: int, today: string, sendOk: bool)
    requires SlotFor(hour) == None || FlagOf(p, HeartbeatKey(today, SlotFor(hour).value))
    ensures Heartbeat(p, token, groupId, totalMs, hour, today, sendOk) == Outcome(p, [])
  {
  }

  /**
   * Inside a window with the slot's flag unset, exactly one heartbeat goes out;
   * the flag is set afterwards if and only if the send succeeded, and no other
   * key changes.
   */
  lemma HeartbeatSends(p: WorkerPrefs, token: string, groupId: string, totalMs: int, hour: int, today: string, sendOk: bool)
    requires SlotFor(hour).Some? && !FlagOf(p, HeartbeatKey(today, SlotFor(hour).value))
    ensures var o := Heartbeat(p, token, groupId, totalMs, hour, today, sendOk);
      var key := HeartbeatKey(today, SlotFor(hour).value);
      && o.sent == [HeartbeatMessage(token, groupId, HeartbeatText(SlotFor(hour).value, totalMs))]
      && (FlagOf(o.prefs, key) <==> sendOk)
      && (forall k :: k != key ==> FlagOf(o.prefs, k) == FlagOf(p, k))
      && o.prefs.counts == p.counts
  {
  }

  /** A failed heartbeat is retried by a later tick in the same window; a successful one is not repeated. */
  lemma HeartbeatRetriedUntilSent(p: WorkerPrefs, token: string, groupId: string, totalMs: int, totalMs2: int,
                                  hour: int, hour2: int, today: string, ok: bool, ok2: bool)
    requires SlotFor(hour).Some? && SlotFor(hour2) == SlotFor(hour)
    requires !FlagOf(p, HeartbeatKey(today, SlotFor(hour).value))
    ensures var first := Heartbeat(p, token, groupId, totalMs, hour, today, ok);
      var second := Heartbeat(first.prefs, token, groupId, totalMs2, hour2, today, ok2);
      (second.sent == []) <==> ok
  {
  }

  /** The alert push's result and Beeminder's result change nothing: they are only logged. */
  lemma SendResultsIgnored(p: WorkerPrefs, i: TickInput, alertPushOk: bool, beeminderOk: bool)
    ensures Tick(p, i.(alertPushOk := alertPushOk, beeminderOk := beeminderOk)) == Tick(p, i)
  {
    var j := i.(alertPushOk := alertPushOk, beeminderOk := beeminderOk);
    assert HeartbeatStep(p, j) == HeartbeatStep(p, i);
  }

  /** No alerts: the heartbeat and Beeminder steps are all that happened; no notification, no push, no count. */
  lemma NoAlertsNoNotifications(p: WorkerPrefs, i: TickInput)
    requires Evaluate(i.usages, GetThresholdConfig(i.settings)) == []
    ensures Tick(p, i) == Outcome(HeartbeatStep(p, i).prefs, HeartbeatStep(p, i).sent + BeeminderStep(i.settings, i.totalMs))
    ensures CountOf(Tick(p, i).prefs, CountKey(i.today)) == CountOf(p, CountKey(i.today))
  {
    HeartbeatStepShape(p, i);
  }

  /**
   * With alerts, the notifications for all of them follow the heartbeat and
   * Beeminder steps, and the push, when allowed, carries the first alert's
   * text only.
   */
  lemma AlertsNotifiedThenPushed(p: WorkerPrefs, i: TickInput)
    requires Evaluate(i.usages, GetThresholdConfig(i.settings)) != []
    ensures var alerts := Evaluate(i.usages, GetThresholdConfig(i.settings));
      var hb := HeartbeatStep(p, i);
      var shown := hb.sent + BeeminderStep(i.settings, i.totalMs) + Notifications(alerts, i.canNotify);
      && (IsLineConfigured(i.settings) && CanSendLineAlert(hb.prefs, i.today) ==>
            Tick(p, i).sent == shown + [AlertPush(i.settings.lineToken, i.settings.lineGroupId, BuildAlertMessage(alerts[0]))])
      && (!(IsLineConfigured(i.settings) && CanSendLineAlert(hb.prefs, i.today)) ==> Tick(p, i) == Outcome(hb.prefs, shown))
  {
    RespondShape(p, i, Evaluate(i.usages, GetThresholdConfig(i.settings)));
  }

  predicate NoLineMessage(ds: seq<Delivery>) {
    forall k :: 0 <= k < |ds| ==> !IsLineMessage(ds[k])
  }

  predicate NoDatapoint(ds: seq<Delivery>) {
    forall k :: 0 <= k < |ds| ==> !ds[k].BeeminderDatapoint?
  }

  lemma NoLineMessageConcat(xs: seq<Delivery>, ys: seq<Delivery>)
    requires NoLineMessage(xs) && NoLineMessage(ys)
    ensures NoLineMessage(xs + ys)
  {
    forall k | 0 <= k < |xs + ys| ensures !IsLineMessage((xs + ys)[k]) {
      if k >= |xs| {
        assert (xs + ys)[k] == ys[k - |xs|];
      }
    }
  }

  lemma NoDatapointConcat(xs: seq<Delivery>, ys: seq<Delivery>)
    requires NoDatapoint(xs) && NoDatapoint(ys)
    ensures NoDatapoint(xs + ys)
  {
    forall k | 0 <= k < |xs + ys| ensures !(xs + ys)[k].BeeminderDatapoint? {
      if k >= |xs| {
        assert (xs + ys)[k] == ys[k - |xs|];
      }
    }
  }

  lemma NoLineMessageIn(hb: seq<Delivery>, bee: seq<Delivery>, notes: seq<Delivery>, push: seq<Delivery>)
    requires NoLineMessage(hb) && NoLineMessage(bee) && NoLineMessage(notes) && NoLineMessage(push)
    ensures NoLineMessage(hb + bee + notes + push)
  {
    NoLineMessageConcat(hb, bee);
    NoLineMessageConcat(hb + bee, notes);
    NoLineMessageConcat(hb + bee + notes, push);
  }

  /** Without LINE settings no LINE message is sent and the worker's preferences do not change. */
  lemma RespondLineGated(p: WorkerPrefs, i: TickInput, alerts: seq<UsageAlert>)
    requires !IsLineConfigured(i.settings)
    ensures Respond(p, i, alerts).prefs == p
    ensures NoLineMessage(Respond(p, i, alerts).sent)
  {
    RespondShape(p, i, alerts);
    assert !Pushes(p, i, alerts);
    assert HeartbeatStep(p, i) == Outcome(p, []);
    var notes := if alerts == [] then [] else Notifications(alerts, i.canNotify);
    assert NoLineMessage(notes) by {
      NotificationsOnly(alerts, i.canNotify);
    }
    NoLineMessageIn([], BeeminderStep(i.settings, i.totalMs), notes, []);
  }

  lemma LineGated(p: WorkerPrefs, i: TickInput)
    requires !IsLineConfigured(i.settings)
    ensures Tick(p, i).prefs == p
    ensures NoLineMessage(Tick(p, i).sent)
  {
    RespondLineGated(p, i, Evaluate(i.usages, GetThresholdConfig(i.settings)));
  }

  lemma NoDatapointIn(hb: seq<Delivery>, bee: seq<Delivery>, notes: seq<Delivery>, push: seq<Delivery>)
    requires NoDatapoint(hb) && NoDatapoint(bee) && NoDatapoint(notes) && NoDatapoint(push)
    ensures NoDatapoint(hb + bee + notes + push)
  {
    NoDatapointConcat(hb, bee);
    NoDatapointConcat(hb + bee, notes);
    NoDatapointConcat(hb + bee + notes, push);
  }

  /** Without Beeminder settings no datapoint is posted. */
  lemma RespondBeeminderGated(p: WorkerPrefs, i: TickInput, alerts: seq<UsageAlert>)
    requires !IsBeeminderConfigured(i.settings)
    ensures NoDatapoint(Respond(p, i, alerts).sent)
  {
    RespondShape(p, i, alerts);
    var hb := HeartbeatStep(p, i);
    assert NoDatapoint(hb.sent) by {
      HeartbeatStepShape(p, i);
    }
    var notes := if alerts == [] then [] else Notifications(alerts, i.canNotify);
    assert NoDatapoint(notes) by {
      NotificationsOnly(alerts, i.canNotify);
    }
    var push := if Pushes(p, i, alerts) then [PushOf(i.settings, alerts)] else [];
    NoDatapointIn(hb.sent, BeeminderStep(i.settings, i.totalMs), notes, push);
  }

  lemma BeeminderGated(p: WorkerPrefs, i: TickInput)
    requires !IsBeeminderConfigured(i.settings)
    ensures NoDatapoint(Tick(p, i).sent)
  {
    RespondBeeminderGated(p, i, Evaluate(i.usages, GetThresholdConfig(i.settings)));
  }

  lemma AppendOne(base: seq<Delivery>, shown: seq<Delivery>, d: Delivery)
    ensures base + shown + [d] == base + (shown + [d])
  {
  }

  /** Appending a tick's deliveries piece by piece appends them all. */
  lemma AppendedInOrder(base: seq<Delivery>, all: seq<Delivery>, hb: seq<Delivery>, bee: seq<Delivery>,
                        notes: seq<Delivery>, push: seq<Delivery>)
    requires all == hb + bee + notes + push
    ensures base + hb + bee + notes + push == base + all
  {
  }

  // ---------------------------------------------------------------------------
  // The worker

  /** The read at which an exception leaves the `try`, when one does. */
  datatype ReadStep = RefreshStep | QueryStep | SettingsStep | TotalStep

  class UsageCheckWorker {
    const usageRepository: UsageRepository
    const settingsRepository: SettingsRepository
    var prefs: WorkerPrefs
    var sent: seq<Delivery>

    constructor (usageRepository: UsageRepository, settingsRepository: SettingsRepository)
      ensures this.usageRepository == usageRepository && this.settingsRepository == settingsRepository
      ensures prefs == EmptyWorkerPrefs && sent == []
    {
      this.usageRepository := usageRepository;
      this.settingsRepository := settingsRepository;
      prefs := EmptyWorkerPrefs;
      sent := [];
    }

    method SendHeartbeatIfNeeded(token: string, groupId: string, totalMs: int, hour: int, today: string, sendOk: bool)
      modifies this
      ensures prefs == Heartbeat(old(prefs), token, groupId, totalMs, hour, today, sendOk).prefs
      ensures sent == old(sent) + Heartbeat(old(prefs), token, groupId, totalMs, hour, today, sendOk).sent
    {
      var slot: Slot;
      if HeartbeatHourMorning <= hour <= HeartbeatHourMorning + 2 {
        slot := Morning;
      } else if HeartbeatHourNight <= hour <= HeartbeatHourNight + 2 {
        slot := Night;
      } else {
        return;
      }
      var key := HeartbeatKey(today, slot);
      if FlagOf(prefs, key) {
        return;
      }
      sent := sent + [HeartbeatMessage(token, groupId, HeartbeatText(slot, totalMs))];
      if sendOk {
        prefs := prefs.(flags := prefs.flags[key := true]);
      }
    }

    method CanSendLineAlert(today: string) returns (b: bool)
      ensures b <==> CountOf(prefs, CountKey(today)) < MaxLineAlertsPerDay
    {
      var count := CountOf(prefs, CountKey(today));
      b := count < MaxLineAlertsPerDay;
    }

    method IncrementLineAlertCount(today: string)
      modifies this
      ensures prefs == Incremented(old(prefs), today) && sent == old(sent)
    {
      var count := CountOf(prefs, CountKey(today));
      prefs := prefs.(counts := prefs.counts[CountKey(today) := count + 1]);
    }

    /** `showNotification`: nothing is posted without the notification permission. */
    method ShowNotification(tag: string, message: string, permitted: bool)
      modifies this
      ensures prefs == old(prefs)
      ensures sent == old(sent) + (if permitted then [NotificationFor(tag, message)] else [])
    {
      if !permitted {
        return;
      }
      sent := sent + [Notification(tag, Lines(message)[0], message)];
    }

    /** `alerts.forEach { showNotification(...) }`, when notifications are permitted. */
    method Notify(alerts: seq<UsageAlert>, canNotify: bool)
      modifies this
      ensures prefs == old(prefs) && sent == old(sent) + Notifications(alerts, canNotify)
    {
      for j := 0 to |alerts|
        invariant prefs == old(prefs)
        invariant sent == old(sent) + Notifications(alerts[..j], canNotify)
      {
        ghost var shown := Notifications(alerts[..j], canNotify);
        ShowNotification(TypeName(alerts[j].alertType), BuildAlertMessage(alerts[j]), canNotify);
        assert sent == old(sent) + Notifications(alerts[..j + 1], canNotify) by {
          NotificationsStep(alerts, j, canNotify);
          if canNotify {
            AppendOne(old(sent), shown, AlertNotification(alerts[j]));
          }
        }
      }
      assert alerts[..|alerts|] == alerts;
    }

    /** The heartbeat, when LINE is configured, then the Beeminder datapoint, when Beeminder is. */
    method Announce(i: TickInput)
      modifies this
      ensures prefs == HeartbeatStep(old(prefs), i).prefs
      ensures sent == old(sent) + HeartbeatStep(old(prefs), i).sent + BeeminderStep(i.settings, i.totalMs)
    {
      var settings := i.settings;
      if IsLineConfigured(settings) {
        SendHeartbeatIfNeeded(settings.lineToken, settings.lineGroupId, i.totalMs, i.hour, i.today, i.heartbeatOk);
      }
      if IsBeeminderConfigured(settings) {
        sent := sent + [BeeminderDatapoint(settings.beeminderUser, settings.beeminderGoal, settings.beeminderToken, i.totalMs)];
      }
    }

    /** The rest of `doWork`'s `try` once the usage, the settings and the total have been read. */
    method Deliver(i: TickInput)
      modifies this
      ensures prefs == Tick(old(prefs), i).prefs && sent == old(sent) + Tick(old(prefs), i).sent
    {
      ghost var start := prefs;
      ghost var base := sent;
      var settings := i.settings;
      Announce(i);
      ghost var hb := HeartbeatStep(start, i);
      ghost var bee := BeeminderStep(settings, i.totalMs);

      var alerts := Check(i.usages, GetThresholdConfig(settings));
      ghost var o := Respond(start, i, alerts);
      assert Tick(start, i) == o;
      RespondShape(start, i, alerts);
      if alerts == [] {
        AppendedInOrder(base, o.sent, hb.sent, bee, [], []);
        return;
      }
      Notify(alerts, i.canNotify);
      ghost var notes := Notifications(alerts, i.canNotify);
      assert sent == base + hb.sent + bee + notes;

      var allowed := CanSendLineAlert(i.today);
      if IsLineConfigured(settings) && allowed {
        var mainAlert := alerts[0];
        sent := sent + [AlertPush(settings.lineToken, settings.lineGroupId, BuildAlertMessage(mainAlert))];
        IncrementLineAlertCount(i.today);
        AppendedInOrder(base, o.sent, hb.sent, bee, notes, [PushOf(settings, alerts)]);
      } else {
        AppendedInOrder(base, o.sent, hb.sent, bee, notes, []);
      }
    }

    /**
     * `doWork`. The event streams and "now" of its two usage reads (the one
     * `refreshAndSave` saves, and the later `queryTodayUsage` the thresholds
     * are checked on), today's date, the hour, the notification permission
     * and the answers of the LINE and Beeminder services are inputs; `fault`
     * names the read that throws, if any. The heartbeat and Beeminder see the
     * saved total, the threshold check sees the later listing.
     */
    method DoWork(events: seq<UsageEvent>, end: int, laterEvents: seq<UsageEvent>, laterEnd: int,
                  labelOf: string -> Option<string>, today: string, hour: int,
                  heartbeatOk: bool, beeminderOk: bool, alertPushOk: bool, canNotify: bool, fault: Option<ReadStep>)
      returns (result: WorkResult)
      requires usageRepository.dao.Valid()
      modifies this, usageRepository.dao
      ensures usageRepository.dao.Valid()
      ensures var saved := Replaced(old(usageRepository.dao.rows), today, Stamped(TodayUsage(events, end, labelOf), today));
        usageRepository.dao.rows == (if fault == Some(RefreshStep) then old(usageRepository.dao.rows) else saved)
      ensures fault.Some? ==> result == Retry && prefs == old(prefs) && sent == old(sent)
      ensures fault.None? ==> result == Success
      ensures fault.None? ==>
        var usages := TodayUsage(laterEvents, laterEnd, labelOf);
        var savedTotal := SumBy(TodayUsage(events, end, labelOf), InfoUsage);
        var input := TickInput(usages, ReadSettings(settingsRepository.prefs), savedTotal,
                               hour, today, heartbeatOk, beeminderOk, alertPushOk, canNotify);
        prefs == Tick(old(prefs), input).prefs && sent == old(sent) + Tick(old(prefs), input).sent
    {
      assert fault.None? || fault == Some(RefreshStep) || fault == Some(QueryStep)
          || fault == Some(SettingsStep) || fault == Some(TotalStep) by {
        match fault
        case None =>
        case Some(step) =>
          match step
          case RefreshStep =>
          case QueryStep =>
          case SettingsStep =>
          case TotalStep =>
      }
      if fault == Some(RefreshStep) {
        return Retry;
      }
      usageRepository.RefreshAndSave(today, events, end, labelOf);
      if fault == Some(QueryStep) {
        return Retry;
      }
      var usages := usageRepository.QueryTodayUsage(laterEvents, laterEnd, labelOf);
      if fault == Some(SettingsStep) {
        return Retry;
      }
      var settings := settingsRepository.GetSettings();
      if fault == Some(TotalStep) {
        return Retry;
      }
      var totalMs := usageRepository.GetTodayTotalMs(today);
      RefreshedTotal(old(usageRepository.dao.rows), today, events, end, labelOf);
      var input := TickInput(usages, settings, totalMs, hour, today, heartbeatOk, beeminderOk, alertPushOk, canNotify);
      assert input == TickInput(TodayUsage(laterEvents, laterEnd, labelOf), ReadSettings(settingsRepository.prefs),
                                SumBy(TodayUsage(events, end, labelOf), InfoUsage),
                                hour, today, heartbeatOk, beeminderOk, alertPushOk, canNotify);
      Deliver(input);
      return Success;
    }
  }
}
