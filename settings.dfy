/** The auto-comment settings page: settings are loaded, edited by partial
    updates merged into the loaded record, saved back, and pending coverage
    increases can be turned into comments. Each increase is previewed by
    filling the comment template. */
module Settings {
  import opened Wrappers
  import opened JsStrings
  import opened Backend

  const SavedAlert: string := "Settings saved successfully!"
  const SaveFailedAlert: string := "Failed to save settings. Please try again."
  const ProcessStartedAlert: string := "Comment processing started! Comments will be posted to your activities shortly."
  const ProcessFailedAlert: string := "Failed to start comment processing. Please try again."

  /** A `Partial<CommentSettings>`: `None` fields are not in the update. */
  datatype SettingsPatch = SettingsPatch(
    userId: Option<int>,
    enabled: Option<bool>,
    runningEnabled: Option<bool>,
    cyclingEnabled: Option<bool>,
    walkingEnabled: Option<bool>,
    hikingEnabled: Option<bool>,
    ebikingEnabled: Option<bool>,
    skiingEnabled: Option<bool>,
    commentTemplate: Option<string>,
    minCoverageIncrease: Option<real>,
    customAreasEnabled: Option<bool>,
    createdAt: Option<string>,
    updatedAt: Option<string>)

  const EmptyPatch: SettingsPatch :=
    SettingsPatch(None, None, None, None, None, None, None, None, None, None, None, None, None)

  /** One field after a spread update: the update's value when the update
      has the field, the old value otherwise. */
  predicate Updated<T(==)>(after: T, before: T, update: Option<T>) {
    if update.Some? then after == update.value else after == before
  }

  /** Every field of `after` is that of `before` updated by `u`. */
  predicate UpdatedBy(after: CommentSettings, before: CommentSettings, u: SettingsPatch) {
    && Updated(after.userId, before.userId, u.userId)
    && Updated(after.enabled, before.enabled, u.enabled)
    && Updated(after.runningEnabled, before.runningEnabled, u.runningEnabled)
    && Updated(after.cyclingEnabled, before.cyclingEnabled, u.cyclingEnabled)
    && Updated(after.walkingEnabled, before.walkingEnabled, u.walkingEnabled)
    && Updated(after.hikingEnabled, before.hikingEnabled, u.hikingEnabled)
    && Updated(after.ebikingEnabled, before.ebikingEnabled, u.ebikingEnabled)
    && Updated(after.skiingEnabled, before.skiingEnabled, u.skiingEnabled)
    && Updated(after.commentTemplate, before.commentTemplate, u.commentTemplate)
    && Updated(after.minCoverageIncrease, before.minCoverageIncrease, u.minCoverageIncrease)
    && Updated(after.customAreasEnabled, before.customAreasEnabled, u.customAreasEnabled)
    && Updated(after.createdAt, before.createdAt, u.createdAt)
    && Updated(after.updatedAt, before.updatedAt, u.updatedAt)
  }

  /** `{ ...settings, ...updates }`: every field the update has takes its
      new value, and every other field is unchanged. */
  function Merge(s: CommentSettings, u: SettingsPatch): (r: CommentSettings)
    ensures UpdatedBy(r, s, u)
  {
    CommentSettings(
      u.userId.GetOr(s.userId),
      u.enabled.GetOr(s.enabled),
      u.runningEnabled.GetOr(s.runningEnabled),
      u.cyclingEnabled.GetOr(s.cyclingEnabled),
      u.walkingEnabled.GetOr(s.walkingEnabled),
      u.hikingEnabled.GetOr(s.hikingEnabled),
      u.ebikingEnabled.GetOr(s.ebikingEnabled),
      u.skiingEnabled.GetOr(s.skiingEnabled),
      u.commentTemplate.GetOr(s.commentTemplate),
      u.minCoverageIncrease.GetOr(s.minCoverageIncrease),
      u.customAreasEnabled.GetOr(s.customAreasEnabled),
      u.createdAt.GetOr(s.createdAt),
      u.updatedAt.GetOr(s.updatedAt))
  }

  /** One field of two updates in a row: the later value wins when there is one. */
  function Later<T>(earlier: Option<T>, later: Option<T>): Option<T> {
    if later.Some? then later else earlier
  }

  /** Two updates applied one after the other, as one update: fields of
      the later one win. */
  function Combine(a: SettingsPatch, b: SettingsPatch): SettingsPatch {
    SettingsPatch(
      Later(a.userId, b.userId),
      Later(a.enabled, b.enabled),
      Later(a.runningEnabled, b.runningEnabled),
      Later(a.cyclingEnabled, b.cyclingEnabled),
      Later(a.walkingEnabled, b.walkingEnabled),
      Later(a.hikingEnabled, b.hikingEnabled),
      Later(a.ebikingEnabled, b.ebikingEnabled),
      Later(a.skiingEnabled, b.skiingEnabled),
      Later(a.commentTemplate, b.commentTemplate),
      Later(a.minCoverageIncrease, b.minCoverageIncrease),
      Later(a.customAreasEnabled, b.customAreasEnabled),
      Later(a.createdAt, b.createdAt),
      Later(a.updatedAt, b.updatedAt))
  }

  /** An empty update changes nothing. */
  lemma MergeEmpty(s: CommentSettings)
    ensures Merge(s, EmptyPatch) == s
  {
  }

  /** Applying the same update twice is the same as applying it once. */
  lemma MergeIdempotent(s: CommentSettings, u: SettingsPatch)
    ensures Merge(Merge(s, u), u) == Merge(s, u)
  {
  }

  /** Successive updates compose: the result only depends on the combined update. */
  lemma MergeCompose(s: CommentSettings, a: SettingsPatch, b: SettingsPatch)
    ensures Merge(Merge(s, a), b) == Merge(s, Combine(a, b))
  {
    MergeComposeOwner(s, a, b);
    MergeComposeRunCycle(s, a, b);
    MergeComposeWalkHike(s, a, b);
    MergeComposeEBikeSki(s, a, b);
    MergeComposeRest(s, a, b);
  }

  /** `MergeCompose` on the owner and the master switch. */
  lemma MergeComposeOwner(s: CommentSettings, a: SettingsPatch, b: SettingsPatch)
    ensures Merge(Merge(s, a), b).userId == Merge(s, Combine(a, b)).userId
    ensures Merge(Merge(s, a), b).enabled == Merge(s, Combine(a, b)).enabled
  {
  }

  /** `MergeCompose` on the running and cycling flags. */
  lemma MergeComposeRunCycle(s: CommentSettings, a: SettingsPatch, b: SettingsPatch)
    ensures Merge(Merge(s, a), b).runningEnabled == Merge(s, Combine(a, b)).runningEnabled
    ensures Merge(Merge(s, a), b).cyclingEnabled == Merge(s, Combine(a, b)).cyclingEnabled
  {
  }

  /** `MergeCompose` on the walking and hiking flags. */
  lemma MergeComposeWalkHike(s: CommentSettings, a: SettingsPatch, b: SettingsPatch)
    ensures Merge(Merge(s, a), b).walkingEnabled == Merge(s, Combine(a, b)).walkingEnabled
    ensures Merge(Merge(s, a), b).hikingEnabled == Merge(s, Combine(a, b)).hikingEnabled
  {
  }

  /** `MergeCompose` on the e-biking and skiing flags. */
  lemma MergeComposeEBikeSki(s: CommentSettings, a: SettingsPatch, b: SettingsPatch)
    ensures Merge(Merge(s, a), b).ebikingEnabled == Merge(s, Combine(a, b)).ebikingEnabled
    ensures Merge(Merge(s, a), b).skiingEnabled == Merge(s, Combine(a, b)).skiingEnabled
  {
  }

  /** `MergeCompose` on the template, the threshold, the custom-area flag and the timestamps. */
  lemma MergeComposeRest(s: CommentSettings, a: SettingsPatch, b: SettingsPatch)
    ensures Merge(Merge(s, a), b).commentTemplate == Merge(s, Combine(a, b)).commentTemplate
    ensures Merge(Merge(s, a), b).minCoverageIncrease == Merge(s, Combine(a, b)).minCoverageIncrease
    ensures Merge(Merge(s, a), b).customAreasEnabled == Merge(s, Combine(a, b)).customAreasEnabled
    ensures Merge(Merge(s, a), b).createdAt == Merge(s, Combine(a, b)).createdAt
    ensures Merge(Merge(s, a), b).updatedAt == Merge(s, Combine(a, b)).updatedAt
  {
  }

  /** The six per-activity checkboxes. */
  datatype ActivityToggle = Running | Cycling | Walking | Hiking | EBiking | Skiing

  function Flag(s: CommentSettings, k: ActivityToggle): bool {
    match k
    case Running => s.runningEnabled
    case Cycling => s.cyclingEnabled
    case Walking => s.walkingEnabled
    case Hiking => s.hikingEnabled
    case EBiking => s.ebikingEnabled
    case Skiing => s.skiingEnabled
  }

  /** `updateSettings({ [key]: e.target.checked })` for the checkbox `k`. */
  function TogglePatch(k: ActivityToggle, checked: bool): SettingsPatch {
    match k
    case Running => EmptyPatch.(runningEnabled := Some(checked))
    case Cycling => EmptyPatch.(cyclingEnabled := Some(checked))
    case Walking => EmptyPatch.(walkingEnabled := Some(checked))
    case Hiking => EmptyPatch.(hikingEnabled := Some(checked))
    case EBiking => EmptyPatch.(ebikingEnabled := Some(checked))
    case Skiing => EmptyPatch.(skiingEnabled := Some(checked))
  }

  /** A checkbox sets its own flag and leaves every other field as it was. */
  lemma ToggleChangesOnlyItsFlag(s: CommentSettings, k: ActivityToggle, checked: bool)
    ensures var r := Merge(s, TogglePatch(k, checked));
      && Flag(r, k) == checked
      && (forall k' :: k' != k ==> Flag(r, k') == Flag(s, k'))
      && r.userId == s.userId && r.enabled == s.enabled
      && r.commentTemplate == s.commentTemplate && r.minCoverageIncrease == s.minCoverageIncrease
      && r.customAreasEnabled == s.customAreasEnabled
      && r.createdAt == s.createdAt && r.updatedAt == s.updatedAt
  {
    match k {
      case Running =>
      case Cycling =>
      case Walking =>
      case Hiking =>
      case EBiking =>
      case Skiing =>
    }
  }

  datatype Icon = Runner | Cyclist | Walker | HikingBoot | Bicycle | Skier

  /** `getActivityTypeIcon(type)` */
  function ActivityTypeIcon(activityType: string): (r: Icon)
    ensures r == Cyclist <==> activityType == "Ride" || activityType == "VirtualRide"
    ensures r == Walker <==> activityType == "Walk"
    ensures r == HikingBoot <==> activityType == "Hike"
    ensures r == Bicycle <==> activityType == "EBikeRide"
    ensures r == Skier <==>
              activityType == "AlpineSki" || activityType == "BackcountrySki" || activityType == "NordicSki"
  {
    match activityType
    case "Run" => Runner
    case "VirtualRun" => Runner
    case "Ride" => Cyclist
    case "VirtualRide" => Cyclist
    case "Walk" => Walker
    case "Hike" => HikingBoot
    case "EBikeRide" => Bicycle
    case "AlpineSki" => Skier
    case "BackcountrySki" => Skier
    case "NordicSki" => Skier
    case _ => Runner
  }

  /** Any type that is not one of the ten listed gets the runner icon. */
  lemma UnknownTypeGetsRunner(activityType: string)
    requires activityType !in {"Run", "VirtualRun", "Ride", "VirtualRide", "Walk", "Hike",
                               "EBikeRide", "AlpineSki", "BackcountrySki", "NordicSki"}
    ensures ActivityTypeIcon(activityType) == Runner
  {
  }

  /** The preview of a comment: the first `{city}` is replaced by the city
      name, then the first `{coverage}` by the formatted new coverage. */
  function Preview(template: string, cityName: string, coverageText: string): (r: string)
    ensures !Contains(template, "{city}") && !Contains(template, "{coverage}") ==> r == template
  {
    ReplaceFirst(ReplaceFirst(template, "{city}", cityName), "{coverage}", coverageText)
  }

  /** Only the first `{city}` is replaced: a second one stays in the text. */
  lemma OnlyFirstCityReplaced(rest: string, cityName: string)
    ensures ReplaceFirst("{city}" + rest, "{city}", cityName) == cityName + rest
  {
    var t := "{city}" + rest;
    assert OccursAt(t, "{city}", 0) by { assert t[0..6] == "{city}"; }
    assert IndexOf(t, "{city}") == Some(0);
    assert t[6..] == rest;
  }

  /** `user?.id` is truthy: present and non-zero. */
  predicate HasUserId(userId: Option<int>) {
    userId.Some? && userId.value != 0
  }

  class SettingsPage {
    const userId: Option<int>
    var settings: Option<CommentSettings>
    var increases: seq<CoverageIncrease>
    var isLoadingSettings: bool
    var isSaving: bool
    var isProcessing: bool
    /** Every value `isSaving` / `isProcessing` was set to, in order. */
    var savingHistory: seq<bool>
    var processingHistory: seq<bool>
    var calls: seq<ApiCall>
    var alerts: seq<string>

    constructor(id: Option<int>)
      ensures userId == id && settings == None && increases == []
      ensures isLoadingSettings && !isSaving && !isProcessing
      ensures savingHistory == [] && processingHistory == [] && calls == [] && alerts == []
    {
      userId := id;
      settings := None;
      increases := [];
      isLoadingSettings := true;
      isSaving := false;
      isProcessing := false;
      savingHistory := [];
      processingHistory := [];
      calls := [];
      alerts := [];
    }

    /** `loadSettings`; `response` is the `settings` field of the answer. */
    method LoadSettings(response: Result<Option<CommentSettings>>)
      modifies this
      ensures !HasUserId(userId) ==>
                settings == old(settings) && calls == old(calls) && isLoadingSettings == old(isLoadingSettings)
      ensures HasUserId(userId) ==>
                calls == old(calls) + [GetCommentSettings(userId.value)] && !isLoadingSettings
                && settings == (if response.Ok? then response.value else old(settings))
      ensures increases == old(increases) && isSaving == old(isSaving) && isProcessing == old(isProcessing)
      ensures savingHistory == old(savingHistory) && processingHistory == old(processingHistory)
      ensures alerts == old(alerts)
    {
      if !HasUserId(userId) {
        return;
      }
      isLoadingSettings := true;
      calls := calls + [GetCommentSettings(userId.value)];
      if response.Ok? {
        settings := response.value;
      }
      isLoadingSettings := false;
    }

    /** `loadCoverageIncreases`; a missing `increases` field is an empty list
        and a failed request leaves the list as it was. */
    method LoadCoverageIncreases(response: Result<Option<seq<CoverageIncrease>>>)
      modifies this
      ensures !HasUserId(userId) ==> increases == old(increases) && calls == old(calls)
      ensures HasUserId(userId) ==>
                calls == old(calls) + [GetCoverageIncreases(userId.value)]
                && increases == (if response.Ok? then response.value.GetOr([]) else old(increases))
      ensures settings == old(settings) && isLoadingSettings == old(isLoadingSettings)
      ensures isSaving == old(isSaving) && isProcessing == old(isProcessing)
      ensures savingHistory == old(savingHistory) && processingHistory == old(processingHistory)
      ensures alerts == old(alerts)
    {
      if !HasUserId(userId) {
        return;
      }
      calls := calls + [GetCoverageIncreases(userId.value)];
      if response.Ok? {
        increases := response.value.GetOr([]);
      }
    }

    /** `handleSaveSettings`; `response` is the outcome of the update request. */
    method HandleSaveSettings(response: Result<Unit>)
      modifies this
      ensures !HasUserId(userId) || old(settings).None? ==>
                calls == old(calls) && alerts == old(alerts) && savingHistory == old(savingHistory)
                && isSaving == old(isSaving)
      ensures HasUserId(userId) && old(settings).Some? ==>
                !isSaving
                && calls == old(calls) + [UpdateCommentSettings(userId.value, old(settings).value)]
                && savingHistory == old(savingHistory) + [true, false]
                && alerts == old(alerts) + [if response.Ok? then SavedAlert else SaveFailedAlert]
      ensures settings == old(settings) && increases == old(increases)
      ensures isLoadingSettings == old(isLoadingSettings) && isProcessing == old(isProcessing)
      ensures processingHistory == old(processingHistory)
    {
      if !HasUserId(userId) || settings.None? {
        return;
      }
      isSaving := true;
      savingHistory := savingHistory + [true];
      calls := calls + [UpdateCommentSettings(userId.value, settings.value)];
      alerts := alerts + [if response.Ok? then SavedAlert else SaveFailedAlert];
      isSaving := false;
      savingHistory := savingHistory + [false];
    }

    /** `handleProcessComments`; `response` is the outcome of the process
        request and `reload` that of the increases reload it triggers. */
    method HandleProcessComments(response: Result<Unit>, reload: Result<Option<seq<CoverageIncrease>>>)
      modifies this
      ensures !HasUserId(userId) ==>
                calls == old(calls) && alerts == old(alerts) && increases == old(increases)
                && isProcessing == old(isProcessing) && processingHistory == old(processingHistory)
      ensures HasUserId(userId) ==> !isProcessing && processingHistory == old(processingHistory) + [true, false]
      ensures HasUserId(userId) && response.Ok? ==>
                calls == old(calls) + [ProcessComments(userId.value), GetCoverageIncreases(userId.value)]
                && alerts == old(alerts) + [ProcessStartedAlert]
                && increases == (if reload.Ok? then reload.value.GetOr([]) else old(increases))
      ensures HasUserId(userId) && response.Err? ==>
                calls == old(calls) + [ProcessComments(userId.value)]
                && alerts == old(alerts) + [ProcessFailedAlert] && increases == old(increases)
      ensures settings == old(settings) && isLoadingSettings == old(isLoadingSettings)
      ensures isSaving == old(isSaving) && savingHistory == old(savingHistory)
    {
      if !HasUserId(userId) {
        return;
      }
      isProcessing := true;
      processingHistory := processingHistory + [true];
      calls := calls + [ProcessComments(userId.value)];
      if response.Ok? {
        alerts := alerts + [ProcessStartedAlert];
        LoadCoverageIncreases(reload);
      } else {
        alerts := alerts + [ProcessFailedAlert];
      }
      isProcessing := false;
      processingHistory := processingHistory + [false];
    }

    /** `updateSettings(updates)`: nothing happens before settings are loaded. */
    method UpdateSettings(u: SettingsPatch)
      modifies this
      ensures settings == (if old(settings).None? then None else Some(Merge(old(settings).value, u)))
      ensures increases == old(increases) && calls == old(calls) && alerts == old(alerts)
      ensures isLoadingSettings == old(isLoadingSettings) && isSaving == old(isSaving)
      ensures isProcessing == old(isProcessing)
      ensures savingHistory == old(savingHistory) && processingHistory == old(processingHistory)
    {
      if settings.None? {
        return;
      }
      settings := Some(Merge(settings.value, u));
    }

    /** The process button's `disabled` attribute, once settings are loaded. */
    function ProcessButtonDisabled(): (d: bool)
      reads this
      requires settings.Some?
      ensures !d ==> settings.value.enabled && !isProcessing && |increases| > 0
      ensures d ==> !settings.value.enabled || isProcessing || |increases| == 0
    {
      !settings.value.enabled || isProcessing || |increases| == 0
    }
  }
}
