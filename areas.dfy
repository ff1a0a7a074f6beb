/** The custom-areas page: the list of the user's areas, a drawn shape
    turned into a stored area whose coverage calculation starts at once, a
    coverage poll that stops when the area has a coverage value or at the
    two-minute cut-off, and a delete that waits for confirmation. */
module Areas {
  import opened Wrappers
  import opened Backend
  import ConfirmationDialog
  import CustomAreaMap

  /** A failed request as the page reads it: the backend's `error` field,
      if the response carried one, and the error's own message. */
  datatype ApiError = ApiError(responseError: Option<string>, message: string)

  /** The outcome of a request whose failure the page reports in detail. */
  datatype Reply<+T> = Done(value: T) | Failed(error: ApiError)

  /** `error.response?.data?.error || error.message || 'Unknown error'` */
  function ErrorDetail(e: ApiError): (r: string)
    ensures r != ""
    ensures e.responseError.Some? && e.responseError.value != "" ==> r == e.responseError.value
    ensures (e.responseError.None? || e.responseError.value == "") && e.message != "" ==> r == e.message
    ensures (e.responseError.None? || e.responseError.value == "") && e.message == "" ==> r == "Unknown error"
  {
    if e.responseError.Some? && e.responseError.value != "" then e.responseError.value
    else if e.message != "" then e.message
    else "Unknown error"
  }

  /** The alerts the page raises. */
  datatype AreaAlert =
    | CreateFailed(detail: string)
    | CalculationStarted
    | CalculateFailed(detail: string)
    | DeleteFailed

  function AlertText(a: AreaAlert): string {
    match a
    case CreateFailed(d) => "Failed to create custom area: " + d
    case CalculationStarted => "Coverage calculation started in background. Results will appear when complete."
    case CalculateFailed(d) => "Failed to start coverage calculation: " + d
    case DeleteFailed => "Failed to delete custom area"
  }

  /** The index of the first area with the given id. */
  function FindAreaIndex(areas: seq<CustomArea>, id: int): (r: Option<nat>)
    ensures r.Some? ==> r.value < |areas| && areas[r.value].id == id
    ensures r.Some? ==> forall j :: 0 <= j < r.value ==> areas[j].id != id
    ensures r.None? <==> forall j :: 0 <= j < |areas| ==> areas[j].id != id
  {
    if |areas| == 0 then None
    else if areas[0].id == id then Some(0)
    else match FindAreaIndex(areas[1..], id)
      case None => None
      case Some(i) => Some(i + 1)
  }

  /** The first area with the given id (`find`). */
  function FindArea(areas: seq<CustomArea>, id: int): (r: Option<CustomArea>)
    ensures r.None? <==> forall a :: a in areas ==> a.id != id
    ensures r.Some? ==> exists i :: 0 <= i < |areas| && areas[i] == r.value && r.value.id == id
                                    && forall j :: 0 <= j < i ==> areas[j].id != id
  {
    match FindAreaIndex(areas, id)
    case None => None
    case Some(i) => Some(areas[i])
  }

  /** The poll's stop test: the area is in the list and its coverage is
      neither null nor undefined. */
  predicate CoverageReady(check: Result<seq<CustomArea>>, areaId: int) {
    check.Ok? && FindArea(check.value, areaId).Some? && FindArea(check.value, areaId).value.coveragePercentage.Some?
  }

  /** A failed check or an area missing from the list keeps the poll going. */
  lemma CoverageReadyCases(check: Result<seq<CustomArea>>, areaId: int)
    ensures check.Err? ==> !CoverageReady(check, areaId)
    ensures check.Ok? && (forall a :: a in check.value ==> a.id != areaId) ==> !CoverageReady(check, areaId)
  {
  }

  /** When the area is listed, the first entry with its id decides: the
      poll stops exactly when that entry has a coverage value. */
  lemma CoverageReadyAtFirstMatch(areas: seq<CustomArea>, areaId: int, i: nat)
    requires i < |areas| && areas[i].id == areaId
    requires forall j :: 0 <= j < i ==> areas[j].id != areaId
    ensures CoverageReady(Ok(areas), areaId) <==> areas[i].coveragePercentage.Some?
  {
    assert FindAreaIndex(areas, areaId) == Some(i);
  }

  /** The poll runs every 60 s and is cleared by a 120 s timeout. */
  const PollIntervalMs: nat := 60000
  const PollCutoffMs: nat := 120000

  /** The number of ticks that fit before the cut-off. */
  function MaxTicks(): (n: nat)
    ensures n * PollIntervalMs <= PollCutoffMs < (n + 1) * PollIntervalMs
  {
    PollCutoffMs / PollIntervalMs
  }

  /** A coverage poll started for `areaId`; `active` while its interval runs. */
  datatype CoveragePoll = CoveragePoll(areaId: int, ticks: nat, active: bool)

  predicate PollWithinCutoff(p: CoveragePoll) {
    p.ticks <= MaxTicks() && (p.ticks == MaxTicks() ==> !p.active)
  }

  /** One tick of a poll: it stops when the area is ready or when the
      cut-off has been reached, and otherwise keeps running. */
  function NextPoll(p: CoveragePoll, ready: bool): (q: CoveragePoll)
    requires p.active && PollWithinCutoff(p)
    ensures q.areaId == p.areaId && q.ticks == p.ticks + 1
    ensures PollWithinCutoff(q)
    ensures ready ==> !q.active
    ensures !ready && q.ticks < MaxTicks() ==> q.active
  {
    CoveragePoll(p.areaId, p.ticks + 1, !ready && p.ticks + 1 < MaxTicks())
  }

  /** However the checks come out, a poll stops within `MaxTicks()` ticks. */
  lemma {:induction false} PollEndsByCutoff(p: CoveragePoll, readiness: seq<bool>)
    requires p.active && p.ticks == 0
    requires |readiness| == MaxTicks()
    ensures !RunPoll(p, readiness).active && RunPoll(p, readiness).ticks <= MaxTicks()
  {
    var q := NextPoll(p, readiness[0]);
    if q.active {
      assert readiness[1..][1..] == [];
    }
  }

  /** The poll after the given checks, stopping at the first one after it ends. */
  function RunPoll(p: CoveragePoll, readiness: seq<bool>): (q: CoveragePoll)
    requires PollWithinCutoff(p)
    ensures PollWithinCutoff(q) && q.areaId == p.areaId && q.ticks >= p.ticks
    decreases |readiness|
  {
    if |readiness| == 0 || !p.active then p else RunPoll(NextPoll(p, readiness[0]), readiness[1..])
  }

  /** `customAreas.map(...)` as the map receives it: `coverage_percentage || undefined`. */
  function MapInput(a: CustomArea): (r: CustomAreaMap.AreaInput)
    ensures r.AreaRecord? && r.name == a.name
    ensures r.coordinates.Arr? && |r.coordinates.items| == |a.coordinates|
    ensures r.coverage.None? <==> a.coveragePercentage.None? || a.coveragePercentage.value == 0.0
    ensures r.coverage.Some? ==> r.coverage.value == CustomAreaMap.Num(CustomAreaMap.Finite(a.coveragePercentage.value))
  {
    CustomAreaMap.AreaRecord(
      a.name,
      CustomAreaMap.Arr(CoordinateValues(a.coordinates)),
      if a.coveragePercentage.Some? && a.coveragePercentage.value != 0.0 then
        Some(CustomAreaMap.Num(CustomAreaMap.Finite(a.coveragePercentage.value)))
      else None)
  }

  function CoordinateValues(coords: seq<LatLng>): (r: seq<CustomAreaMap.JsValue>)
    ensures |r| == |coords|
    ensures forall i :: 0 <= i < |r| ==> CustomAreaMap.ValidCoordinate(r[i])
  {
    seq(|coords|, i requires 0 <= i < |coords| =>
      CustomAreaMap.Arr([CustomAreaMap.Num(CustomAreaMap.Finite(coords[i].lat)),
                         CustomAreaMap.Num(CustomAreaMap.Finite(coords[i].lng))]))
  }

  /** A stored area is drawn exactly when it has at least one coordinate,
      and every coordinate becomes a point of its polygon. */
  lemma StoredAreaDrawn(a: CustomArea)
    ensures CustomAreaMap.Drawable(MapInput(a)) <==> |a.coordinates| > 0
    ensures |CustomAreaMap.Sanitize(CoordinateValues(a.coordinates))| == |a.coordinates|
  {
  }

  /** A coverage of exactly 0 % is dropped on the way to the map, so the
      tooltip shows only the name. */
  lemma ZeroCoverageShowsNameOnly(a: CustomArea)
    requires a.coveragePercentage == Some(0.0)
    ensures MapInput(a).AreaRecord?
    ensures CustomAreaMap.TooltipFor(a.name, MapInput(a).coverage) == CustomAreaMap.NameOnly(a.name)
  {
  }

  /** `UI_STRINGS.BUTTONS.DELETE` and `UI_STRINGS.CUSTOM_AREAS.DELETE_CONFIRMATION` */
  const DeleteLabel: string := "Delete"
  const DeleteConfirmation: string := "Are you sure you want to delete this area?"

  class AreasPage {
    /** The signed-in user's id, if a user is present. */
    const userId: Option<int>
    var customAreas: seq<CustomArea>
    var areaToDelete: Option<CustomArea>
    var selectedArea: Option<CustomArea>
    var polls: seq<CoveragePoll>
    var calls: seq<ApiCall>
    var alerts: seq<AreaAlert>

    constructor(user: Option<int>)
      ensures userId == user && customAreas == [] && areaToDelete == None && selectedArea == None
      ensures polls == [] && calls == [] && alerts == []
      ensures Valid()
    {
      userId := user;
      customAreas := [];
      areaToDelete := None;
      selectedArea := None;
      polls := [];
      calls := [];
      alerts := [];
    }

    /** No poll runs past the cut-off. */
    predicate Valid()
      reads this
    {
      forall k :: 0 <= k < |polls| ==> PollWithinCutoff(polls[k])
    }

    /** `user?.id` is truthy. */
    predicate HasUserId()
      reads this
    {
      userId.Some? && userId.value != 0
    }

    /** The delete confirmation dialog. */
    function DeleteDialog(): (p: ConfirmationDialog.Props)
      reads this
      ensures ConfirmationDialog.Render(p).None? <==> areaToDelete.None?
      ensures ConfirmationDialog.Render(p).Some? ==>
                ConfirmationDialog.Render(p).value.confirmLabel == DeleteLabel
                && ConfirmationDialog.Render(p).value.confirmColour == ConfirmationDialog.Red
    {
      ConfirmationDialog.Props(
        areaToDelete.Some?,
        DeleteLabel + " Area",
        DeleteConfirmation + "\n\n\"" + (if areaToDelete.Some? then areaToDelete.value.name else "undefined") + "\"",
        Some(DeleteLabel),
        None,
        Some(true))
    }

    /** `loadCustomAreas`: a failed request empties the list. */
    method LoadCustomAreas(response: Result<seq<CustomArea>>)
      modifies this`customAreas, this`calls
      ensures !HasUserId() ==> customAreas == old(customAreas) && calls == old(calls)
      ensures HasUserId() ==>
                calls == old(calls) + [ListAreas(userId.value)]
                && customAreas == (if response.Ok? then response.value else [])
    {
      if !HasUserId() {
        return;
      }
      calls := calls + [ListAreas(userId.value)];
      customAreas := if response.Ok? then response.value else [];
    }

    /** `calculateCustomAreaCoverage`: a started calculation is announced and
        polled; a failed start is reported and nothing is polled. */
    method CalculateCustomAreaCoverage(areaId: int, response: Reply<CustomArea>)
      requires Valid()
      modifies this`calls, this`alerts, this`polls
      ensures Valid()
      ensures calls == old(calls) + [CalculateAreaCoverage(areaId)]
      ensures response.Done? ==>
                alerts == old(alerts) + [CalculationStarted] && polls == old(polls) + [CoveragePoll(areaId, 0, true)]
      ensures response.Failed? ==>
                alerts == old(alerts) + [CalculateFailed(ErrorDetail(response.error))] && polls == old(polls)
    {
      calls := calls + [CalculateAreaCoverage(areaId)];
      if response.Failed? {
        alerts := alerts + [CalculateFailed(ErrorDetail(response.error))];
        return;
      }
      alerts := alerts + [CalculationStarted];
      polls := polls + [CoveragePoll(areaId, 0, true)];
    }

    /** One tick of poll `k`: reload the list, then fetch it again to test
        the area; a failed check is swallowed. Without a user the check
        throws before any request, which is swallowed as well. */
    method CoveragePollTick(k: nat, reload: Result<seq<CustomArea>>, check: Result<seq<CustomArea>>)
      requires Valid() && k < |polls| && polls[k].active
      modifies this`customAreas, this`calls, this`polls
      ensures Valid()
      ensures userId.Some? ==>
                polls == old(polls)[k := NextPoll(old(polls)[k], CoverageReady(check, old(polls)[k].areaId))]
      ensures userId.None? ==> polls == old(polls)[k := NextPoll(old(polls)[k], false)]
      ensures HasUserId() ==>
                calls == old(calls) + [ListAreas(userId.value), ListAreas(userId.value)]
                && customAreas == (if reload.Ok? then reload.value else [])
      ensures userId == Some(0) ==> calls == old(calls) + [ListAreas(0)] && customAreas == old(customAreas)
      ensures userId.None? ==> calls == old(calls) && customAreas == old(customAreas)
    {
      LoadCustomAreas(reload);
      var ready := false;
      if userId.Some? {
        calls := calls + [ListAreas(userId.value)];
        ready := CoverageReady(check, polls[k].areaId);
      }
      polls := polls[k := NextPoll(polls[k], ready)];
    }

    /** `handleAreaDrawn`: create the area, reload the list, select the
        created area and start its coverage calculation; a failed create is
        reported and nothing after it runs. */
    method HandleAreaDrawn(
      area: CustomAreaMap.DrawnArea,
      create: Reply<CustomArea>,
      reload: Result<seq<CustomArea>>,
      calculate: Reply<CustomArea>)
      requires Valid()
      modifies this
      ensures Valid()
      ensures areaToDelete == old(areaToDelete)
      ensures userId.None? ==>
                calls == old(calls) && alerts == old(alerts) && polls == old(polls)
                && customAreas == old(customAreas) && selectedArea == old(selectedArea)
      ensures userId.Some? && create.Failed? ==>
                calls == old(calls) + [CreateArea(userId.value, area.name, area.coordinates)]
                && alerts == old(alerts) + [CreateFailed(ErrorDetail(create.error))]
                && polls == old(polls) && customAreas == old(customAreas) && selectedArea == old(selectedArea)
      ensures userId.Some? && create.Done? ==>
                var created := create.value;
                var reloadCalls := if HasUserId() then [ListAreas(userId.value)] else [];
                calls == old(calls) + [CreateArea(userId.value, area.name, area.coordinates)] + reloadCalls
                         + [CalculateAreaCoverage(created.id)]
                && customAreas == (if !HasUserId() then old(customAreas) else if reload.Ok? then reload.value else [])
                && selectedArea == Some(created)
                && (calculate.Done? ==>
                      alerts == old(alerts) + [CalculationStarted]
                      && polls == old(polls) + [CoveragePoll(created.id, 0, true)])
                && (calculate.Failed? ==>
                      alerts == old(alerts) + [CalculateFailed(ErrorDetail(calculate.error))] && polls == old(polls))
    {
      if userId.None? {
        return;
      }
      calls := calls + [CreateArea(userId.value, area.name, area.coordinates)];
      if create.Failed? {
        alerts := alerts + [CreateFailed(ErrorDetail(create.error))];
        return;
      }
      var created := create.value;
      LoadCustomAreas(reload);
      selectedArea := Some(created);
      CalculateCustomAreaCoverage(created.id, calculate);
    }

    /** The map's `onAreaDrawn`: the handler, then one more reload. */
    method OnAreaDrawn(
      area: CustomAreaMap.DrawnArea,
      create: Reply<CustomArea>,
      reload: Result<seq<CustomArea>>,
      calculate: Reply<CustomArea>,
      finalReload: Result<seq<CustomArea>>)
      requires Valid()
      modifies this
      ensures Valid()
      ensures areaToDelete == old(areaToDelete)
      ensures HasUserId() ==> customAreas == (if finalReload.Ok? then finalReload.value else [])
      ensures HasUserId() && create.Done? ==>
                selectedArea == Some(create.value)
                && calls == old(calls) + [CreateArea(userId.value, area.name, area.coordinates), ListAreas(userId.value),
                                          CalculateAreaCoverage(create.value.id), ListAreas(userId.value)]
      ensures HasUserId() && create.Failed? ==>
                selectedArea == old(selectedArea)
                && calls == old(calls) + [CreateArea(userId.value, area.name, area.coordinates), ListAreas(userId.value)]
    {
      HandleAreaDrawn(area, create, reload, calculate);
      LoadCustomAreas(finalReload);
    }

    /** `deleteArea`: mark the listed area with this id as pending. */
    method DeleteArea(areaId: int)
      modifies this`areaToDelete
      ensures FindArea(customAreas, areaId).None? ==> areaToDelete == old(areaToDelete)
      ensures FindArea(customAreas, areaId).Some? ==>
                areaToDelete == FindArea(customAreas, areaId) && areaToDelete.value in customAreas
                && areaToDelete.value.id == areaId
    {
      var found := FindArea(customAreas, areaId);
      if found.None? {
        return;
      }
      areaToDelete := found;
    }

    /** The delete button on an area's card. */
    method RequestDelete(area: CustomArea)
      requires area in customAreas
      modifies this`areaToDelete
      ensures areaToDelete == Some(area)
    {
      areaToDelete := Some(area);
    }

    /** Clicking an area's card selects it; the close button clears the selection. */
    method SelectArea(area: Option<CustomArea>)
      requires area.Some? ==> area.value in customAreas
      modifies this`selectedArea
      ensures selectedArea == area
    {
      selectedArea := area;
    }

    /** `confirmDeleteArea`: one delete for the pending area, then a reload
        or an alert; the pending area is cleared either way. */
    method ConfirmDeleteArea(response: Result<Unit>, reload: Result<seq<CustomArea>>)
      modifies this`areaToDelete, this`calls, this`alerts, this`customAreas
      ensures old(areaToDelete).None? ==>
                areaToDelete == None && calls == old(calls) && alerts == old(alerts) && customAreas == old(customAreas)
      ensures old(areaToDelete).Some? ==> areaToDelete == None
      ensures old(areaToDelete).Some? && response.Ok? ==>
                calls == old(calls) + [ApiCall.DeleteArea(old(areaToDelete).value.id)]
                         + (if HasUserId() then [ListAreas(userId.value)] else [])
                && customAreas == (if !HasUserId() then old(customAreas) else if reload.Ok? then reload.value else [])
                && alerts == old(alerts)
      ensures old(areaToDelete).Some? && response.Err? ==>
                calls == old(calls) + [ApiCall.DeleteArea(old(areaToDelete).value.id)]
                && alerts == old(alerts) + [DeleteFailed] && customAreas == old(customAreas)
    {
      if areaToDelete.None? {
        return;
      }
      calls := calls + [ApiCall.DeleteArea(areaToDelete.value.id)];
      if response.Ok? {
        LoadCustomAreas(reload);
      } else {
        alerts := alerts + [DeleteFailed];
      }
      areaToDelete := None;
    }

    /** `cancelDeleteArea` */
    method CancelDeleteArea()
      modifies this`areaToDelete
      ensures areaToDelete == None
    {
      areaToDelete := None;
    }
  }

  predicate IsDelete(c: ApiCall) {
    c.DeleteArea?
  }

  /** Marking a listed area and confirming issues exactly one delete, for
      that area, and leaves nothing pending. */
  method DeleteOnce(page: AreasPage, areaId: int, response: Result<Unit>, reload: Result<seq<CustomArea>>)
    returns (deletes: nat)
    requires FindArea(page.customAreas, areaId).Some?
    modifies page
    ensures |page.calls| > |old(page.calls)| && page.calls[|old(page.calls)|] == ApiCall.DeleteArea(areaId)
    ensures deletes == CountCalls(page.calls[|old(page.calls)|..], IsDelete) && deletes == 1
    ensures page.areaToDelete == None
  {
    var start := |page.calls|;
    page.DeleteArea(areaId);
    page.ConfirmDeleteArea(response, reload);
    var added := page.calls[start..];
    var d := ApiCall.DeleteArea(areaId);
    assert added == [d] || (page.userId.Some? && added == [d, ListAreas(page.userId.value)]);
    assert CountCalls([d], IsDelete) == 1 by {
      assert [d][..0] == [];
    }
    if |added| == 2 {
      assert added[..1] == [d];
    }
    deletes := CountCalls(added, IsDelete);
  }
}
