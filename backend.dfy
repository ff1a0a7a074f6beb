/** The records the front-end receives from the REST backend, and one
    `ApiCall` value per backend request it issues. The pages record the
    requests they issue in order, so that contracts can say which calls a
    handler makes and in what order. Timestamps and formatted numbers are
    kept as opaque strings and reals. */
module Backend {
  import opened Wrappers

  /** `GET /api/import/status/{userId}` */
  datatype ImportStatus = ImportStatus(
    userId: int,
    totalActivities: int,
    importedCount: int,
    processedCount: int,
    failedCount: int,
    lastImportTime: string,
    inProgress: bool,
    currentPage: int,
    estimatedRemaining: int)

  /** A city; id 0 marks a geocoding result not yet stored by the backend. */
  datatype City = City(
    id: int,
    name: string,
    countryCode: string,
    latitude: Option<real>,
    longitude: Option<real>)

  /** `POST /api/detection/auto-detect/{userId}`; `cities` may be missing. */
  datatype DetectionResult = DetectionResult(cities: Option<seq<City>>)

  datatype LatLng = LatLng(lat: real, lng: real)

  /** A custom area; `coveragePercentage` is `None` while it is null or
      undefined, that is, until a coverage calculation has completed. */
  datatype CustomArea = CustomArea(
    id: int,
    userId: int,
    name: string,
    coordinates: seq<LatLng>,
    coveragePercentage: Option<real>,
    activitiesCount: int,
    createdAt: string,
    updatedAt: string)

  datatype CityCoverage = CityCoverage(
    cityId: int,
    cityName: string,
    countryCode: string,
    coveragePercent: real,
    activityCount: int)

  /** `GET /api/multi-coverage/user/{userId}/summary`; `cityCoverage` may be missing. */
  datatype CoverageSummary = CoverageSummary(
    userId: string,
    totalCities: int,
    cityCoverage: Option<seq<CityCoverage>>)

  /** The per-user auto-comment settings. */
  datatype CommentSettings = CommentSettings(
    userId: int,
    enabled: bool,
    runningEnabled: bool,
    cyclingEnabled: bool,
    walkingEnabled: bool,
    hikingEnabled: bool,
    ebikingEnabled: bool,
    skiingEnabled: bool,
    commentTemplate: string,
    minCoverageIncrease: real,
    customAreasEnabled: bool,
    createdAt: string,
    updatedAt: string)

  datatype CoverageIncrease = CoverageIncrease(
    userId: int,
    activityId: int,
    cityId: int,
    cityName: string,
    previousCoverage: real,
    newCoverage: real,
    increase: real,
    activityType: string,
    activityDate: string)

  /** One backend request. */
  datatype ApiCall =
    | StartImport(userId: int)
    | GetImportStatus(userId: int)
    | AutoDetect(userId: int)
    | CalculateAll(userId: int)
    | GetSummary(userId: int)
    | ListAreas(userId: int)
    | CreateArea(userId: int, name: string, coordinates: seq<LatLng>)
    | DeleteArea(areaId: int)
    | CalculateAreaCoverage(areaId: int)
    | ListCities
    | SearchCities(query: string)
    | CreateCity(name: string, countryCode: string, latitude: real, longitude: real)
    | GetCommentSettings(userId: int)
    | UpdateCommentSettings(userId: int, settings: CommentSettings)
    | GetCoverageIncreases(userId: int)
    | ProcessComments(userId: int)

  /** The number of requests in `calls` that satisfy `p`. */
  function CountCalls(calls: seq<ApiCall>, p: ApiCall -> bool): (n: nat)
    ensures n <= |calls|
  {
    if |calls| == 0 then 0
    else CountCalls(calls[..|calls| - 1], p) + (if p(calls[|calls| - 1]) then 1 else 0)
  }

  /** Counting over two logs in a row is adding the two counts. */
  lemma {:induction false} CountCallsAppend(a: seq<ApiCall>, b: seq<ApiCall>, p: ApiCall -> bool)
    ensures CountCalls(a + b, p) == CountCalls(a, p) + CountCalls(b, p)
    decreases |b|
  {
    if |b| == 0 {
      assert a + b == a;
    } else {
      var front := b[..|b| - 1];
      assert (a + b)[..|a + b| - 1] == a + front;
      CountCallsAppend(a, front, p);
    }
  }
}
