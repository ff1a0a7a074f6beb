/** The colour of an activity on the maps: a fixed eight-entry table
    keyed by Strava activity type, looked up by activity type first, then by
    sport type, then falling back to the `default` entry. */
module ActivityColors {
  import opened Wrappers

  const DefaultColor: string := "#9C27B0"

  /** `ACTIVITY_COLORS` */
  const ActivityColorTable: map<string, string> := map[
    "Ride" := "#FF6B35",
    "MountainBikeRide" := "#FF6B35",
    "Run" := "#4CAF50",
    "Walk" := "#2196F3",
    "Hike" := "#795548",
    "VirtualRide" := "#FF9800",
    "VirtualRun" := "#8BC34A",
    "default" := DefaultColor
  ]

  /** An optional string argument is truthy when present and non-empty. */
  predicate Truthy(s: Option<string>) {
    s.Some? && s.value != ""
  }

  predicate IsKey(s: Option<string>) {
    Truthy(s) && s.value in ActivityColorTable
  }

  /** `getActivityColor(activityType, sportType)` */
  function GetActivityColor(activityType: Option<string>, sportType: Option<string>): (r: string)
    ensures r in ActivityColorTable.Values
    ensures !Truthy(activityType) ==> r == DefaultColor
    ensures IsKey(activityType) ==> r == ActivityColorTable[activityType.value]
    ensures (Truthy(activityType) && !IsKey(activityType) && IsKey(sportType)) ==>
              r == ActivityColorTable[sportType.value]
    ensures !IsKey(activityType) && !IsKey(sportType) ==> r == DefaultColor
  {
    if !Truthy(activityType) then ActivityColorTable["default"]
    else if activityType.value in ActivityColorTable then ActivityColorTable[activityType.value]
    else if Truthy(sportType) && sportType.value in ActivityColorTable then ActivityColorTable[sportType.value]
    else ActivityColorTable["default"]
  }

  /** A missing or empty activity type gives the default colour even when
      the sport type is a key of the table. */
  lemma MissingActivityTypeIgnoresSport(sportType: Option<string>)
    ensures GetActivityColor(None, sportType) == DefaultColor
    ensures GetActivityColor(Some(""), sportType) == DefaultColor
  {
  }

  /** A known activity type decides the colour; the sport type is not consulted. */
  lemma KnownActivityTypeIgnoresSport(activityType: string, s1: Option<string>, s2: Option<string>)
    requires activityType in ActivityColorTable
    ensures GetActivityColor(Some(activityType), s1) == GetActivityColor(Some(activityType), s2)
  {
  }

  /** Cycling and mountain biking are drawn in the same colour. */
  lemma RideAndMountainBikeShareColour(sportType: Option<string>)
    ensures GetActivityColor(Some("Ride"), sportType) == GetActivityColor(Some("MountainBikeRide"), sportType)
  {
  }
}
