# Strava coverage front end — a Dafny model

The front end of a Strava coverage tracker is a Next.js application over a
REST backend. A user signs in with Strava. The dashboard imports their
activities, detects the cities they were recorded in and calculates how much
of each city they have covered. The other pages cover the rest of the
application:

- Maps shows cities, activities and coverage as switchable layers.
- Areas lets the user draw custom areas and calculate coverage for them.
- Settings configures automatic activity comments.

There is no engine in the front end. Every page is a small state machine
driven by backend responses and user events. This project models that logic
in Dafny and proves what each page promises.

Conventions of the model:

- **Backend responses are inputs.** Every backend request answers with
  `Result<T>`, either `Ok(payload)` or `Err(message)`, given as a parameter.
  A poll is given the sequence of responses the backend would send, in order.
- **Pages are classes.** Their fields are the page's React state.
- **Effects are logs.** The requests a page makes (`calls`), the alerts it
  raises, the values its step indicator and progress text take, and the
  redirects it schedules are each appended to a log. This makes "exactly one
  delete", "nothing after a failed create" and "the steps only move forward"
  statements about those logs.
- **JavaScript built-ins are modelled explicitly, in their own modules:**
  - `JsStrings`: `trim`, `toLowerCase`/`toUpperCase`, `indexOf`, `replace`
    with a string pattern, `split`;
  - `JsNumbers`: `parseInt` and number-to-string;
  - `UriDecoding`: `decodeURIComponent`, including its UTF-8 decoding and
    its failure on a malformed escape, with `encodeURIComponent` as the
    partner it inverts.

One module per source file:

| module | source file |
|---|---|
| `Dashboard` | `app/dashboard/page.tsx` |
| `Areas` | `app/areas/page.tsx` |
| `AreaNameDialog` | `app/components/AreaNameDialog.tsx` |
| `CitySelector` | `app/components/CityOrCustomAreaSelector.tsx` |
| `OAuthCallback` | `app/oauth/callback/page.tsx` |
| `OAuthCallbackImproved` | `app/oauth/callback/page-improved.tsx` |
| `Settings` | `app/settings/page.tsx` |
| `Navbar` | `app/components/Navbar.tsx` |
| `Maps` | `app/maps/page.tsx` |
| `CustomAreaMap` | `app/components/CustomAreaMap.tsx` |
| `ActivityColors` | `app/lib/activityColors.ts` |
| `ConfirmationDialog` | `app/components/ConfirmationDialog.tsx` |
| `Backend` | records and requests of `app/lib/api.ts` and `app/lib/api/customAreas.ts` |

## Model

| member | source | states |
|---|---|---|
| Dashboard.PollMessage | app/dashboard/page.tsx:246-251 | a poll of a finished import reports the imported count; a running one reports the page and the count so far |
| Dashboard.PollImport | app/dashboard/page.tsx:239-260 | the poll loop ends at the first response that is a failure or a finished import, and every earlier response was a running import; it never ends while every response says the import is running (no cap) |
| Dashboard.PollImportDetermined | app/dashboard/page.tsx:239-256 | the first response that is not a running import decides the loop's outcome and the number of polls |
| Dashboard.PollMessagesEndWithCompletion | app/dashboard/page.tsx:246-248 | when the loop ends with a finished import, the last progress text it set reports that import's count |
| Dashboard.CitiesFound | app/dashboard/page.tsx:267 | the detected-city count is the length of the returned list, or 0 when the list is missing |
| Dashboard.StatusCalls | app/dashboard/page.tsx:240-243 | n polls are n status requests for the user |
| Dashboard.AnalysisCalls | app/dashboard/page.tsx:262-282 | after the import: detection is always requested; calculate-all only when detection succeeded; the two reloads only when both succeeded |
| Dashboard.AnalysisSteps | app/dashboard/page.tsx:263-290 | after the import the step goes to detecting; it ends in completed exactly when detection and calculation both succeed, and in idle exactly when either fails |
| Dashboard.AnalysisLog | app/dashboard/page.tsx:264-290 | after the import the progress text shows analysing, then the city count; it ends with "All done" on success, or with the failed request's message after "Error: " |
| Dashboard.WorkflowMovesForward | app/dashboard/page.tsx:230-287 | whatever the responses, the steps of one run go importing → detecting → calculating → completed in that order, and only the last one may fall back to idle |
| Dashboard.DashboardPage.constructor | app/dashboard/page.tsx:61-66 | the step starts idle, the progress text empty and nothing is processing |
| Dashboard.DashboardPage.LoadCoverageSummary | app/dashboard/page.tsx:144-155 | without a user nothing happens; otherwise one summary request, and a failed request clears the summary |
| Dashboard.DashboardPage.LoadImportStatus | app/dashboard/page.tsx:94-113 | the background poller starts (step importing, "Import in progress...") exactly when the loaded status is a running import and nothing is processing; a failed request clears the status |
| Dashboard.DashboardPage.PollTick | app/dashboard/page.tsx:115-142 | a running status changes only the stored status; a finished one stops the poller, sets completed, clears processing and reloads the summary once; an error stops the poller, sets idle and clears processing |
| Dashboard.DashboardPage.PollUntilImported | app/dashboard/page.tsx:239-256 | the loop makes one status request per response and stops right after the first failed or finished one, every earlier one being running; its progress texts are those of the successful polls, in order |
| Dashboard.DashboardPage.DetectAndCalculate | app/dashboard/page.tsx:262-290 | the requests, steps and texts after the import are exactly the analysis sequences above; processing is false on every exit, and the status and summary are reloaded only on success |
| Dashboard.DashboardPage.FinishRun | app/dashboard/page.tsx:277-282 | a successful run reloads summary and status (the poller is not restarted, because the run is still processing), then sets completed and "All done" |
| Dashboard.DashboardPage.StartAutomatedWorkflow | app/dashboard/page.tsx:227-291 | without a user nothing happens; a failed start ends in idle with the error; a failed status poll ends in idle with "Import did not complete successfully" and no detection or calculation request; a finished import continues with detection and calculation; processing is false on every exit |
| Dashboard.DashboardPage.StartNewAnalysis | app/dashboard/page.tsx:373-376 | from completed, the step becomes idle and the progress text empty; nothing else changes |
| Areas.ErrorDetail | app/areas/page.tsx:85-128 | the alert detail is the backend's error text, else the error's message, else "Unknown error"; it is never empty |
| Areas.FindAreaIndex | app/areas/page.tsx:105-133 | the index of the first area with the id, with no earlier area having it; none exactly when no area has the id |
| Areas.FindArea | app/areas/page.tsx:105-133 | the first area with the id, no earlier area having it; none is found exactly when no listed area has the id |
| Areas.CoverageReadyCases | app/areas/page.tsx:104-110 | a failed check or an area missing from the list does not stop the poll |
| Areas.CoverageReadyAtFirstMatch | app/areas/page.tsx:104-110 | when the area is listed, the first entry with its id stops the poll exactly when its coverage is set, whatever later entries hold |
| Areas.MaxTicks | app/areas/page.tsx:114-119 | the number of 60 s ticks that fit within the 120 s cut-off |
| Areas.NextPoll | app/areas/page.tsx:99-119 | a tick stops the poll when the area is ready, keeps it running otherwise, and never lets it pass the cut-off |
| Areas.RunPoll | app/areas/page.tsx:99-119 | a sequence of ticks keeps the poll within the cut-off and its area fixed |
| Areas.PollEndsByCutoff | app/areas/page.tsx:116-119 | whatever the checks return, a poll is stopped after at most the ticks that fit in 120 s |
| Areas.CoordinateValues | app/areas/page.tsx:283-288 | every stored coordinate reaches the map as a valid coordinate |
| Areas.StoredAreaDrawn | app/areas/page.tsx:283-288 | a stored area is drawn exactly when it has a coordinate, and every coordinate becomes a point of its polygon |
| Areas.MapInput | app/areas/page.tsx:283-288 | the map receives the area's name and all its coordinates; the coverage is dropped exactly when it is missing or 0, and passed as a number otherwise |
| Areas.ZeroCoverageShowsNameOnly | app/areas/page.tsx:287 | `coverage_percentage \|\| undefined` drops a coverage of 0, so its tooltip shows only the name |
| Areas.AreasPage.constructor | app/areas/page.tsx:20-22 | no areas, nothing pending, nothing selected |
| Areas.AreasPage.DeleteDialog | app/areas/page.tsx:294-302 | the confirmation dialog is open exactly when an area is pending, with "Delete" as a destructive (red) confirm label |
| Areas.AreasPage.LoadCustomAreas | app/areas/page.tsx:30-42 | without a user id nothing is requested; a failed request empties the list |
| Areas.AreasPage.CalculateCustomAreaCoverage | app/areas/page.tsx:89-130 | a started calculation is announced and one poll starts for the area; a failed start raises the failure alert and starts no poll |
| Areas.AreasPage.CoveragePollTick | app/areas/page.tsx:99-114 | a tick reloads the list, then checks the area; only an area found with a coverage stops the poll, and a failed check is swallowed |
| Areas.AreasPage.HandleAreaDrawn | app/areas/page.tsx:50-87 | create, then reload, then select the created area, then start its coverage calculation; a failed create raises the alert and nothing after it runs |
| Areas.AreasPage.OnAreaDrawn | app/areas/page.tsx:278-282 | the map's callback runs the handler and then reloads once more |
| Areas.AreasPage.DeleteArea | app/areas/page.tsx:132-137 | an area becomes pending only if one with that id is listed; otherwise nothing changes |
| Areas.AreasPage.RequestDelete | app/areas/page.tsx:254-258 | a card's delete button makes its area pending |
| Areas.AreasPage.SelectArea | app/areas/page.tsx:194-249 | a card click selects its area; the close button clears the selection |
| Areas.AreasPage.ConfirmDeleteArea | app/areas/page.tsx:139-151 | with nothing pending nothing happens; otherwise exactly one delete for the pending id, then a reload on success or the failure alert; the pending area is cleared either way |
| Areas.AreasPage.CancelDeleteArea | app/areas/page.tsx:153-155 | the pending area is cleared, with no request |
| Areas.DeleteOnce | app/areas/page.tsx:132-151 | marking a listed area and confirming issues exactly one delete request, for that area, and leaves nothing pending |
| AreaNameDialog.WellFormedNameIsTrimmed | app/components/AreaNameDialog.tsx:20-32 | an accepted name has no surrounding white space |
| AreaNameDialog.ValidateName | app/components/AreaNameDialog.tsx:19-35 | blank after trimming gives "required"; more than 100 characters after trimming gives "too long"; otherwise the trimmed name is accepted |
| AreaNameDialog.SaveEnabledIffNotBlank | app/components/AreaNameDialog.tsx:93 | the save button is enabled exactly when the name is not blank |
| AreaNameDialog.TypedText | app/components/AreaNameDialog.tsx:64-73 | the input keeps at most 100 characters, as a prefix of what was typed |
| AreaNameDialog.TypedNameNeverTooLong | app/components/AreaNameDialog.tsx:27-73 | a typed name is never rejected as too long |
| AreaNameDialog.HundredCharactersAccepted | app/components/AreaNameDialog.tsx:27-30 | a name of exactly 100 characters after trimming is accepted |
| AreaNameDialog.ValidEventsAppend | app/components/AreaNameDialog.tsx:32 | every name ever passed to onSave is non-empty, trimmed and at most 100 characters |
| AreaNameDialog.Dialog.View | app/components/AreaNameDialog.tsx:17-93 | a closed dialog renders nothing; an open one shows the name, the error, the character count and save enabled exactly when the name is not blank |
| AreaNameDialog.Dialog.HandleSave | app/components/AreaNameDialog.tsx:19-35 | an accepted name goes to onSave trimmed, and name and error are reset; a rejected one sets the error and calls nothing |
| AreaNameDialog.Dialog.HandleCancel | app/components/AreaNameDialog.tsx:37-41 | name and error are reset and onCancel is called, never onSave |
| AreaNameDialog.Dialog.HandleKeyPress | app/components/AreaNameDialog.tsx:43-49 | Enter does what save does, Escape what cancel does, any other key nothing |
| AreaNameDialog.Dialog.OnChange | app/components/AreaNameDialog.tsx:64-67 | editing sets the (length-limited) text and clears the error |
| CitySelector.FallbackFilter | app/components/CityOrCustomAreaSelector.tsx:49-53 | the fallback list holds exactly the initial cities whose lower-cased name or country code contains the lower-cased query |
| CitySelector.FallbackFilterAppend | app/components/CityOrCustomAreaSelector.tsx:49-53 | the filter keeps the original order |
| CitySelector.MatchesIgnoresQueryCase | app/components/CityOrCustomAreaSelector.tsx:51-52 | the match does not depend on the case of the query |
| CitySelector.BlankQueryIffAllSpace | app/components/CityOrCustomAreaSelector.tsx:35 | a query is blank exactly when it is all white space |
| CitySelector.SelectedId | app/components/CityOrCustomAreaSelector.tsx:71-95 | a city with id 0 and truthy coordinates is selected by the created id, or not at all when the create fails; any other city by its own id |
| CitySelector.StoredCitySelectedDirectly | app/components/CityOrCustomAreaSelector.tsx:91-94 | a city with a non-zero id is selected by that id, whatever the create would answer |
| CitySelector.Selector.constructor | app/components/CityOrCustomAreaSelector.tsx:27-30 | the results start as the initial cities, with no mode chosen, no search running and no error |
| CitySelector.Selector.SearchCities | app/components/CityOrCustomAreaSelector.tsx:33-60 | a blank query restores the initial list with no request; a success shows the returned list (empty when none); a failure sets the error and shows the fallback list; searching is false afterwards |
| CitySelector.Selector.HandleCitySelect | app/components/CityOrCustomAreaSelector.tsx:71-95 | a city that needs creating makes one create request and reports the created id, or sets the error and reports nothing; any other city is reported by id with no request |
| CitySelector.Selector.HandleCustomAreaSelect | app/components/CityOrCustomAreaSelector.tsx:97-100 | the mode becomes custom and the callback fires once |
| CitySelector.Selector.SelectCityMode | app/components/CityOrCustomAreaSelector.tsx:109 | the mode becomes city |
| OAuthCallback.DecodedName | app/oauth/callback/page.tsx:47 | a missing or empty name becomes "Strava User"; a name without escapes is kept |
| OAuthCallback.Classify | app/oauth/callback/page.tsx:35-78 | an error parameter wins; the success triple signs in with the parsed ids, the decoded name and an empty email; an undecodable name fails processing; a code alone means the backend failed; anything else means missing information |
| OAuthCallback.MalformedNameFails | app/oauth/callback/page.tsx:44-78 | a malformed escape in the name makes the callback fail with no user set |
| OAuthCallback.EncodedNameIsDecoded | app/oauth/callback/page.tsx:47 | for any name, a `user_name` value equal to `encodeURIComponent(name)` (a name percent-encoded twice in the URL) signs in a user with exactly that name, or "Strava User" when it is empty |
| OAuthCallback.CallbackPage.HandleCallback | app/oauth/callback/page.tsx:14-82 | every call ends in exactly one of success or error; the user is set and /dashboard scheduled only on success |
| OAuthCallbackImproved.ImprovedUser | app/oauth/callback/page-improved.tsx:25-33 | the success triple gives a user with the raw name, or "Strava User", and an empty email; anything else gives none |
| OAuthCallbackImproved.PagesAgreeOnPlainNames | app/oauth/callback/page-improved.tsx:25-33 | without an error parameter and without escapes in the name, both callback pages sign in the same user |
| OAuthCallbackImproved.ErrorParameterPrecedenceDiffers | app/oauth/callback/page-improved.tsx:25-45 | with a success triple and an error parameter, the first page fails and this one signs in |
| OAuthCallbackImproved.NameDecodingDiffers | app/oauth/callback/page-improved.tsx:29 | for any non-empty name whose `user_name` value is `encodeURIComponent(name)` (percent-encoded twice in the URL), the first page signs in the name and this page the encoded text; the two agree exactly when the name has no character that needs escaping |
| OAuthCallbackImproved.MalformedNameOnlyFailsFirstPage | app/oauth/callback/page-improved.tsx:29 | any name with a malformed escape fails the first page with the processing message but signs in here with the raw name |
| OAuthCallbackImproved.PercentInPlainNameOnlyFailsFirstPage | app/oauth/callback/page-improved.tsx:29 | a name such as "100% Club", percent-encoded once in the URL and so read plain, fails the first page and is shown as written by this one |
| OAuthCallbackImproved.ImprovedCallbackPage.HandleCallback | app/oauth/callback/page-improved.tsx:15-51 | once processed, later calls change nothing; otherwise success sets the user and schedules /dashboard after 1500 ms, and anything else sets error and schedules / after 3000 ms; processed becomes true on both |
| OAuthCallbackImproved.RunTwice | app/oauth/callback/page-improved.tsx:17-34 | over two calls the user is set at most once, by the first call |
| Settings.Merge | app/settings/page.tsx:116-119 | each of the thirteen fields takes the update's value when the update has it, and keeps its old value otherwise |
| Settings.MergeEmpty | app/settings/page.tsx:116-119 | an empty update changes nothing |
| Settings.MergeIdempotent | app/settings/page.tsx:116-119 | applying the same update twice is applying it once |
| Settings.MergeCompose | app/settings/page.tsx:116-119 | two updates in a row are one combined update, the later one winning |
| Settings.ToggleChangesOnlyItsFlag | app/settings/page.tsx:245-345 | a toggle sets its own flag and leaves every other flag and the template unchanged |
| Settings.ActivityTypeIcon | app/settings/page.tsx:121-142 | each listed activity type maps to its icon, exactly |
| Settings.UnknownTypeGetsRunner | app/settings/page.tsx:139-140 | any other type gets the runner icon |
| Settings.Preview | app/settings/page.tsx:445-447 | a template with neither placeholder is shown unchanged |
| Settings.OnlyFirstCityReplaced | app/settings/page.tsx:446 | only the first "{city}" is replaced |
| Settings.SettingsPage.constructor | app/settings/page.tsx:40-44 | settings not loaded, nothing saving or processing |
| Settings.SettingsPage.LoadSettings | app/settings/page.tsx:53-65 | without a user id nothing happens; otherwise the settings are loaded and loading ends |
| Settings.SettingsPage.LoadCoverageIncreases | app/settings/page.tsx:67-76 | without a user id nothing happens; a missing increases field counts as an empty list |
| Settings.SettingsPage.HandleSaveSettings | app/settings/page.tsx:85-98 | without a user id or loaded settings nothing happens; otherwise saving is true during the request and false afterwards, success or failure |
| Settings.SettingsPage.HandleProcessComments | app/settings/page.tsx:100-114 | processing is true during the request and false afterwards; the increases are reloaded only after a successful request |
| Settings.SettingsPage.UpdateSettings | app/settings/page.tsx:116-119 | nothing happens while settings are not loaded; otherwise they become the merge of the update |
| Settings.SettingsPage.ProcessButtonDisabled | app/settings/page.tsx:405 | the process button is disabled exactly when auto-comments are off, processing is underway or there are no increases |
| Navbar.NavItems | app/components/Navbar.tsx:32-37 | Dashboard, Maps, Areas only when custom areas are enabled, then Settings |
| Navbar.NavPathsDistinct | app/components/Navbar.tsx:32-37 | no two items share a path |
| Navbar.IsActive | app/components/Navbar.tsx:65-68 | an item is highlighted when the pathname equals its path |
| Navbar.AtMostOneActive | app/components/Navbar.tsx:65-68 | at most one item is highlighted for any pathname |
| Navbar.Initials | app/components/Navbar.tsx:83 | the initials are the upper-cased first characters of the runs of non-space characters, with no lower-case ASCII letter left; empty pieces add nothing |
| Navbar.InitialsOfTwoWords | app/components/Navbar.tsx:83 | a first and a last name give two initials |
| Navbar.CustomAreasFlag | app/components/Navbar.tsx:20-24 | custom areas are enabled exactly when the response carries the flag as true; missing settings, a missing flag or a failed request leave it off |
| Navbar.NavBar.constructor | app/components/Navbar.tsx:12 | the flag starts off |
| Navbar.NavBar.LoadFeatureSettings | app/components/Navbar.tsx:14-28 | no request without a user id; otherwise one settings request sets the flag |
| Navbar.NavBar.Render | app/components/Navbar.tsx:30-83 | nothing without a user; otherwise the items and the initials |
| Maps.SetLayer | app/maps/page.tsx:133-153 | a checkbox sets its own layer flag and leaves the other two unchanged |
| Maps.FindCityIndex | app/maps/page.tsx:99 | the index of the first city with the id, or none when no city has it |
| Maps.FindCity | app/maps/page.tsx:99 | the first city with the id, or none when no city has it |
| Maps.FindCoverageIndex | app/maps/page.tsx:100 | the index of the first coverage entry for the city, with no earlier entry for it; none exactly when no entry is for the city |
| Maps.FindCoverage | app/maps/page.tsx:100 | the first coverage entry for the city, no earlier entry being for it; none exactly when no entry is for the city |
| Maps.GetCityWithCoverage | app/maps/page.tsx:98-102 | the city is the first city with the id; with a summary that has a coverage list, the coverage is the first entry for the city; without one, there is no coverage |
| Maps.MapCityId | app/maps/page.tsx:273 | a selected id of 0 reaches the map as no selection |
| Maps.CoverageSwitchDisabled | app/maps/page.tsx:154 | the coverage switch is disabled exactly when no city, or the id 0, is selected |
| Maps.LegendVisible | app/maps/page.tsx:217 | the coverage legend shows exactly when the coverage layer is on and a non-zero city id is selected |
| Maps.CityParamSelection | app/maps/page.tsx:67-74 | an absent or empty parameter selects nothing; otherwise the selection is what parseInt reads |
| Maps.DashboardLinkSelectsCity | app/maps/page.tsx:67-74 | the parameter written for a city id selects that id |
| Maps.TrailingTextIgnored | app/maps/page.tsx:69 | parseInt reads only the leading digits, so text after the id is ignored |
| Maps.MapsPage.constructor | app/maps/page.tsx:46-53 | cities on, activities on, coverage off, nothing selected |
| Maps.MapsPage.ApplyCityParam | app/maps/page.tsx:61-76 | a parameter that parses selects that city and turns coverage on; otherwise nothing changes |
| Maps.MapsPage.LoadCities | app/maps/page.tsx:78-85 | a success replaces the list; a failure leaves it |
| Maps.MapsPage.LoadCoverageSummary | app/maps/page.tsx:87-96 | without a user nothing happens; a failure leaves the summary |
| Maps.MapsPage.ToggleLayer | app/maps/page.tsx:133-154 | a layer switch changes only its own flag; the coverage switch responds only while a city is selected |
| Maps.MapsPage.SelectAllCities | app/maps/page.tsx:154-217 | the selection is cleared, so the coverage switch is disabled and the legend hidden |
| Maps.MapsPage.SelectCity | app/maps/page.tsx:187 | the city becomes the selection |
| CustomAreaMap.ValidCoordinate | app/components/CustomAreaMap.tsx:204-206 | a coordinate is kept when it is an array of at least two elements whose first two are numbers |
| CustomAreaMap.Sanitize | app/components/CustomAreaMap.tsx:204-207 | only arrays with two numeric leading elements are kept; none is lost when all are valid; the result is empty exactly when none is valid |
| CustomAreaMap.SanitizeAppend | app/components/CustomAreaMap.tsx:204-207 | filtering keeps the order |
| CustomAreaMap.SanitizedPointsComeFromInput | app/components/CustomAreaMap.tsx:204-207 | each kept point is the first two values of a valid coordinate |
| CustomAreaMap.TooltipFor | app/components/CustomAreaMap.tsx:221-223 | the coverage is shown exactly when it is a number that is not NaN |
| CustomAreaMap.Drawable | app/components/CustomAreaMap.tsx:196-212 | an area is drawn when it is present, its coordinates are an array and at least one of them is valid |
| CustomAreaMap.AreaLayer | app/components/CustomAreaMap.tsx:195-212 | an area gives one polygon exactly when it is present, its coordinates are an array and one of them is valid |
| CustomAreaMap.Polygons | app/components/CustomAreaMap.tsx:195-227 | every drawn polygon has at least one point |
| CustomAreaMap.PolygonCount | app/components/CustomAreaMap.tsx:192-227 | one polygon per area that survives validation |
| CustomAreaMap.AllDrawableAllDrawn | app/components/CustomAreaMap.tsx:192-227 | valid areas are all drawn |
| CustomAreaMap.MapView.constructor | app/components/CustomAreaMap.tsx:20-21 | the map starts not ready, with no layers |
| CustomAreaMap.MapView.Initialize | app/components/CustomAreaMap.tsx:24-160 | the map is set up only with a container and when it is not already set up |
| CustomAreaMap.MapView.RenderAreas | app/components/CustomAreaMap.tsx:184-228 | once the map is ready, the group is cleared and then holds exactly the polygons of the surviving areas |
| CustomAreaMap.MapView.OnDrawCreated | app/components/CustomAreaMap.tsx:128-147 | the shape joins the group and is reported with its first ring and the name "Custom Area n", n being the group's new size |
| CustomAreaMap.MapView.Cleanup | app/components/CustomAreaMap.tsx:169-180 | unmounting leaves the map not ready |
| CustomAreaMap.DrawAfterRender | app/components/CustomAreaMap.tsx:133-227 | a shape drawn after n stored areas survive validation is named "Custom Area n+1" |
| ActivityColors.GetActivityColor | app/lib/activityColors.ts:14-28 | a missing or empty activity type gives the default colour; a known type gives its colour; an unknown type falls back to a known sport type, else the default; the result is always a value of the table |
| ActivityColors.MissingActivityTypeIgnoresSport | app/lib/activityColors.ts:15 | without an activity type the sport type is ignored |
| ActivityColors.KnownActivityTypeIgnoresSport | app/lib/activityColors.ts:18-20 | a known activity type decides the colour whatever the sport type |
| ActivityColors.RideAndMountainBikeShareColour | app/lib/activityColors.ts:3-4 | Ride and MountainBikeRide have the same colour |
| ConfirmationDialog.Render | app/components/ConfirmationDialog.tsx:16-64 | a closed dialog renders nothing; the labels default to Confirm and Cancel; a destructive dialog uses the warning icon and red, any other the info icon and blue |
| ConfirmationDialog.HandleKeyPress | app/components/ConfirmationDialog.tsx:28-34 | Enter confirms, Escape cancels, any other key does nothing |
| ConfirmationDialog.KeyPress | app/components/ConfirmationDialog.tsx:26-34 | a closed dialog handles no key |
| ConfirmationDialog.DefaultLabels | app/components/ConfirmationDialog.tsx:22-23 | without labels the buttons read Confirm and Cancel |
| JsStrings.Trim | app/components/AreaNameDialog.tsx:20 | the trimmed string is no longer than the input and neither starts nor ends with white space |
| JsStrings.TrimEmptyIffAllSpace | app/components/AreaNameDialog.tsx:20-21 | a trimmed string is empty exactly when it was all white space |
| JsStrings.ToLower | app/components/CityOrCustomAreaSelector.tsx:51-52 | same length, no upper-case ASCII letter left, every other character kept |
| JsStrings.ToUpper | app/components/Navbar.tsx:83 | same length, no lower-case ASCII letter left, every other character kept |
| JsStrings.IndexOf | app/components/CityOrCustomAreaSelector.tsx:51-52 | the first position where the pattern occurs, none occurring earlier; none exactly when it occurs nowhere |
| JsStrings.ReplaceFirst | app/settings/page.tsx:446-447 | without an occurrence the text is unchanged; with one, the replacement stands at the first occurrence's position and the length changes by the difference |
| JsStrings.ReplaceFirstOnlyFirst | app/settings/page.tsx:446-447 | replace with a string pattern substitutes the first occurrence only |
| JsStrings.Split | app/components/Navbar.tsx:83 | at least one piece, and no piece holds the separator |
| JsStrings.SplitJoin | app/components/Navbar.tsx:83 | split pieces joined back give the name, and no piece holds the separator |
| JsNumbers.ParseInt | app/maps/page.tsx:69 | blank text gives no number, and a negative result needs a leading '-' after the white space |
| JsNumbers.ParseIntOfIntToString | app/maps/page.tsx:69 | parseInt reads back the decimal text of any integer |
| JsNumbers.ParseIntLeadingDigit | app/maps/page.tsx:69 | text starting with a digit other than 0 is read in base 10 from its first character |
| JsNumbers.ParseDigitsOfDigits | app/maps/page.tsx:69 | a run of digits reads as its value |
| UriDecoding.DecodeWithoutEscapes | app/oauth/callback/page.tsx:47 | decoding a string without '%' leaves it unchanged |
| UriDecoding.DecodeRejectsBadEscape | app/oauth/callback/page.tsx:47 | a '%' not followed by two hex digits makes decoding fail |
| UriDecoding.DecodeUriComponent | app/oauth/callback/page.tsx:47 | a decoded string is never longer than its input |
| UriDecoding.Utf8Encode | app/oauth/callback/page.tsx:47 | a character's UTF-8 encoding is one to four bytes, a single byte exactly for ASCII |
| UriDecoding.EncodeUriComponent | app/oauth/callback/page.tsx:47 | the encoding is never shorter, and leaves a string unchanged exactly when every character is unreserved |
| UriDecoding.DecodeEscapedChar | app/oauth/callback/page.tsx:47 | the escaped UTF-8 bytes of any character that needs escaping, followed by any text, decode to that character followed by the decoding of the text |
| UriDecoding.DecodeEncodeRoundTrip | app/oauth/callback/page.tsx:47 | decoding undoes encoding for every string |

## Left out

- HTTP: requests are not sent. Axios and its interceptors are left out; each endpoint is a `Result` parameter and an entry in the page's request log.
- The endpoints `citiesAPI.search`, `citiesAPI.createFromExternal` and `commentsAPI` are called by the pages but are not defined in `app/lib/api.ts`; they are modelled as abstract requests like the others.
- Timers are left out: `setInterval`, `setTimeout`, the 300 ms search debounce and the redirect delays. A poll is a sequence of responses or a tick method; a delay is recorded with its duration.
- React scheduling is left out. Each state update takes effect at once, and a handler reads the current state, not the value captured when it was created.
- Leaflet is left out: map creation, draw controls, tile layers, `fitBounds`, and `MapComponent.tsx` and `MapPreview.tsx`.
- Markup and styling are left out, as is the static landing page.
- Floating point and number formatting are left out. Coverage values are reals; `toFixed` texts are opaque strings; the width clamps are not modelled.
- Strings are sequences of Unicode scalar values (Dafny's `char`). Case mapping covers ASCII only, and `replace` patterns have no `$` substitutions.
- AreaNameDialog.ValidateName: lengths are counted in characters, not in UTF-16 code units as JavaScript's `length` and `maxLength` count them. A name of 60 emoji is 60 characters here and accepted, but 120 code units in the browser and rejected by the 100 limit. The same holds for AreaNameDialog.TypedText, and Navbar.Initials takes a whole character where `n[0]` takes one code unit.
- ActivityColors.GetActivityColor: JavaScript's `in` also sees the keys that every object inherits, so `getActivityColor("constructor")` returns a function rather than a colour. The model looks keys up in the table only, and its promise that the result is a value of the table holds only for that reading.
- Dashboard.DashboardPage.StartAutomatedWorkflow: the poll loop has no cap, so when every response given still reports a running import, the run ends still importing and still processing.
- Dashboard.DashboardPage.StartAutomatedWorkflow: every failed request is an `Error` with a message, so the fallback text "An error occurred during processing" for other thrown values is not modelled.
- Dashboard.DashboardPage.LoadImportStatus: reads the current `isProcessing`, not the stale value captured when the callback was created.
- CitySelector.SelectedId: does not promise that the id reported after a create is non-zero, because that id comes from the backend.
- AreaNameDialog.Dialog.OnChange: the input's `maxLength` is modelled as truncation of the typed text.
- Settings.SettingsPage.HandleProcessComments: the reload after a successful request is not awaited in the page; here it completes before processing is cleared.
- Areas.AreasPage.CoveragePollTick: a poll tick fired without a signed-in user throws at `user!.id`; the model swallows this like the page's catch does, and the tick counts toward the cut-off.
- The comment in the areas page says the poll runs every 5 seconds; the interval in the code is 60 seconds, and that is what the model follows.
- OAuthCallback.Classify: the query parameters are the values `URLSearchParams.get` returns, already percent-decoded once and with '+' read as a space. Parsing the URL itself is not modelled, so a name percent-encoded once in the URL reaches both pages plain, and `decodeURIComponent` on the first page decodes it a second time.
- Areas.MaxTicks: at 120 s the second 60 s tick and the cut-off fall due together. The model lets the tick run first; in the browser the cut-off, scheduled earlier, usually fires first, so usually only one tick runs.
- Alerts, console logging and router navigation are recorded as events, not performed.
