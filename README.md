# AetherPredict Shield — a Dafny model of the dashboard core

AetherPredict Shield is a cyclone decision-support dashboard. This project models the parts of it that hold logic:

- the conversational agent turn (`getAgentResponse`);
- the agent chat panel that drives the turn;
- the diagnostics log store with its listeners;
- the application shell's state: the active and pending location, map centring, playback and the layer switches;
- the simulation data builder and its constant tables;
- the timeline footer's marker, badge and hover rules;
- the map's layer-update effect.

Modules follow the source files:

| module | file | form |
|---|---|---|
| `Types` | types.ts | datatypes only |
| `Text` | (JavaScript string and number built-ins used by the others) | functions and lemmas |
| `Constants` | constants.ts | tables and pure functions; `GenerateEnsemble` is a method with a loop |
| `Logging` | services/loggingService.ts | class `LogStore` |
| `Agent` | services/geminiService.ts | pure tool routing plus methods for the turn |
| `Chat` | components/AgentInterface.tsx | class `ChatPanel` |
| `Shell` | App.tsx | pure lookups plus class `AppState` |
| `Timeline` | components/TimelineControl.tsx | pure functions |
| `MapLayers` | components/LeafletMap.tsx | pure layer functions plus class `LayerGroup` |

The remote language model is an oracle. A turn is given a `ChatScript`:

- the outcome of the first request;
- the outcome of the resubmission;
- the history the chat would return.

Each outcome is `Replied(text, calls)` or `Threw(message)`. Every branch of the turn is therefore a case of the contracts.

Other stand-ins:

- Log ids, timestamps and latencies are passed in as `Stamp` and `TurnEnv` values.
- The Gaussian noise of the ensemble generator is a `Noise` function parameter.
- Calls to listeners, to the host's `onNavigate` and to speech output are recorded as traces in fields (`delivered`, `navigations`, `spoken`).

A React effect is modelled as a method that runs right after the handler that changed its dependencies.

## Model

| member | source | states |
|---|---|---|
| `Logging.Prepend` | services/loggingService.ts:22-23 | the new list has length min(old+1, 50), the new entry first, the old entries behind it in order; when the list is full only the oldest entry is dropped |
| `Logging.PrependNewest` | services/loggingService.ts:16-25 | the bounded list after any number of additions is the newest 50 of all entries ever added, newest first |
| `Logging.Broadcast` | services/loggingService.ts:39-41 | notification reaches every registered listener once, in registration order, each with the same current list |
| `Logging.FirstIndex` | services/loggingService.ts:34 | `indexOf`: the first position of the listener, or -1 exactly when it is absent |
| `Logging.UnsubscribeRemovesOne` | services/loggingService.ts:33-36 | unsubscribing removes exactly one occurrence of that listener, is a no-op when it is absent, and leaves every other listener's count unchanged |
| `Logging.UnsubscribeTwiceIsNoOp` | services/loggingService.ts:33-36 | a second call of the same unsubscribe changes nothing, because the index is then -1 |
| `Logging.LogStore.constructor` | services/loggingService.ts:3-14 | the store starts with exactly the one `sys-init` SUCCESS entry and no listeners |
| `Logging.LogStore.AddLog` | services/loggingService.ts:16-25 | the new entry is first and copies endpoint, status, latency and details unchanged; the list is the bounded prepend of the old one, never over 50; every listener is called once with the new list |
| `Logging.LogStore.GetLogs` | services/loggingService.ts:27 | returns the current list, at most 50 entries |
| `Logging.LogStore.Subscribe` | services/loggingService.ts:29-32 | the listener is appended and called once at once with the current list |
| `Logging.LogStore.Unsubscribe` | services/loggingService.ts:33-36 | the listener list becomes the list with the first occurrence removed |
| `Logging.LogStore.NotifyListeners` | services/loggingService.ts:39-41 | the loop delivers the current list to each listener in order |
| `Agent.DeclarationsWellFormed` | services/geminiService.ts:58-138 | four tools with distinct names; every required parameter is declared; the required lists are `country`, `country`/`state`, `basin_id` and `language` |
| `Agent.RiskBasin` | services/geminiService.ts:188 | the risk tool targets `na` exactly when the lower-cased country contains `usa` or the basin contains `atlantic`, else `ni` |
| `Agent.ShelterBasin` | services/geminiService.ts:206 | the shelter tool targets `na` exactly when the lower-cased country contains `usa`, else `ni` |
| `Agent.FindDistrict` | services/geminiService.ts:193 | finds the first district whose lower-cased name contains the lower-cased city, and none exactly when no district matches |
| `Agent.DistrictLine` | services/geminiService.ts:195 | a found district's line opens with `City: ` and names the district |
| `Agent.CityNotFound` | services/geminiService.ts:197 | the not-found line names the city and never opens like a found district's line |
| `Agent.RiskInfo` | services/geminiService.ts:190-199 | the general line exactly when there is no non-empty city; with a city, a district line exactly when some district's name contains it, and then the line of the first such district; otherwise the not-found line for that city |
| `Agent.RiskResult` | services/geminiService.ts:184-200 | the risk response is the header naming the country, then the general line without a city, else the not-found line or the line of a matching district of the basin the arguments choose |
| `Agent.ShelterResult` | services/geminiService.ts:204-210 | the shelter response opens with the header naming the state and names the first shelter of the basin the country chooses |
| `Agent.NavigateResult` | services/geminiService.ts:180 | the navigation response is the fixed acknowledgement naming the upper-cased basin id |
| `Agent.Dispatch` | services/geminiService.ts:174-215 | a navigation, risk or shelter call without arguments throws the TypeError reading or destructuring `call.args` raises; `navigate_to_basin` with arguments but no `basin_id` throws; only `navigate_to_basin` with a `basin_id` yields an action, exactly NAVIGATE with that id; the risk result starts with `RISK ASSESSMENT [country]: `, the shelter result with `SHELTER OPS [state]: `; the alert tool gives its fixed text; any other name gives `Data not found` and no action |
| `Agent.RiskWithoutCity` | services/geminiService.ts:191-200 | without a city the risk result is the prefix followed by `General regional risk is ELEVATED.` |
| `Agent.RiskCityFoundIff` | services/geminiService.ts:192-198 | with a city, the risk line is the `City … not found` text exactly when no district name contains the city |
| `Agent.FoundLineDiffers` | services/geminiService.ts:195-197 | a found district's line never equals the not-found text |
| `Agent.MiamiRisk` | services/geminiService.ts:184-200 | the risk tool for country `USA` and city `Miami` reports the Miami-Dade district of the Florida data |
| `Agent.MiamiArgs` | services/geminiService.ts:185-188 | `USA` routes the risk tool to `na`, whose districts are the Florida ones |
| `Agent.MiamiFound` | services/geminiService.ts:193 | `Miami` finds Miami-Dade, the first Florida district |
| `Agent.ChennaiShelter` | services/geminiService.ts:204-210 | the shelter tool for India reports the first North Indian shelter, the Chennai community hall |
| `Agent.TurnResult` | services/geminiService.ts:129-256 | a turn's reply is never empty; when the first request, the first call's handler or the resubmission throws it is the degraded reply over the caller's history, otherwise it carries the chat's history; it navigates exactly when the first call is `navigate_to_basin` with a `basin_id` and the resubmission replies, and then to that id |
| `Agent.ArgumentlessCallFails` | services/geminiService.ts:176-206 | a navigation, risk or shelter call that carries no arguments makes the turn fail with the degraded reply |
| `Agent.GetAgentResponse` | services/geminiService.ts:129-256 | the reply is `TurnResult` of the model's behaviour; only the first function call is handled and it is resubmitted at most once; the reply without a call is its text or `I copy.` with one SUCCESS log; after a call it is the second text or `Command executed.` with the tool's action and one tool log; any throw (first request, handler, resubmission) gives `Connection to Shield Core interrupted.`, the history passed in, no action and one FAILURE log carrying the error message; any action is a navigation |
| `Agent.SendToolResponse` | services/geminiService.ts:217-234 | the tool log, then the function response sent back; the second reply's text or `Command executed.` with the action, or the degraded reply and a FAILURE log when it throws |
| `Agent.RunTool` | services/geminiService.ts:171-215 | the if/else chain over the tool name computes the reference `Dispatch` |
| `Agent.Record` | services/geminiService.ts:217-222 | one log entry is added, becomes the newest log and is delivered to the listeners |
| `Agent.Fail` | services/geminiService.ts:246-255 | the catch block adds one FAILURE entry against `Gemini 3 Pro` whose details are `Agent Error: ` and the message, and delivers it to the listeners |
| `Agent.DeliveriesAppend` | services/loggingService.ts:16-25 | the deliveries of a sequence of additions extend by one broadcast of the newest list per addition |
| `Agent.AnalysisText` | services/geminiService.ts:14-54 | the analysis text is never empty: the model text, `Analysis currently unavailable.` when it is empty, `Error generating AI analysis.` on failure |
| `Agent.AnalyzeRisk` | services/geminiService.ts:14-54 | never throws; returns the analysis text and adds one log, SUCCESS or FAILURE as the call went |
| `Chat.ReplyText` | components/AgentInterface.tsx:46-63 | the model entry is the reply text, or `Error connecting to backend.` when the agent call threw |
| `Chat.Completed` | components/AgentInterface.tsx:37-63 | a completed send leaves the transcript the handler saw, the user entry, and exactly one model entry |
| `Chat.SequentialSendAlternates` | components/AgentInterface.tsx:34-67 | sends that complete one after another keep the transcript alternating model, user, model |
| `Chat.OverlappingSendsLoseOneReply` | components/AgentInterface.tsx:34-67 | with no in-flight guard, a second send started before the first completes loses one reply whichever completes last: if the first completes first, its reply is overwritten, three entries are added and the transcript no longer alternates; if the second completes first, the first completion erases the second user entry and its reply, leaving the first send's two entries |
| `Chat.ChatPanel.constructor` | components/AgentInterface.tsx:11-19 | the transcript is exactly the greeting `Shield Protocol Active. Awaiting orders.`; closed, empty input, not processing, not listening, not muted |
| `Chat.ChatPanel.SetInput` | components/AgentInterface.tsx:191 | the input box holds the typed text |
| `Chat.ChatPanel.SetOpen` | components/AgentInterface.tsx:101-136 | the panel opens and closes |
| `Chat.ChatPanel.BeginSend` | components/AgentInterface.tsx:34-41 | blank or whitespace-only text changes nothing; otherwise the untrimmed user entry is appended, the input cleared and processing set |
| `Chat.ChatPanel.CompleteSend` | components/AgentInterface.tsx:44-66 | the transcript is the handler's one plus one model entry; processing clears on both paths; the history is replaced only on success; `onNavigate` is called once with the payload exactly for a NAVIGATE action; speech starts only when not muted |
| `Chat.ChatPanel.HandleSend` | components/AgentInterface.tsx:34-67 | a blank send changes nothing, including the log store; a non-blank send gets the turn's reply (`Agent.TurnResult` over the panel's history), appends exactly a user and a model entry, clears input and processing, takes the new history, forwards any navigation once and speaks the reply unless muted; the suggestion chips are then shown exactly when the transcript had fewer than three entries before |
| `Chat.ChatPanel.FinishSend` | components/AgentInterface.tsx:42-66 | the reply is the turn's (`Agent.TurnResult` over the history the handler captured) and it is completed into the panel as in `CompleteSend` |
| `Chat.ChatPanel.SendDisabled` | components/AgentInterface.tsx:196 | the send button is disabled exactly when the input is JavaScript white space only |
| `Chat.ChatPanel.ShowSuggestions` | components/AgentInterface.tsx:164 | the suggestion chips are shown exactly when not processing and the transcript has fewer than five entries |
| `Chat.ChatPanel.SubmitInput` | components/AgentInterface.tsx:192-196 | Enter or the send button with a blank input (the button disabled) changes nothing; otherwise the input is sent and cleared, and the transcript gains it and the turn's reply |
| `Chat.ChatPanel.SendSuggestion` | components/AgentInterface.tsx:164-169 | a shown chip always sends its fixed text: the transcript gains it and the turn's reply |
| `Chat.SuggestionsNotBlank` | components/AgentInterface.tsx:89-94 | none of the four fixed suggestions is blank |
| `Chat.SuggestionsAfterSends` | components/AgentInterface.tsx:164 | from the greeting, the chips are still shown after the first completed send and gone after the second |
| `Chat.ChatPanel.ToggleMute` | components/AgentInterface.tsx:28-32 | the mute switch flips and becoming muted cancels speech |
| `Chat.ChatPanel.ToggleVoice` | components/AgentInterface.tsx:69-87 | a no-op without recognition support; while listening it only clears the flag; otherwise it starts recognition once |
| `Chat.ChatPanel.RecognitionStarted` | components/AgentInterface.tsx:80 | the recogniser's start sets listening |
| `Chat.ChatPanel.RecognitionEnded` | components/AgentInterface.tsx:81 | the recogniser's end clears listening |
| `Chat.Ask` | services/geminiService.ts:129-256 | the agent turn as the panel calls it returns exactly `Agent.TurnResult` over the history passed, keeps the log store consistent and returns only navigation actions |
| `Shell.FindBasinIn` | App.tsx:25 | `find`: the first basin with the id, and none exactly when no basin has it |
| `Shell.FindBasin` | App.tsx:25-54 | the basin with the id when one exists, else `GLOBAL_BASINS[0]` |
| `Shell.BasinIdsDistinct` | constants.ts:9-17 | the basin registry's ids are distinct |
| `Shell.FindBasinOwn` | App.tsx:25 | every registered basin is found by its own id |
| `Shell.FindBasinFallback` | App.tsx:25 | an unknown id falls back to the North Indian basin |
| `Shell.CenterFor` | App.tsx:77-89 | centre priority: a known region, else a known country, else the middle fix of a non-empty track, else the basin's default centre |
| `Shell.RegionOptions` | App.tsx:427 | the region options are the country's regions when listed, else `Region A`, `Region B` |
| `Shell.OfferedRegionCentres` | App.tsx:424-427 | every region offered for a listed country has a centre, and confirming it centres the map there |
| `Shell.CentreWithoutChoice` | App.tsx:81-89 | with no region or country, North Indian centres on fix 7 of the track, North Atlantic on its shifted fix 7, every other basin on its default centre |
| `Shell.TrackMiddle` | App.tsx:83 | the middle index of the 15-fix track is 7 |
| `Shell.TickStep` | App.tsx:121-127 | a tick at or past the last index stops playback and keeps the index; otherwise it advances by one |
| `Shell.PlaybackStopsAtEnd` | App.tsx:117-131 | from a valid index, k ticks reach min(prev+k, len-1) and playback is still on exactly when the end was not reached |
| `Shell.AppState.constructor` | App.tsx:20-95 | the first render shows North Indian data centred on its track, index 0, playback off, and the initial switches |
| `Shell.AppState.LocationEffect` | App.tsx:66-95 | reloads the data for the active basin, centres by priority, resets index to 0, stops playback and clears the district |
| `Shell.AppState.SyncEffect` | App.tsx:57-63 | while the modal is open the pending fields copy the active ones; otherwise nothing changes |
| `Shell.AppState.OpenLocationModal` | App.tsx:57-63 | opening the modal re-syncs pending from active |
| `Shell.AppState.CloseLocationModal` | App.tsx:353 | the modal closes and nothing else changes |
| `Shell.AppState.SelectPendingBasin` | App.tsx:388-392 | choosing a basin clears the pending country and region, which disables the confirm button |
| `Shell.AppState.SelectPendingCountry` | App.tsx:406-409 | choosing a country clears the pending region; the confirm button is enabled exactly when a country was chosen |
| `Shell.AppState.SelectPendingRegion` | App.tsx:424 | the pending region is set |
| `Shell.AppState.StartAutoDetect` | App.tsx:98-99 | detection starts |
| `Shell.AppState.AutoDetectDone` | App.tsx:100-106 | the timer's callback selects `na`, `USA`, `Florida` as pending, ends detection and enables the confirm button |
| `Shell.AppState.ConfirmClicked` | App.tsx:433-436 | a click while the confirm button is disabled (no pending country) changes nothing; otherwise the pending location becomes the active one, with a non-empty country, and the picker closes |
| `Shell.AppState.ConfirmLocation` | App.tsx:66-114 | pending becomes active and the modal closes; when any of the three changed the data is reloaded and index, playback and district are reset, else they stay |
| `Shell.AppState.Activate` | App.tsx:109-114 | the three setters and the close, reporting whether the location changed |
| `Shell.AppState.Navigate` | App.tsx:450 | the agent's navigation changes only the active basin; a new basin reloads and resets, and an open picker re-syncs to the active basin, country and region; a closed picker keeps its pending location; the same basin changes neither the data, the centre, playback nor the selection |
| `Shell.AppState.EmptyBasinFooterThrows` | App.tsx:456-465 | with the timeline shown (not in compare mode), reloaded data of a basin other than `ni` and `na` makes the footer's status line throw |
| `Shell.AppState.Tick` | App.tsx:120-127 | the interval's update is `TickStep` on the current index and track length, and keeps the index on the track |
| `Shell.AppState.PlayToggle` | App.tsx:462 | playback flips |
| `Shell.AppState.Seek` | App.tsx:463 | the index becomes the sought one |
| `Shell.AppState.SelectDistrict` | App.tsx:216 | the selected district is set or cleared |
| `Shell.AppState.SetLayer` | App.tsx:302-322 | a layer check box sets its own switch and no other |
| `Shell.AppState.ToggleCompareMode` | App.tsx:166 | compare mode flips |
| `Shell.AppState.SetOverlays` | App.tsx:177-185 | the dashboard and carbon tracker overlays open and close |
| `Constants.FirstForecast` | constants.ts:164 | the first forecast fix of a track, or -1 when there is none |
| `Constants.GenerateEnsemble` | constants.ts:159-172 | exactly 100 members with ids 0..99, each path as long as the base track, every observed fix copied unchanged |
| `Constants.ShiftAll` | constants.ts:198-199 | every coordinate is shifted, lengths kept |
| `Constants.ShiftTrack` | constants.ts:201 | every fix is shifted, length kept |
| `Constants.ShiftZones` | constants.ts:212 | every flood zone is shifted, length kept |
| `Constants.ShiftShelters` | constants.ts:213 | every shelter is renamed and shifted, length kept |
| `Constants.ShiftPlants` | constants.ts:214 | every plant is renamed and shifted, length kept |
| `Constants.ShiftRoutes` | constants.ts:215 | every route is shifted, length kept |
| `Constants.SheltersFor` | constants.ts:190-213 | both `ni` and `na` have three shelters |
| `Constants.NorthIndianIsBase` | constants.ts:179-190 | `ni` returns the base tables unchanged and the load-time ensemble |
| `Constants.GetSimulationData` | constants.ts:178-231 | the districts and shelters of the built data are the ones the agent's tools read for that basin; for `ni` and `na` the ensemble has 100 members and the track the 15 fixes of the base track |
| `Constants.NorthAtlanticIsShifted` | constants.ts:193-218 | `na` adds 13 to every latitude and -160 to every longitude, including every flood-zone vertex and every route path point; it keeps every other field of fixes, zones, shelters, plants and routes and every list's length; it has four Florida districts and no earthquakes |
| `Constants.OtherBasinsAreEmpty` | constants.ts:220-230 | any other basin id yields all eight lists empty |
| `Constants.EnsembleShape` | constants.ts:162-205 | for `ni` and `na` the ensemble has 100 members with the track's length, copying its observed fixes |
| `Constants.ForecastIsSuffix` | constants.ts:79-103 | the base track has 15 fixes, the first 7 observed and the last 8 forecast |
| `Constants.RegionsHaveCentres` | constants.ts:19-75 | every listed country and each of its regions has a centre |
| `Constants.RegionNamesNonEmpty` | constants.ts:19-27 | no listed region name is empty |
| `Constants.SheltersNonEmpty` | constants.ts:134-138 | `ni` and `na` data have three shelters, so `shelters[0]` in the shelter tool exists |
| `Constants.RenameFirstOnly` | constants.ts:213-214 | two chained first-match replacements where only the first pattern occurs, at the start |
| `Constants.RenameSecondOnly` | constants.ts:213-214 | two chained replacements where only the second pattern occurs, at the start |
| `Constants.RenameNeither` | constants.ts:213-214 | two chained replacements where neither pattern occurs leave the name |
| `Constants.ChennaiHallRenamed` | constants.ts:213 | `Chennai Corp. Community Hall` becomes `Miami Corp. Community Hall` |
| `Constants.MahabalipuramSchoolRenamed` | constants.ts:213 | `Mahabalipuram Govt School` becomes `Fort Lauderdale Govt School` |
| `Constants.KalpakkamBunkerKept` | constants.ts:213 | `Kalpakkam Safety Bunker` is kept |
| `Constants.NorthChennaiRenamed` | constants.ts:214 | `North Chennai Thermal` becomes `Turkey Point Nuclear Thermal` |
| `Constants.MadrasAtomicKept` | constants.ts:214 | `MAPS (Madras Atomic)` is kept |
| `Constants.NeyveliRenamed` | constants.ts:214 | `Neyveli Lignite Corp` becomes `Port St. Lucie Lignite Corp` |
| `Constants.FloridaNames` | constants.ts:213-214 | the Florida shelter and plant names |
| `Constants.FloridaShelterNames` | constants.ts:213 | the Florida shelter names |
| `Constants.FloridaPlantNames` | constants.ts:214 | the Florida plant names |
| `Constants.DataBesidesEnsembleIsDeterministic` | constants.ts:178-231 | track, districts and shelters do not depend on the random noise |
| `Timeline.MarkerColour` | components/TimelineControl.tsx:118-120 | a marker is red exactly when the category contains `Severe`, yellow exactly when it contains `Deep Depression` but not `Severe`, else slate |
| `Timeline.BadgeColour` | components/TimelineControl.tsx:48-51 | the badge is red exactly when the category contains `Severe`, yellow exactly when it contains `Depression` but not `Severe`, else slate |
| `Timeline.ShowMarker` | components/TimelineControl.tsx:122 | a marker is always shown at the first and last fix, and in between exactly where the category differs from the previous fix |
| `Timeline.Markers` | components/TimelineControl.tsx:115-132 | a marker at index i exactly when i is first, last or its category differs from the previous fix; its colour is the marker rule |
| `Timeline.MarkerAndBadgeColours` | components/TimelineControl.tsx:48-119 | marker and badge agree on red; a yellow marker has a yellow badge; a `Depression` badge without `Deep Depression` goes with a slate marker |
| `Timeline.PlainDepressionColours` | components/TimelineControl.tsx:48-119 | the plain category `Depression` gets a yellow badge and a slate marker |
| `Timeline.StatusAsWritten` | components/TimelineControl.tsx:16-51 | the status line renders exactly when the index is on the track, and throws otherwise |
| `Timeline.EmptyBasinStatusThrows` | components/TimelineControl.tsx:16-45 | for every basin other than `ni` and `na` the status line throws at index 0 |
| `Timeline.CurrentStatus` | components/TimelineControl.tsx:16-51 | the checked status line: nothing without a current fix, the fix's status and badge otherwise |
| `Timeline.CurrentStatusAgrees` | components/TimelineControl.tsx:16-51 | the checked line shows exactly what the written one shows wherever the written one renders |
| `Timeline.HoverIndex` | components/TimelineControl.tsx:20-26 | on a non-empty track the hover index lies in [0, len-1]; the pointer at or left of the slider's start hovers fix 0, at or right of its end the last fix |
| `Timeline.HoverMonotone` | components/TimelineControl.tsx:20-26 | on a non-empty track, moving the pointer right never hovers an earlier fix |
| `Timeline.MouseMove` | components/TimelineControl.tsx:20-26 | moving sets a hover index on the track |
| `Timeline.MouseLeave` | components/TimelineControl.tsx:28-30 | leaving the slider clears the hover index, so no fix is hovered |
| `Timeline.SliderRange` | components/TimelineControl.tsx:107-108 | the slider runs from 0 to len-1 |
| `Timeline.SeekIndex` | components/TimelineControl.tsx:110 | `parseInt` of the range input's value: the decimal text of a whole number k seeks to k |
| `Timeline.SeekRoundTrip` | components/TimelineControl.tsx:105-110 | every slider position's text parses back to that position, which is a fix of the track |
| `MapLayers.SliceBound` | components/LeafletMap.tsx:186-187 | `slice` bounds are clamped into [0, len] |
| `MapLayers.JsSlice` | components/LeafletMap.tsx:186-187 | `slice` agrees with the plain subsequence for in-range bounds and an end past the length |
| `MapLayers.Points` | components/LeafletMap.tsx:190-198 | one point per fix, in order |
| `MapLayers.RiskColourOf` | components/LeafletMap.tsx:286-288 | a district is red exactly above 8, green exactly at or below 5, yellow in between |
| `MapLayers.RiskColourMonotone` | components/LeafletMap.tsx:286-288 | the district colour never falls as the score rises; 5 is still green and 8 still yellow |
| `MapLayers.Circle` | components/LeafletMap.tsx:284-306 | the circle's colour is the score band, radius 40000 and opacity 0.4 in heatmap mode else 20000 and 0.2, tooltip permanent exactly in impact mode |
| `MapLayers.Map` | components/LeafletMap.tsx:174-285 | `forEach` adds one layer per item in order |
| `MapLayers.Connectors` | components/LeafletMap.tsx:136-148 | one connector per index present in both the legacy and the observed track |
| `MapLayers.CompareLayers` | components/LeafletMap.tsx:106-155 | the benchmark drawing is the observed, legacy and model lines, then one error connector per index both tracks share, and nothing but lines |
| `MapLayers.TrackLayers` | components/LeafletMap.tsx:185-203 | the track step draws at most a past and a future line: none for an empty track, `track[..i+1]` and `track[i..]` for an index on the track |
| `MapLayers.CurrentLayers` | components/LeafletMap.tsx:205-224 | one cyclone marker carrying the current fix's position, category, wind and pressure exactly when the index is on the track |
| `MapLayers.Layers` | components/LeafletMap.tsx:100-309 | compare mode draws 11 lines and nothing else; otherwise the district circles, one per district in order, are the last layers drawn |
| `MapLayers.Of` | components/LeafletMap.tsx:100-309 | the layers of one kind are no more than all layers |
| `MapLayers.OfConcat` | components/LeafletMap.tsx:100-309 | the layers of a kind in a concatenation are those of each part |
| `MapLayers.OfAll` | components/LeafletMap.tsx:100-309 | selecting the one kind all layers share keeps them all |
| `MapLayers.OfNone` | components/LeafletMap.tsx:100-309 | selecting a kind no layer has gives nothing |
| `MapLayers.CompareShape` | components/LeafletMap.tsx:106-155 | compare mode draws the observed, legacy and model polylines and then one connector per shared index |
| `MapLayers.BenchmarkLengths` | constants.ts:105-115 | the observed and legacy benchmark tracks both have 8 points |
| `MapLayers.CompareModeOnly` | components/LeafletMap.tsx:106-155 | in compare mode the effect returns after 11 polylines and adds no standard layer |
| `MapLayers.JoinedByKind` | components/LeafletMap.tsx:157-307 | the layers of each kind in the standard drawing are those of its own step |
| `MapLayers.PartsOfWellKinded` | components/LeafletMap.tsx:157-307 | each standard step draws layers of its own kind only |
| `MapLayers.GatedKinds` | components/LeafletMap.tsx:160-272 | a switched group has only its own kind |
| `MapLayers.TrackKinds` | components/LeafletMap.tsx:185-203 | the track step draws only past and future lines |
| `MapLayers.CurrentKinds` | components/LeafletMap.tsx:205-224 | the current step draws only the cyclone marker |
| `MapLayers.StandardLayersByKind` | components/LeafletMap.tsx:157-307 | outside compare mode, the layers of each kind are exactly that step's |
| `MapLayers.OfNine` | components/LeafletMap.tsx:157-307 | selecting a kind distributes over the nine standard steps |
| `MapLayers.OfOneKind` | components/LeafletMap.tsx:157-307 | a step of one kind contributes all of its layers to that kind and none to others |
| `MapLayers.PastAndFutureOverlap` | components/LeafletMap.tsx:185-203 | for an index on the track, past is `track[..i+1]`, future is `track[i..]`, they share exactly `track[i]`, and both lines are drawn |
| `MapLayers.CurrentMarkerIffOnTrack` | components/LeafletMap.tsx:205-224 | one cyclone marker at the current fix exactly when the index is on the track, none otherwise |
| `MapLayers.SwitchesGateLayers` | components/LeafletMap.tsx:159-307 | flood, ensemble, earthquake, shelter, plant and route layers appear, one per item, only when their switch is on; district circles are always drawn |
| `MapLayers.LayerGroup.constructor` | components/LeafletMap.tsx:55-68 | the layer group starts unattached and empty |
| `MapLayers.LayerGroup.Init` | components/LeafletMap.tsx:55-68 | mounting creates the map and an empty layer group |
| `MapLayers.LayerGroup.Clear` | components/LeafletMap.tsx:104 | clearing empties the group |
| `MapLayers.LayerGroup.AddEach` | components/LeafletMap.tsx:174-285 | the loop appends one layer per item in order |
| `MapLayers.LayerGroup.AddConnectors` | components/LeafletMap.tsx:136-148 | the loop appends the connectors |
| `MapLayers.LayerGroup.AddGated` | components/LeafletMap.tsx:160-272 | a switched group appends its layers only when on |
| `MapLayers.LayerGroup.AddCompare` | components/LeafletMap.tsx:106-155 | the compare drawing appends the three lines and the connectors |
| `MapLayers.LayerGroup.AddTrackLine` | components/LeafletMap.tsx:189-203 | a track slice is drawn only when non-empty |
| `MapLayers.LayerGroup.AddTrack` | components/LeafletMap.tsx:185-203 | appends the past and future lines |
| `MapLayers.LayerGroup.AddCurrent` | components/LeafletMap.tsx:205-224 | appends the marker when the current fix exists |
| `MapLayers.LayerGroup.AddStandard` | components/LeafletMap.tsx:157-307 | appends the nine standard steps in order |
| `MapLayers.LayerGroup.UpdateLayers` | components/LeafletMap.tsx:100-309 | without a map nothing changes; otherwise the group is cleared and then holds exactly the layers chosen for the props |
| `MapLayers.ConnectorsStep` | components/LeafletMap.tsx:136-148 | one more legacy index adds a connector exactly when that index is present in the observed track |
| `Text.IndexOf` | constants.ts:213-214 | the first occurrence of a pattern, or -1 when there is none |
| `Text.ContainsIff` | services/geminiService.ts:188 | `includes` holds exactly when the pattern occurs somewhere |
| `Text.ContainsPiece` | components/TimelineControl.tsx:50-119 | a string containing a pattern contains every piece of it |
| `Text.MissingCharNotContained` | components/TimelineControl.tsx:49-119 | a pattern with a character the string lacks is not contained |
| `Text.ReplaceFirstSpec` | constants.ts:213-214 | `replace` with a string pattern replaces exactly the first occurrence, or returns the string when there is none |
| `Text.ReplaceAtStart` | constants.ts:213-214 | a pattern at the start is replaced there |
| `Text.ReplaceAbsent` | constants.ts:213-214 | a pattern that cannot occur leaves the string |
| `Text.ToLower` | services/geminiService.ts:188-193 | ASCII lower-casing (see Left out): keeps the length and leaves no ASCII capital |
| `Text.ToUpper` | services/geminiService.ts:180 | ASCII upper-casing (see Left out): keeps the length and leaves no ASCII small letter |
| `Text.ToLowerIdempotent` | services/geminiService.ts:193 | lower-casing twice is lower-casing once |
| `Text.TrimStart` | components/AgentInterface.tsx:35 | leading whitespace is removed and no more |
| `Text.TrimEnd` | components/AgentInterface.tsx:35 | trailing whitespace is removed and no more |
| `Text.TrimEmptyIffBlank` | components/AgentInterface.tsx:35 | `trim()` is empty exactly when the text is whitespace only |
| `Text.ParseNatText` | components/TimelineControl.tsx:110 | `parseInt` of a whole number's decimal text gives the number back |
| `Text.IntText` | services/geminiService.ts:195 | an integer's text is its digits, with a minus sign when negative |
| `Text.Fixed1` | services/geminiService.ts:195 | `toFixed(1)` has one digit after the point and a sign exactly for negatives |
| `Text.Tenths` | services/geminiService.ts:195 | the number of tenths `toFixed(1)` renders is the one nearest the magnitude, the larger on a tie |
| `Text.TenthsTextDigits` | services/geminiService.ts:195 | a count of tenths written with one decimal reads back, without the point, as that count |
| `Text.Fixed1Nearest` | services/geminiService.ts:195 | the digits of `toFixed(1)`, without the sign and the point, count the tenths nearest the magnitude, the larger on a tie |
| `Text.NumberText` | services/geminiService.ts:195 | `String(x)` of a whole number is its integer text; the text opens with a minus sign exactly for negatives (see Left out) |
| `Text.RenderedNumbers` | services/geminiService.ts:195-209 | sample renderings of scores, populations and capacities |

## Left out

- The remote model service (`generateContent`, `chats.create`, `sendMessage`, `getHistory`) is an oracle, `ChatScript`. `getHistory` is assumed not to throw; its result is given in the script.
- The `analyzeRisk` prompt text and the exact tool-log details text beyond the tool name are not modelled.
- Tool arguments are strings: a call carries either no arguments object or one whose entries are strings; a non-string argument (a number, a list) is not modelled.
- `Date.now` latencies, `Math.random` log ids and timestamps are parameters. `randn_bm` and its `while` loops are the `Noise` parameter, so the Gaussian values of ensemble points are opaque.
- The JavaScript number formatting (`Number#toString`, `toFixed`) is modelled on reals with a bounded number of decimal digits, not on binary floating point.
- Browser speech: `speechSynthesis` and `webkitSpeechRecognition` are traces (`spoken`, `cancels`, `recognitionStarts`) and two callbacks; the recognised transcript re-enters `HandleSend` like typed text.
- Timers: the auto-detect `setTimeout` and the playback `setInterval` are the methods `AutoDetectDone` and `Tick`, called explicitly.
- Asynchrony: a send is split into `BeginSend` and `CompleteSend` around the awaited turn. Only the interleavings of two sends are stated (`Chat.OverlappingSendsLoseOneReply`, both completion orders); other interleavings with timers and effects are not.
- The automatic scroll of the transcript and the typing indicator are presentational and left out.
- Leaflet rendering: tiles, `flyTo`, `fitBounds`, icons, tooltip styling, colours as CSS and the click handler of a district circle are left out; only the choice of layers is modelled.
- The timeline's progress percentage, the marker positions and date formatting are left out.
- The NDMA dashboard, the analytics panel and the carbon tracker are presentational and only appear as the overlay switches.
- `Shell.AppState` holds `GetSimulationData` and `CenterFor` as the constant function fields `load` and `centre`, which the constructor fixes to those functions; this only keeps the verification of the state methods small.
- `viewMode` is state of the shell that no handler changes; the map functions take any view mode.
- The comment at constants.ts:194 says the Florida shift adds 12 to the latitude; the code adds 13.0, and the model follows the code.
- Text.ToLower: maps only the ASCII capitals A-Z; JavaScript's `toLowerCase` maps every Unicode letter, so a country or city with non-ASCII capitals is compared unchanged here.
- Text.ToUpper: maps only the ASCII small letters a-z and keeps the length; JavaScript's `toUpperCase` maps every Unicode letter and can lengthen the text (`ß` becomes `SS`), so a basin id with such letters is acknowledged differently.
- Chat.ChatPanel.HandleSend: its contract has no branch for the `catch` of the panel, because the modelled agent turn never throws; `CompleteSend` with no reply states that path.
- Timeline.HoverIndex: requires a positive slider width; a zero width gives NaN in JavaScript, which is not modelled. Between the two ends the contract and `Timeline.HoverMonotone` state the range, the end points and monotonicity, not the exact rounded index.
- Text.NumberText: the contract covers whole numbers and the sign; a fractional rendering is stated only by the examples in `Text.RenderedNumbers`.
- Timeline.SeekIndex: takes digit strings only, which is what a range input delivers; other `parseInt` inputs are not modelled.
- MapLayers.Of: its own contract is only a length bound; what it selects is stated by the lemmas about it.

## Findings

| source | as written | input that shows it | evidently intended | confidence | as-written member | corrected member |
|---|---|---|---|---|---|---|
| components/TimelineControl.tsx:16-51 | the status line reads `track[currentIndex]` and its `timestamp` without checking that the fix exists | confirming any basin other than `ni` and `na` (say `ep`) while not in compare mode: its track is empty and the index is reset to 0, so rendering throws | show no status line when there is no current fix | not executed | `Timeline.StatusAsWritten`, `Timeline.EmptyBasinStatusThrows` | `Timeline.CurrentStatus`, `Timeline.CurrentStatusAgrees` |
