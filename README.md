# OutSystems Maps: the provider-independent core, in Dafny

This project models the bookkeeping that the OutSystems Maps component keeps around the
Google Maps and Leaflet SDKs, and proves properties of that model. It covers these parts:

- **The page-level registries.** `MapManager` keeps the maps by unique id, in insertion
  order, with the active map. `MarkerManager` keeps the markers in creation order, with the
  marker-to-map table. Both resolve an id first as a unique id and then as a widget id
  (`equalsToID`).
- **The pending-event table** of `FileLayerManager.Events`. Handlers registered for an entity
  that does not exist yet wait there, are flushed into the entity when it appears, and can be
  unsubscribed while they wait.
- **The marker's life cycle.** It covers build, finishBuild and dispose, the configuration
  that `changeProperty` updates or refuses with an error report, and `equalsToID` and
  `index`.
- **The map event channel**, whose `trigger` calls a snapshot of its handlers.
- **The Google shape layer.**
  - Property forwarding to the Google object, and event routing into `_addedEvents`.
  - The 500 ms debounce of shape-changed notifications.
  - `_buildProvider`.
  - For polygons and polylines, the validation of locations and the reassembly of
    asynchronously geocoded coordinates in index order.
- **The Leaflet drawing-tools control.** The tools record, the position lookup with its
  fallback, the single completion listener, and adding and removing tools.
- **The Google map.** The `changeProperty` switch, marker delegation, `addMarker` and
  `dispose`.
- **The Google features.** `Directions` covers the enabled flag and renderer, the request
  waypoints, and the leg, distance and duration folds. `Zoom` covers the autofit flag and the
  three-way refresh rule.
- **The `getProviderConfig` projections** of five configuration records, which rename fields
  and then delete the keys that are undefined.
- **The closed table of error codes** `MAPS-<CAT>-<NNNNN>`.

## How the model is built

- **SDK objects.** Google and Leaflet objects are a key/value store, or a few flags, plus the
  sequence of calls made on them. These are the `*Call` datatypes.
- **Entities outside the core.** The base map, the base shape and the event managers appear
  as identities (`Common.Identity`). The calls made on them are returned as call sequences.
- **Asynchrony.** Each asynchronous outcome is an explicit parameter:
  - how each geocoding settles, and the order in which they complete (a permutation);
  - how the coordinates promise settles;
  - the directions service's answer;
  - the instants at which the clock reaches a pending timeout.
- **DOM lookups** are oracle parameters: the widget id found around an element, and the map
  id found from the DOM.
- **Exceptions.** A thrown exception is the `Threw` case of `Common.Result`.
- **Error reports.** An error raised on the map through `ThrowError` / `OnError` is a
  `Report(code, message)` in a returned sequence.

Each core file is a module: `map_manager.dfy`, `marker_manager.dfy`, `file_layer_events.dfy`,
`marker.dfy`, `map_event.dfy`, `provider_shape.dfy`, `polyshape.dfy`, `drawing_tools.dfy`,
`google_map.dfy`, `directions.dfy`, `zoom.dfy`, `configs.dfy` (one module per configuration
record) and `error_codes.dfy`. `common.dfy` holds the shared values and sequence helpers.

The core's state-changing objects are Dafny classes, with `modifies` on their methods:
MapManager, MarkerManager, PendingEvents, Marker, MapEvent, Shape, Polyshape, DrawingTools,
GoogleMap, Directions and Zoom. Loops in the source are `while` loops with invariants, each
proved against a specification function:

- the id search of `GetMapById`;
- the `findIndex` of the marker array;
- the flush over the pending keys;
- the deletion of undefined keys;
- `_getTools`;
- the splicing `forEach` of `_resetShapeEvents`;
- the handler routing of `_setShapeEvents`;
- the completion loop of `_buildPath`;
- the bounds loop of `refreshZoom`;
- the handler snapshot of `trigger`.

## Model

| member | source | states |
|---|---|---|
| Common.IndexOf | code/src/OSFramework/Marker/AbstractMarker.ts:41-45 | `findIndex` by equality: -1 exactly when the value is absent, otherwise the first position holding it |
| Common.FirstMatch | code/src/OutSystems/Maps/MapAPI/MarkerManager.ts:159-161 | the first entity that answers to the id (unique id or widget id), none before it answering, or -1 when none does |
| Common.FirstMatchAppend | code/src/OutSystems/Maps/MapAPI/MarkerManager.ts:159-161 | an entity appended after entities none of which answers to the id is the one found |
| Common.RemoveAt | code/src/OutSystems/Maps/MapAPI/MarkerManager.ts:193-198 | `splice(i, 1)`: one element shorter, the elements before i unchanged, the ones after shifted down by one |
| Common.RemoveAtTakesOne | code/src/OutSystems/Maps/MapAPI/MarkerManager.ts:193-198 | the splice takes out exactly the element at i (as multisets) |
| Common.RemoveAtDistinct | code/src/OutSystems/Maps/MapAPI/MapManager.ts:149-153 | deleting from a repetition-free key list removes exactly that key and keeps the last key last unless it was the one deleted |
| MapManager.Values | code/src/OutSystems/Maps/MapAPI/MapManager.ts:104 | `maps.values()` yields the stored maps in key insertion order |
| MapManager.Lookup | code/src/OutSystems/Maps/MapAPI/MapManager.ts:99-110 | the entry under the id when it is a key; otherwise the first map in insertion order whose `equalsToID` holds; none only when no map answers |
| MapManager.Found | code/src/OutSystems/Maps/MapAPI/MapManager.ts:112-116 | a missing map throws "not found" exactly when `raiseError` holds, and is returned as undefined otherwise |
| MapManager.FoundIsRegistered | code/src/OutSystems/Maps/MapAPI/MapManager.ts:99-110 | a map that a lookup finds is registered under its own unique id |
| MapManager.DeleteKey | code/src/OutSystems/Maps/MapAPI/MapManager.ts:149-153 | deleting a key leaves the other keys in insertion order, so the last remaining key is the most recent map |
| MapManager.MapManager.constructor | code/src/OutSystems/Maps/MapAPI/MapManager.ts:3-4 | no maps and no active map |
| MapManager.MapManager.GetMapById | code/src/OutSystems/Maps/MapAPI/MapManager.ts:93-117 | the loop over `maps.values()` returns exactly what `Lookup` and `Found` specify |
| MapManager.MapManager.GetActiveMap | code/src/OutSystems/Maps/MapAPI/MapManager.ts:67-69 | undefined exactly when no map is registered, otherwise the most recently created map still registered |
| MapManager.MapManager.CreateMap | code/src/OutSystems/Maps/MapAPI/MapManager.ts:34-59 | a taken id throws and changes nothing (no flush); otherwise the map is stored under the id, becomes active, and then the handlers pending under its id are flushed and their keys dropped, the other entities' pending handlers staying as they were |
| MapManager.MapManager.ChangeProperty | code/src/OutSystems/Maps/MapAPI/MapManager.ts:14-23 | the lookup error for an unknown id before any map is touched, otherwise one `changeProperty` on the map found |
| MapManager.MapManager.GetAllMarkers | code/src/OutSystems/Maps/MapAPI/MapManager.ts:77-83 | the lookup error, or the map whose markers are returned |
| MapManager.MapManager.RemoveMarkers | code/src/OutSystems/Maps/MapAPI/MapManager.ts:165-169 | the lookup error, or one `removeAllMarkers` on the map found |
| MapManager.MapManager.RemoveFileLayers | code/src/OutSystems/Maps/MapAPI/MapManager.ts:177-181 | the lookup error, or one `removeAllFileLayers` on the map found |
| MapManager.MapManager.InitializeMap | code/src/OutSystems/Maps/MapAPI/MapManager.ts:133-138 | the lookup error before anything happens; otherwise `build` comes before the flush of the handlers pending under the map's id or the widget id its build found, whose keys are then dropped while the other pending handlers stay as they were, and the registry is unchanged |
| MapManager.MapManager.RemoveMap | code/src/OutSystems/Maps/MapAPI/MapManager.ts:146-157 | the lookup error, or: the key of the map's unique id is deleted (even when named by widget id), other entries untouched, the active map becomes the last remaining map only when it was the one removed, then the map is disposed |
| MapManager.CreateThenRemove | code/src/OutSystems/Maps/MapAPI/MapManager.ts:34-59 | creating a map under a fresh id and removing it by that id restores the table, the key order and the active map |
| MarkerManager.Idents | code/src/OSFramework/Marker/AbstractMarker.ts:105-107 | the identities the id lookups compare against, marker by marker |
| MarkerManager.MarkerManager.constructor | code/src/OutSystems/Maps/MapAPI/MarkerManager.ts:3-4 | empty marker table and array |
| MarkerManager.MarkerManager.Position | code/src/OutSystems/Maps/MapAPI/MarkerManager.ts:159-161 | the position of the first marker that answers to the id, or -1 |
| MarkerManager.MarkerManager.IndexById | code/src/OutSystems/Maps/MapAPI/MarkerManager.ts:193-196 | the `findIndex` loop returns that first position |
| MarkerManager.MarkerManager.GetMarkerById | code/src/OutSystems/Maps/MapAPI/MarkerManager.ts:155-168 | the first marker in creation order whose `equalsToID` holds; with none, it throws when `raiseError` holds and returns undefined otherwise |
| MarkerManager.MarkerManager.GetMapByMarkerId | code/src/OutSystems/Maps/MapAPI/MarkerManager.ts:125-149 | through the table without raising when the id is a key; otherwise through the map id found in the DOM, with raising; undefined when the DOM has no element |
| MarkerManager.MarkerManager.CreateMarker | code/src/OutSystems/Maps/MapAPI/MarkerManager.ts:58-81 | an unknown map or a taken marker id throws and changes nothing; otherwise exactly one new marker is appended, the id is recorded against the map's unique id, and the marker goes to the map |
| MarkerManager.MarkerManager.CreateMarkerByUniqueID | code/src/OutSystems/Maps/MapAPI/MarkerManager.ts:91-115 | the map is the one the marker table names (looked up without raising), else the one the DOM names (raising "not found"); no map found through the table, or no DOM element, dereferences undefined; a map that has the marker throws; otherwise the marker is created on that map with the given configuration, takes the widget id its build finds (none when the map is not ready and the build is deferred), is appended and recorded against the map, and the handlers pending under its unique id or that widget id are flushed and their keys dropped, the other pending handlers staying as they were; a failure changes nothing |
| MarkerManager.MarkerManager.RemoveMarker | code/src/OutSystems/Maps/MapAPI/MarkerManager.ts:187-199 | an unknown id throws before any change; otherwise the map drops the marker, the table entry under the id argument is deleted, and exactly the first matching marker leaves the array, the rest keeping their order |
| MarkerManager.MarkerManager.ChangeProperty | code/src/OutSystems/Maps/MapAPI/MarkerManager.ts:14-26 | the lookup error, or the change handed to the marker's map |
| MarkerManager.MarkerManager.OpenPopup | code/src/OutSystems/Maps/MapAPI/MarkerManager.ts:174-179 | the lookup error; no call when the marker has no popup; one `openPopup` otherwise |
| MarkerManager.MarkerManager.ClosePopup | code/src/OutSystems/Maps/MapAPI/MarkerManager.ts:32-37 | the lookup error; no call when the marker has no popup; one `closePopup` otherwise |
| MarkerManager.MarkerManager.RefreshPopup | code/src/OutSystems/Maps/MapAPI/MarkerManager.ts:43-48 | the lookup error; no call when the marker has no popup; one `refreshPopupContent` otherwise |
| MarkerManager.CreateFindRemove | code/src/OutSystems/Maps/MapAPI/MarkerManager.ts:58-81 | a marker created under an id no marker answers to is what `GetMarkerById` then finds, and removing it restores the array |
| FileLayerEvents.Attachments | code/src/MapAPI/FileLayerManager.Events.ts:32-34 | one `addHandler` per buffered entry, in buffered order |
| FileLayerEvents.Unmatched | code/src/MapAPI/FileLayerManager.Events.ts:30-38 | the keys a flush leaves: never more than there were |
| FileLayerEvents.UnmatchedMembers | code/src/MapAPI/FileLayerManager.Events.ts:31 | a key is kept exactly when the entity does not answer to it |
| FileLayerEvents.RefreshOncePerMatchedKey | code/src/MapAPI/FileLayerManager.Events.ts:35 | `refreshProviderEvents` runs exactly once per key the entity answers to, so never when none matches |
| FileLayerEvents.FlushOfUnmatchedIsEmpty | code/src/MapAPI/FileLayerManager.Events.ts:31 | a flush over keys the entity does not answer to makes no call |
| FileLayerEvents.UnmatchedDistinct | code/src/MapAPI/FileLayerManager.Events.ts:30-38 | the kept keys are still free of repetitions |
| FileLayerEvents.Flush | code/src/MapAPI/FileLayerManager.Events.ts:30-39 | the loop over the keys produces the specified calls, keeps exactly the unmatched keys, and leaves the other entries unchanged |
| FileLayerEvents.FlushLeavesValid | code/src/MapAPI/FileLayerManager.Events.ts:36-37 | the table left holds exactly the entries whose key the entity does not answer to |
| FileLayerEvents.PendingEvents.constructor | code/src/MapAPI/FileLayerManager.Events.ts:26-40 | an empty table |
| FileLayerEvents.PendingEvents.CheckPendingEvents | code/src/MapAPI/FileLayerManager.Events.ts:26-40 | every matched key's handlers are attached in buffered order, then the key is deleted; unmatched keys are untouched |
| FileLayerEvents.PendingEvents.Unsubscribe | code/src/MapAPI/FileLayerManager.Events.ts:69-95 | an existing layer loses the handler and is refreshed, and the table is untouched; otherwise only the first entry matching both event and callback is removed, and a list left empty stays under its key |
| FileLayerEvents.PendingEvents.Defer | code/src/MapAPI/FileLayerManager.Events.ts:115-128 | the buffering branch, which is commented out in the source: a subscription for a missing entity is appended to its id's list, or starts a new list at the end of the keys |
| FileLayerEvents.RemovePending | code/src/MapAPI/FileLayerManager.Events.ts:81-92 | removes the first occurrence of the entry under the id and nothing else; no key is added or removed |
| FileLayerEvents.Subscribe | code/src/MapAPI/FileLayerManager.Events.ts:51-59 | an unknown layer throws; otherwise the handler is attached and the layer refreshed, and the pending table is never written |
| FileLayerEvents.SecondFlushAttachesNothing | code/src/MapAPI/FileLayerManager.Events.ts:36-37 | after a flush, a second flush for the same entity makes no call |
| Marker.Marker.constructor | code/src/OSFramework/Marker/AbstractMarker.ts:21-32 | stores the map, the unique id and the configuration; no widget id; not ready |
| Marker.Marker.Ident | code/src/OSFramework/Marker/AbstractMarker.ts:58-63 | the unique id and widget id that id lookups see |
| Marker.Marker.EqualsToID | code/src/OSFramework/Marker/AbstractMarker.ts:105-107 | holds exactly for the unique id or the widget id; before a widget id is known, only for the unique id |
| Marker.Marker.Index | code/src/OSFramework/Marker/AbstractMarker.ts:41-45 | the position of the first marker of the map's list with this unique id, or -1 when there is none |
| Marker.Marker.Build | code/src/OSFramework/Marker/AbstractMarker.ts:75-84 | a built marker returns at once, keeping its widget id; otherwise the widget id is the one found in the DOM |
| Marker.Marker.FinishBuild | code/src/OSFramework/Marker/AbstractMarker.ts:65-73 | ready, one Initialized trigger, and a place in the clusterer exactly when the map has one |
| Marker.Marker.ChangeProperty | code/src/OSFramework/Marker/AbstractMarker.ts:87-99 | a key the configuration owns is overwritten alone; any other key leaves the configuration as it was and raises GEN_InvalidChangePropertyMarker on the map with the property name |
| Marker.Marker.Dispose | code/src/OSFramework/Marker/AbstractMarker.ts:101-103 | only the ready flag is cleared |
| Marker.Lifecycle | code/src/OSFramework/Marker/AbstractMarker.ts:30-103 | a constructed marker is not ready, is ready after finishBuild, keeps the widget id it found when built again while ready, is not ready after dispose, and a later build takes the new widget id |
| MapEvent.QuietDispatchKeepsList | code/src/OSFramework/Event/OSMap/AbstractMapEvent.ts:19 | trigger itself never adds or removes handlers |
| MapEvent.MapEvent.constructor | code/src/OSFramework/Event/OSMap/AbstractMapEvent.ts:11-12 | no handlers |
| MapEvent.MapEvent.Trigger | code/src/OSFramework/Event/OSMap/AbstractMapEvent.ts:14-20 | every handler present at the call runs exactly once, in list order, with the map id first and then the arguments; edits made by handlers change the list, not the dispatch |
| ProviderShape.ListenersFor | code/src/Providers/Google/Shape/AbstractProviderShape.ts:80-149 | each provider-event handler goes to exactly one route: shape_changed listens, debounced, to every path event; special events listen on the path; the rest listen on the Google object; other handlers get no listener |
| ProviderShape.AddedNamesMembers | code/src/Providers/Google/Shape/AbstractProviderShape.ts:89-139 | a name is recorded in `_addedEvents` exactly when a provider-event handler carries it |
| ProviderShape.AddedNamesOnce | code/src/Providers/Google/Shape/AbstractProviderShape.ts:75-152 | with the handler table keyed by name, each name is recorded once |
| ProviderShape.ClearCalls | code/src/Providers/Google/Shape/AbstractProviderShape.ts:14 | one `clearListeners` per name, in order, always on the Google object (`this.provider`) |
| ProviderShape.EvenPositions | code/src/Providers/Google/Shape/AbstractProviderShape.ts:13-16 | the entries the splicing `forEach` visits |
| ProviderShape.OddPositions | code/src/Providers/Google/Shape/AbstractProviderShape.ts:13-16 | the entries the splicing `forEach` skips and leaves behind |
| ProviderShape.ResetAsWrittenKeepsSecond | code/src/Providers/Google/Shape/AbstractProviderShape.ts:13-16 | with two or more recorded events, the second one survives the reset and its listeners are not cleared unless the name repeats at an even position |
| ProviderShape.Step | code/src/Providers/Google/Shape/AbstractProviderShape.ts:94-113 | a notification cancels any pending timeout and sets one 500 ms later; the clock fires the event exactly when a timeout is due, and then none is pending |
| ProviderShape.BurstKeepsPending | code/src/Providers/Google/Shape/AbstractProviderShape.ts:94-113 | notifications less than 500 ms apart never fire, and leave one timeout pending 500 ms after the last |
| ProviderShape.BurstFiresOnce | code/src/Providers/Google/Shape/AbstractProviderShape.ts:94-113 | such a burst fires the event once, 500 ms after the last notification |
| ProviderShape.SeparatedNotificationsFireTwice | code/src/Providers/Google/Shape/AbstractProviderShape.ts:94-113 | two notifications 500 ms or more apart fire twice |
| ProviderShape.ProviderKey | code/src/Providers/Google/Shape/AbstractProviderShape.ts:173-184 | exactly the five forwarded properties have a key: allowDrag as draggable, allowEdit as editable, the stroke properties under their own names |
| ProviderShape.SpliceInForEach | code/src/Providers/Google/Shape/AbstractProviderShape.ts:13-16 | the `forEach` whose callback splices at the visited index visits the even positions and leaves the odd ones |
| ProviderShape.ProviderListeners | code/src/Providers/Google/Shape/AbstractProviderShape.ts:75-152 | the handler loop records `AddedNames` and attaches `HandlerCalls` |
| ProviderShape.Shape.constructor | code/src/Providers/Google/Shape/AbstractProviderShape.ts:5-9 | not ready, no Google object, no recorded events, no pending timeout |
| ProviderShape.Shape.ResetShapeEventsAsWritten | code/src/Providers/Google/Shape/AbstractProviderShape.ts:11-17 | the reset as written: only even positions are cleared and the odd positions remain recorded |
| ProviderShape.Shape.ResetShapeEvents | code/src/Providers/Google/Shape/AbstractProviderShape.ts:11-17 | the reset as intended: every recorded event has its listeners on the Google object cleared, in order, and none stays recorded |
| ProviderShape.Shape.SetShapeEvents | code/src/Providers/Google/Shape/AbstractProviderShape.ts:54-153 | with the corrected reset: every recorded name cleared; a click listener exactly when OnClick has handlers and the object is clickable; then the routed listeners; `_addedEvents` becomes the recorded names |
| ProviderShape.Shape.NativeChange | code/src/Providers/Google/Shape/AbstractProviderShape.ts:93-114 | a native change notification moves the timer as `Step` says |
| ProviderShape.Shape.TimerElapsed | code/src/Providers/Google/Shape/AbstractProviderShape.ts:100-113 | the clock fires the shape-changed event exactly as `Step` says |
| ProviderShape.Shape.BuildProvider | code/src/Providers/Google/Shape/AbstractProviderShape.ts:20-52 | no promise, or one not settled: nothing; rejected: LIB_FailedGeocodingShapeLocations with the reason and no finishBuild; fulfilled: the object created with the path, then the events set with the corrected reset, then finishBuild |
| ProviderShape.Shape.ChangeProperty | code/src/Providers/Google/Shape/AbstractProviderShape.ts:169-186 | the base class first; then, only when ready, a forwarded property is set on the object under its key; anything else makes no object call |
| ProviderShape.Shape.SetProviderProp | code/src/Providers/Google/Shape/AbstractProviderShape.ts:175 | `provider.set(key, value)` changes that key only |
| ProviderShape.Shape.SetProviderPath | code/src/Providers/Google/Shape/AbstractPolyshape.ts:76-80 | the object's path becomes the given one |
| ProviderShape.Shape.Dispose | code/src/Providers/Google/Shape/AbstractProviderShape.ts:188-194 | detached from the map only when ready; the object is always dropped; the base dispose follows |
| ProviderShape.Shape.RefreshProviderEvents | code/src/Providers/Google/Shape/AbstractProviderShape.ts:196-198 | nothing when not ready; otherwise the events are set again, with the corrected reset |
| ProviderShape.RefreshTwice | code/src/Providers/Google/Shape/AbstractProviderShape.ts:54-153 | with the corrected reset and no OnClick handler, after two refreshes each event name is recorded once and the second refresh clears the names the first recorded; of the listeners attached, those on the Google object are there once and those on the listener object twice |
| ProviderShape.Shape.SetShapeEventsAsWritten | code/src/Providers/Google/Shape/AbstractProviderShape.ts:11-153 | with the reset as written: only the names at even positions are cleared, and those at odd positions stay recorded ahead of the newly pushed names |
| ProviderShape.RefreshTwiceAsWritten | code/src/Providers/Google/Shape/AbstractProviderShape.ts:11-153 | two refreshes as written, from an empty record, leave the odd positions of the first pass's names ahead of the new ones; with two or more provider events a name is then recorded twice |
| ProviderShape.AsWrittenRefreshRepeats | code/src/Providers/Google/Shape/AbstractProviderShape.ts:11-153 | with two or more names recorded, a refresh as written leaves a record with a repeated name |
| ProviderShape.On | code/src/Providers/Google/Shape/AbstractProviderShape.ts:54-153 | the listeners that hang on one object: the Google object (`this.provider`) or the listener object (`providerObjectListener`) |
| ProviderShape.Cleared | code/src/Providers/Google/Shape/AbstractProviderShape.ts:14 | `clearListeners(target, event)` removes exactly the listeners on that target for that event |
| ProviderShape.ClearsKeepListenerObject | code/src/Providers/Google/Shape/AbstractProviderShape.ts:11-17 | the reset clears on the Google object only, so every listener on the listener object stays attached |
| ProviderShape.ClearsDropNamed | code/src/Providers/Google/Shape/AbstractProviderShape.ts:11-17 | a listener stays attached after the reset exactly when it was attached and is not a listener on the Google object for a cleared name |
| ProviderShape.HandlerCallsListen | code/src/Providers/Google/Shape/AbstractProviderShape.ts:75-152 | the handler loop only attaches listeners, and each it hangs on the Google object listens to a name it records |
| ProviderShape.RefreshKeepsListenerObject | code/src/Providers/Google/Shape/AbstractProviderShape.ts:54-153 | whatever names the reset clears, a set-events pass keeps the listener object's listeners and attaches its own there again |
| ProviderShape.TwoPassesDoubleListenerObject | code/src/Providers/Google/Shape/AbstractProviderShape.ts:54-153 | after two passes with no OnClick handler, each listener on the listener object is attached twice |
| ProviderShape.TwoPassesOnceOnProvider | code/src/Providers/Google/Shape/AbstractProviderShape.ts:54-153 | after two passes with no OnClick handler, each listener on the Google object is attached once |
| ProviderShape.ClickListenerTwice | code/src/Providers/Google/Shape/AbstractProviderShape.ts:54-70 | the click listener is never recorded, so no reset clears it: after two passes on a clickable Google object with an OnClick handler it is attached twice, unless a provider event named 'click' is recorded |
| ProviderShape.ClearsKeepCount | code/src/Providers/Google/Shape/AbstractProviderShape.ts:11-17 | the reset's clears keep every listener whose event they do not name, as many times as it was attached |
| Polyshape.ValidateLocations | code/src/Providers/Google/Shape/AbstractPolyshape.ts:62-74 | refused, with one report of the shape's invalid-locations code, exactly when the locations are empty or fewer than `minPath` |
| Polyshape.Started | code/src/Providers/Google/Shape/AbstractPolyshape.ts:25-33 | `every` geocodes exactly the locations before the first empty one |
| Polyshape.SortedPath | code/src/Providers/Google/Shape/AbstractPolyshape.ts:48-50 | the stored coordinates sorted by index: one per index, in index order |
| Polyshape.AllPositionsGeocoded | code/src/Providers/Google/Shape/AbstractPolyshape.ts:40-44 | once every completion succeeds, every index has its coordinates |
| Polyshape.SortedPathMatches | code/src/Providers/Google/Shape/AbstractPolyshape.ts:40-51 | the resolved path gives each location its own coordinates, whatever the completion order |
| Polyshape.FailureAmongStarted | code/src/Providers/Google/Shape/AbstractPolyshape.ts:35-54 | a failure among the completions is a failure among the locations geocoded, and back |
| Polyshape.StatusDone | code/src/Providers/Google/Shape/AbstractPolyshape.ts:39-54 | once all completions have run, the promise has settled as `SettledAs` says |
| Polyshape.SettlePath | code/src/Providers/Google/Shape/AbstractPolyshape.ts:39-54 | the completions, in the given order: fulfilled with the path in index order exactly when every location is non-empty and geocodes; rejected with a failure's reason exactly when some geocoding fails; pending otherwise |
| Polyshape.BuildPath | code/src/Providers/Google/Shape/AbstractPolyshape.ts:9-59 | undefined, with the validation report, exactly when the locations are refused; otherwise the locations before the first empty one are geocoded, an empty one is reported, and the path never resolves past it |
| Polyshape.ProviderPath | code/src/Providers/Google/Shape/AbstractPolyshape.ts:91-104 | the object's path, or no coordinates and API_FailedGettingShapePath when it has none |
| Polyshape.Polyshape.constructor | code/src/Providers/Google/Shape/AbstractPolyshape.ts:5-8 | a fresh shape with the given minimum path and invalid-locations code |
| Polyshape.Polyshape.Build | code/src/Providers/Google/Shape/AbstractPolyshape.ts:106-111 | fully geocoded locations give a ready shape whose object has the path in index order; refused locations give the validation report, no call and no change of readiness; valid locations one of whose started geocodings fails give a LIB_FailedGeocodingShapeLocations report, no call, and readiness and Google object unchanged |
| Polyshape.Polyshape.ChangeProperty | code/src/Providers/Google/Shape/AbstractPolyshape.ts:114-143 | the base shape first; when ready, `locations` sets the object's path only after a valid, fully geocoded rebuild, and a geocoding failure is reported as LIB_FailedGeocodingShapeLocations; fillColor and fillOpacity are set under their own names; a property the base shape forwards (allowDrag, allowEdit, stroke colour, opacity and weight) makes exactly the base call and the provider set under its key, with no report; any other name makes only the base call; a shape not ready makes only the base call |
| Polyshape.RelocateThenReadPath | code/src/Providers/Google/Shape/AbstractPolyshape.ts:91-143 | after changing a ready shape's locations to ones that all geocode, `providerPath` reads back one coordinate per location, in index order, with no report |
| DrawingTools.FreshToolsList | code/src/Providers/Leaflet/DrawingTools/DrawingTools.ts:20-30 | all six slots false |
| DrawingTools.LastOfDisabled | code/src/Providers/Leaflet/DrawingTools/DrawingTools.ts:85-110 | a slot stays false exactly when no tool has its type |
| DrawingTools.LastOfIsLast | code/src/Providers/Leaflet/DrawingTools/DrawingTools.ts:85-110 | a filled slot holds the options of the last tool of its type |
| DrawingTools.OtherTypesIgnored | code/src/Providers/Leaflet/DrawingTools/DrawingTools.ts:104-105 | a tool of any other type leaves the record unchanged |
| DrawingTools.GetTools | code/src/Providers/Leaflet/DrawingTools/DrawingTools.ts:85-110 | the loop over the tools builds the specified record; circlemarker stays false |
| DrawingTools.DrawingToolsPosition | code/src/Providers/Leaflet/DrawingTools/DrawingTools.ts:69-82 | a known name gives its position and no report; an unknown one gives undefined and one CFG_InvalidDrawingToolsPosition with the name |
| DrawingTools.BuildPosition | code/src/Providers/Leaflet/DrawingTools/DrawingTools.ts:184-188 | the configured position when valid, otherwise TOP_LEFT |
| DrawingTools.CompletedTargets | code/src/Providers/Leaflet/DrawingTools/DrawingTools.ts:61-67 | the tools a completion reaches, never more than there are |
| DrawingTools.CompletedTargetsMembers | code/src/Providers/Leaflet/DrawingTools/DrawingTools.ts:64-66 | a completion reaches a tool exactly when the tool's type is the event's layer type |
| DrawingTools.CompletedCalls | code/src/Providers/Leaflet/DrawingTools/DrawingTools.ts:66 | one `addCompletedEvent` per target, in order |
| DrawingTools.BuildCalls | code/src/Providers/Leaflet/DrawingTools/DrawingTools.ts:195 | one `build` per tool, in order |
| DrawingTools.Without | code/src/Providers/Leaflet/DrawingTools/DrawingTools.ts:232-233 | the tools left after the base class drops a tool, never more than there were |
| DrawingTools.WithoutMembers | code/src/Providers/Leaflet/DrawingTools/DrawingTools.ts:232-233 | exactly the tools with another id remain |
| DrawingTools.WithoutAbsent | code/src/Providers/Leaflet/DrawingTools/DrawingTools.ts:232-233 | removing an id no tool carries changes nothing |
| DrawingTools.AddThenRemove | code/src/Providers/Leaflet/DrawingTools/DrawingTools.ts:161-172 | adding a tool with a fresh id and removing it gives back the same tools and the same record |
| DrawingTools.DrawingTools.constructor | code/src/Providers/Leaflet/DrawingTools/DrawingTools.ts:46-58 | not ready, no control, no tools, no listener, not on the map |
| DrawingTools.DrawingTools.SetDrawingToolsEvents | code/src/Providers/Leaflet/DrawingTools/DrawingTools.ts:129-140 | all completion listeners are removed before one is added, so exactly one remains |
| DrawingTools.DrawingTools.RefreshDrawingTools | code/src/Providers/Leaflet/DrawingTools/DrawingTools.ts:112-127 | listeners reset, the control's record rebuilt from the tools, the control added to the map; without a control it fails on undefined |
| DrawingTools.DrawingTools.Build | code/src/Providers/Leaflet/DrawingTools/DrawingTools.ts:174-200 | tools layer added, control created at the configured position or TOP_LEFT with the tools record, every tool built, control refreshed onto the map with one listener, ready |
| DrawingTools.DrawingTools.AddTool | code/src/Providers/Leaflet/DrawingTools/DrawingTools.ts:161-172 | the tool is appended; a ready control builds it and refreshes |
| DrawingTools.DrawingTools.ChangeProperty | code/src/Providers/Leaflet/DrawingTools/DrawingTools.ts:203-218 | when ready, `position` moves the control only to a valid position, and an invalid one is reported; otherwise nothing |
| DrawingTools.DrawingTools.RemoveTool | code/src/Providers/Leaflet/DrawingTools/DrawingTools.ts:232-239 | the tool is dropped and the control refreshed, ready or not; an unbuilt control fails on undefined |
| DrawingTools.DrawingTools.RefreshProviderEvents | code/src/Providers/Leaflet/DrawingTools/DrawingTools.ts:228-230 | listeners reset only when ready |
| DrawingTools.DrawingTools.AddCompletedEventHandler | code/src/Providers/Leaflet/DrawingTools/DrawingTools.ts:61-67 | each tool of the completed layer's type receives the event, in tool order |
| DrawingTools.DrawingTools.Dispose | code/src/Providers/Leaflet/DrawingTools/DrawingTools.ts:220-226 | removed from the map only when ready; the control is always dropped |
| DrawingTools.BuildAddRefresh | code/src/Providers/Leaflet/DrawingTools/DrawingTools.ts:129-140 | however often a built control is refreshed, one completion listener remains |
| DrawingTools.AddRemoveRestores | code/src/Providers/Leaflet/DrawingTools/DrawingTools.ts:161-239 | adding a fresh tool to a built control and removing it leaves the tools and the control's record as they were |
| GoogleMap.GoogleMap.constructor | code/src/GoogleProvider/Map/Map.ts:14-19 | not ready, no provider, no features, no markers |
| GoogleMap.GoogleMap.CreateGoogleMap | code/src/GoogleProvider/Map/Map.ts:47-59 | with the library loaded: provider created, features built, ready; otherwise it throws and nothing changes |
| GoogleMap.GoogleMap.ChangeProperty | code/src/GoogleProvider/Map/Map.ts:101-130 | center, zoom and mapTypeId go to `setCenter`, `setZoom` and `setMapTypeId`, styles and advancedFormat to `setOptions`, the three feature properties to their feature; each known name makes exactly one call carrying the value; a null or undefined center throws on reading `lat`; an unknown name throws instead of reporting; the configuration is never written |
| GoogleMap.GoogleMap.ChangeMarkerProperty | code/src/GoogleProvider/Map/Map.ts:83-98 | an unknown marker changes nothing; otherwise the marker's own changeProperty runs |
| GoogleMap.GoogleMap.AddMarker | code/src/GoogleProvider/Map/Map.ts:61-69 | the marker is appended, and built at once only when the map is ready |
| GoogleMap.GoogleMap.Dispose | code/src/GoogleProvider/Map/Map.ts:132-138 | the base dispose (which leaves the map not ready), then the features, then the provider is dropped |
| GoogleMap.BuildChangeDispose | code/src/GoogleProvider/Map/Map.ts:47-138 | a map built with the library loaded accepts every known property except a null or undefined center, and a later dispose succeeds |
| Directions.WaypointsCleanup | code/src/Providers/Google/Features/Directions.ts:20-27 | same length, every entry a stopover |
| Directions.CleanupKeepsLocations | code/src/Providers/Google/Features/Directions.ts:20-27 | the locations are carried unchanged and in order |
| Directions.FoldDistanceIsSum | code/src/Providers/Google/Features/Directions.ts:69-84 | the distance `reduce` is the sum of the legs' distances |
| Directions.FoldDurationIsSum | code/src/Providers/Google/Features/Directions.ts:85-100 | the duration `reduce` is the sum of the legs' durations |
| Directions.LegsOf | code/src/Providers/Google/Features/Directions.ts:44-68 | one entry per leg, in order, copying end points, distance and duration |
| Directions.LegsAddUpToDistance | code/src/Providers/Google/Features/Directions.ts:44-84 | the reported legs' distances add up to the reported total distance |
| Directions.Directions.constructor | code/src/Providers/Google/Features/Directions.ts:14-17 | disabled, with neither renderer nor service |
| Directions.Directions.Build | code/src/Providers/Google/Features/Directions.ts:32-38 | a fresh renderer and service; the enabled state is kept |
| Directions.Directions.SetState | code/src/Providers/Google/Features/Directions.ts:181-186 | the flag takes the value, and the renderer is on the map exactly when the value holds |
| Directions.Directions.Dispose | code/src/Providers/Google/Features/Directions.ts:39-43 | disabled, renderer and service dropped |
| Directions.Directions.SetPlugin | code/src/Providers/Google/Features/Directions.ts:117-128 | always GEN_NoPluginDirectionsNeeded, and no answer |
| Directions.Directions.RemoveRoute | code/src/Providers/Google/Features/Directions.ts:101-112 | always leaves the feature disabled; success exactly when the renderer is off the map, otherwise API_FailedRemoveDirections |
| Directions.Directions.SetRoute | code/src/Providers/Google/Features/Directions.ts:130-180 | a route leaves the feature enabled with the route shown; a rejection leaves it disabled and answers LIB_FailedSetDirections with the reason |
| Directions.Directions.TotalDistance | code/src/Providers/Google/Features/Directions.ts:69-84 | 0 while disabled, otherwise the sum of the first route's leg distances |
| Directions.Directions.TotalDuration | code/src/Providers/Google/Features/Directions.ts:85-100 | 0 while disabled, otherwise the sum of the first route's leg durations |
| Directions.Directions.LegsFromDirection | code/src/Providers/Google/Features/Directions.ts:44-68 | [] while disabled; otherwise one entry per leg of the first route, in order, carrying the leg's origin, destination, distance and duration |
| Directions.RouteThenRemove | code/src/Providers/Google/Features/Directions.ts:101-180 | a routed feature reports its legs and total; after removing the route the total is 0 |
| Zoom.Positions | code/src/Providers/Google/Features/Zoom.ts:42-46 | the bounds are extended only with markers whose provider is defined |
| Zoom.PositionsMembers | code/src/Providers/Google/Features/Zoom.ts:42-46 | a point is in the bounds exactly when a marker with a defined provider is there |
| Zoom.UndefinedProvidersSkipped | code/src/Providers/Google/Features/Zoom.ts:42-46 | markers without a provider contribute nothing |
| Zoom.RefreshRuleCases | code/src/Providers/Google/Features/Zoom.ts:34-56 | without autofit the zoom is set to the level; autofit with fewer than two markers sets the autofit zoom; otherwise fit, pan and recentre |
| Zoom.Zoom.constructor | code/src/Providers/Google/Features/Zoom.ts:12-15 | the level is stored, the autofit flag unset |
| Zoom.Zoom.Build | code/src/Providers/Google/Features/Zoom.ts:22-24 | autofit exactly when the level is Auto |
| Zoom.Zoom.SetLevel | code/src/Providers/Google/Features/Zoom.ts:58-62 | the level is stored, autofit follows it, and the map is refreshed once |
| Zoom.Zoom.RefreshZoom | code/src/Providers/Google/Features/Zoom.ts:34-56 | the loop produces the calls of the refresh rule |
| Zoom.AutoWithOneDrawnMarker | code/src/Providers/Google/Features/Zoom.ts:34-62 | setting Auto with two markers, one not drawn, fits the bounds to the drawn one only |
| ConfigProjection.DeleteUndefined | code/src/Providers/Google/Configuration/OSMap/GoogleMapConfig.ts:34-38 | a key survives exactly when its value is defined, and keeps that value |
| GoogleMapConfig.GetProviderConfig | code/src/Providers/Google/Configuration/OSMap/GoogleMapConfig.ts:25-41 | keys among center, zoom, styles, mapTypeId; none undefined; each present exactly when its field is defined; styles from style, mapTypeId from type |
| MapConfig.GetProviderConfig | code/src/OSFramework/Configuration/OSMap/MapConfig.ts:28-43 | keys among center, zoom, styles, mapTypeId; none undefined; each present exactly when its field is defined, so false and 0 are kept |
| GoogleMarkerConfig.GetProviderConfig | code/src/Providers/Google/Configuration/Marker/GoogleMarkerConfig.ts:23-38 | keys among draggable, icon, label, location, title; none undefined; draggable from allowDrag, icon from iconUrl |
| DrawConfig.GetProviderConfig | code/src/Providers/Google/Configuration/DrawingTools/DrawConfig.ts:18-31 | clickable always true; draggable exactly when allowDrag is defined; no other key |
| BasicShapeConfig.GetProviderConfig | code/src/Providers/Leaflet/Configuration/Shape/BasicShapeConfig.ts:22-39 | draggable always true, editable always false; opacity, color and weight from the stroke fields, each present exactly when defined |
| ErrorCodes.ParseCategory | code/src/OSFramework/Enum/ErrorCodes.ts:6-41 | a category read off a code prints back as the same text |
| ErrorCodes.Key | code/src/OSFramework/Enum/ErrorCodes.ts:6-41 | each member's category and number, the number under 100000 |
| ErrorCodes.KeyRoundTrip | code/src/OSFramework/Enum/ErrorCodes.ts:6-41 | the category and number identify the member, and the category is its name's prefix |
| ErrorCodes.ValueShape | code/src/OSFramework/Enum/ErrorCodes.ts:8-40 | every value has the form MAPS-<CAT>-<5 digits>, its CAT is the member's prefix, and it reads back to the member |
| ErrorCodes.ValuesDistinct | code/src/OSFramework/Enum/ErrorCodes.ts:6-41 | no two members share a value |
| ErrorCodes.MarkerPropertyValue | code/src/OSFramework/Enum/ErrorCodes.ts:36 | GEN_InvalidChangePropertyMarker is MAPS-GEN-03001 |
| ErrorCodes.SetDirectionsValue | code/src/OSFramework/Enum/ErrorCodes.ts:20 | LIB_FailedSetDirections is MAPS-LIB-04001 |
| ErrorCodes.RemoveDirectionsValue | code/src/OSFramework/Enum/ErrorCodes.ts:24 | API_FailedRemoveDirections is MAPS-API-03001 |

## Left out

- I/O and the SDKs: the DOM, script loading, `google.maps` / Leaflet construction, bounds geometry (floating point), `JSON.parse` (locations and configurations arrive parsed), `setTimeout` (its timeouts are the instants of `Tick`), promises (their outcomes and completion order are parameters) and the geocoding and directions network calls.
- `SetHeight` (MapManager.ts:190-230): it walks the DOM's `offsetHeight` values and relies on JavaScript `Number()` coercion.
- The legacy `MapAPI.*` wrapper namespaces in MapManager.ts and MarkerManager.ts: they only log a warning and delegate.
- `GetMapsFromPage` (MapManager.ts:123-125): it returns the table itself, and is the `maps` field.
- Base classes not in this model (AbstractConfiguration, AbstractEvent, AbstractShape, AbstractDrawingTools, AbstractMap, the event managers, GetFileLayerById). Their behaviour is assumed as follows:
  - the base shape's `finishBuild` sets ready and its `dispose` clears ready;
  - the base map's `dispose` clears ready, as the base shape's does (GoogleMap.GoogleMap.Dispose relies on it);
  - the base `changeProperty` and `dispose` of a shape are recorded as calls;
  - the base drawing-tools `addTool` appends the tool and `removeTool` drops every tool with that id;
  - the base map's `addMarker` appends the marker.
- The event managers of markers and maps are not modelled. Their pending-event tables are assumed to behave as `FileLayerEvents.PendingEvents`.
- Constants become parameters: `shapeChangedEvent`, `ProviderSpecialEvents`, `ProviderPolyshapeEvents` (`ProviderShape.EventNames`), `Constants.zoomAutofit`, `minPath` and `invalidShapeLocationErrorCode`.
- `_createProvider` belongs to each concrete shape. The object it creates is a parameter holding the path and the options.
- The `OS_Config_*` enums are assumed to name each property after the property itself.
- `Helper.IsEmptyString` is taken to mean the empty string.
- `Helper.ThrowError` is modelled as one report on the map; a call without a message carries "".
- The handler types are reduced to whether a handler is a `ShapeProviderEvent`, and `hasHandlers(OnClick)` is a parameter.
- ProviderShape.Shape.TimerElapsed: a timeout and a notification at the same instant are ordered as the ticks are given; the event loop's own ordering is not modelled.
- Directions.Directions.RemoveRoute: the renderer reports the map it was last given, so the API_FailedRemoveDirections branch is modelled but cannot be reached.
- MarkerManager.MarkerManager.RemoveMarker: the `p &&` guard of `findIndex` is folded away, because the array never holds an undefined marker.
- MapManager.MapManager.GetAllMarkers: returns the map's identity rather than its marker list, which belongs to the base map.
- The widget id that a marker's `build` finds in the DOM is an oracle parameter. MarkerManager.MarkerManager.CreateMarkerByUniqueID takes it as `widgetAfterAdd`, the id that the build run by the map's `addMarker` (Map.ts:61-69) finds when the map is ready.
- MarkerManager.MarkerManager.CreateMarker: its contract does not state the widget id that the build in the map's `addMarker` sets, because nothing in that path reads it.
- The base map's `hasMarker` (called by `CreateMarker` and `CreateMarkerByUniqueID`) belongs to the map class outside these files. It is the oracle parameter `mapHasMarker`.
- ErrorCodes.ErrorCode lists two codes that the `ErrorCodes` enum itself does not: CFG_InvalidDrawingToolsPosition and GEN_NoPluginDirectionsNeeded. The providers report them, so the datatype adds them to the enum's members.
- `_buildMarkers` (Map.ts:22-24), called by `_createGoogleMap`, has its body commented out and does nothing, so GoogleMap.GoogleMap.CreateGoogleMap leaves the markers as they were.
- GoogleMap.GoogleMap.ChangeProperty: `SetCenter` carries the center value itself; the `LatLng` built from its `lat` and `lng` is not decomposed, and a value other than null or undefined is taken not to throw.
- ProviderShape.Shape.SetShapeEvents, ProviderShape.Shape.BuildProvider, ProviderShape.Shape.RefreshProviderEvents and ProviderShape.RefreshTwice use the corrected reset of the Findings row. The source's reset leaves the names at odd positions recorded and their listeners in place. This matters whenever `_addedEvents` holds two or more names, for example on a rebuild after `dispose`, which keeps the record. ProviderShape.Shape.SetShapeEventsAsWritten and ProviderShape.RefreshTwiceAsWritten state the composition as written.
- ProviderShape.RefreshTwice, ProviderShape.TwoPassesOnceOnProvider and ProviderShape.TwoPassesDoubleListenerObject are stated with no OnClick handler. With one, `_setShapeEvents` adds a 'click' listener on the Google object without recording 'click', so no reset removes it and each refresh adds another; ProviderShape.ClickListenerTwice states this. The model records it and does not correct it.
- ProviderShape.Shape.ResetShapeEvents: even the corrected reset clears on the Google object only, as the source does. Listeners that `_setShapeEvents` hangs on `providerObjectListener` (the path, for polygons and polylines) are never removed, so each refresh attaches them again; ProviderShape.TwoPassesDoubleListenerObject states this. The model records it and does not correct it.
- The marker's own `getProviderConfig` delegation and the `refreshProviderEvents` / `validateProviderEvent` abstractions are not modelled: they have no body in the core.
- `controlOptions` (DrawingTools.ts:144-155) and `providerEvents` (DrawingTools.ts:157-159): the control's options and the list of event names are SDK state that nothing modelled reads.

## Findings

| source | as written | input that shows it | evidently intended | confidence | as-written member | corrected member |
|---|---|---|---|---|---|---|
| code/src/Providers/Google/Shape/AbstractProviderShape.ts:11-17 | `_resetShapeEvents` splices `_addedEvents` inside its own `forEach`, so each splice shifts the next entry into the visited index and the loop skips it: only entries at even original positions are cleared, and those at odd positions stay recorded and keep their listeners | `_addedEvents` = ["click", "dragend"]: the listeners of "click" are cleared, "dragend" keeps its listener and stays in the list, and the next `_setShapeEvents` adds a second "dragend" listener | every recorded event has its listeners cleared and the list ends empty | not executed | ProviderShape.Shape.ResetShapeEventsAsWritten (with ProviderShape.ResetAsWrittenKeepsSecond, ProviderShape.AsWrittenRefreshRepeats) | ProviderShape.Shape.ResetShapeEvents (used by ProviderShape.Shape.SetShapeEvents) |
