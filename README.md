# LoreCrafter, modelled in Dafny

LoreCrafter is a world-building web application. A Flask backend (`app.py`)
keeps characters and locations in two MongoDB collections. It generates new
records with a language model and serves them, with their links and map
coordinates, as JSON. Two browser clients talk to it:

- the main client (`static/script.js`), with its tutorial, its map placement
  mode, its relationship graph, its marker layer and its PDF export;
- an older standalone client (`Frontend/script.js`), with the same kinds of
  screens written more simply.

This project models the parts of the three files that decide behaviour:

- the backend routes over an in-memory store;
- the clients' guards, requests and state changes;
- the lists and layouts they build from the records.

It proves what each part promises.

Layout:

- `json.dfy` (module `Json`): JSON values. It gives JavaScript and Python truthiness, property reads, `dict.get`, and the message of `new Error(x)`.
- `client_common.dfy`: requests and replies (`Http`), the records the clients read (`Records`), and the marker layer (`MapLayer.LayerGroup`).
- `static_api.dfy`, `static_tutorial.dfy`, `static_placement.dfy`, `static_graph.dfy`, `static_markers.dfy` and `static_pdf.dfy`: the main client.
- `frontend_placement.dfy`, `frontend_cards.dfy` and `frontend_actions.dfy`: the standalone client.
- `backend.dfy` (module `Backend`): the Flask routes.
- `client_server.dfy` (module `ClientServer`): how the clients' requests meet the routes.

State the source updates in place is a class: the tutorial navigator, the two
placement states, the generate buttons, the PDF writer's cursor and the
backend store. Each method is proved against a pure function of the old state.
Each loop is a `while` loop proved against a recursive function. Most of these
functions unfold from the last element, so that one more iteration is one more
unfolding. `FindDoc` is proved against `IndexOf`, which recurses from the
front, and the card order of `ReversedCards` is a function with no loop. The lemmas state the properties about those functions.

Asynchronous handlers are split into the step that issues the request and the
step that runs when it settles. The reply is a parameter: a transport failure,
or a status with a body that is `None` when it is not JSON. The user's answer
to a confirmation, the click position, page and text heights, and whether a
database is connected are parameters too.

## Model

| member | source | states |
|---|---|---|
| Json.Prop | static/script.js:242 | A property read on a non-null JSON value is defined exactly when the value is an object with that key, and yields that field. |
| Json.PyGet | app.py:214 | `dict.get` is `None` exactly when the key is missing or holds JSON null. |
| Json.ToJsString | static/script.js:400 | `String(x)` of a truthy value is non-empty, and a string converts to itself. |
| Json.ErrorMessage | static/script.js:400 | `new Error(x).message` is empty for `undefined` and non-empty for a truthy value. |
| StaticApi.HandleApiResponse | static/script.js:392-403 | 401 fails as Unauthorized and nothing else does. The parsed body comes back exactly for an ok status with a JSON body. A non-ok status fails with the `error` text when it is a non-empty string. When `error` is falsy, it fails with `String(message)`, or with "" when `message` is absent. The fallback "API request failed" is used only when the body does not parse. Reading the body fails exactly for an ok reply that is not JSON and for a non-ok reply whose body is JSON `null`. |
| StaticApi.HandleApiCall | static/script.js:406-413 | A transport failure fails as Transport. Success and the 401 case happen exactly as the response handler says. |
| StaticApi.RedirectAfter | static/script.js:393-396 | The browser goes to /login exactly when the call failed as Unauthorized. |
| Tutorial.NextIndex | static/script.js:667-674 | Next moves one step forward below the last step and keeps the index at the last step. It stays in range. |
| Tutorial.PrevIndex | static/script.js:676-681 | Previous moves one step back above the first step and keeps the index at step 0. It stays in range. |
| Tutorial.Render | static/script.js:651-665 | The indicator shows i+1 of 6. Previous is hidden exactly on the first step. The button reads "Finish" exactly on the last step, otherwise "Next". The title and highlight are the step's own. |
| Tutorial.AfterNextsStops | static/script.js:667-674 | k presses of Next from step i reach min(i+k, last step). |
| Tutorial.WalkthroughReachesFinish | static/script.js:608-615 | From step 0, each press below the last step shows "Next" on the step it reaches. The last step, reached after 5 presses, shows "Finish". |
| Tutorial.NextPrevInverse | static/script.js:667-681 | Previous undoes Next below the last step, and Next undoes Previous above the first. |
| Tutorial.TutorialNavigator.InitializeTutorial | static/script.js:618-622 | When the tour has not been seen, it opens at step 0 showing step 0's rendering. When it has been seen, nothing changes and nothing is shown. |
| Tutorial.PageLoad | static/script.js:618-622 | On page load the tour box is visible exactly when the tour has not been seen, and then it shows step 0. |
| Tutorial.TutorialNavigator.OpenTutorial | static/script.js:629-634 | Opening always restarts at step 0, shows it, and hides Previous. |
| Tutorial.TutorialNavigator.CloseTutorial | static/script.js:636-649 | Closing hides the box, records the tour as seen, and keeps the index. |
| Tutorial.TutorialNavigator.NextStep | static/script.js:667-674 | Below the last step, Next advances and re-renders. At the last step it closes the tour with the index unchanged. |
| Tutorial.TutorialNavigator.PrevStep | static/script.js:676-681 | Previous steps back and re-renders, except at step 0, where nothing changes. |
| StaticPlacement.PendingLocation | static/script.js:448 | A click places something exactly when an id is pending and it is non-empty. |
| StaticPlacement.Arm | static/script.js:374 | Whatever was pending before, the next map click saves the button's data-id at the click's coordinates, or sends nothing when the data-id is missing or empty. |
| StaticPlacement.ClickRequest | static/script.js:446-453 | A click sends a PUT to the pending location's set_coords with x = lng and y = lat, and sends nothing otherwise. |
| StaticPlacement.Settle | static/script.js:454-460 | Placement mode ends exactly when the save call succeeds. On any failure the state is kept. |
| StaticPlacement.ArmingReplaces | static/script.js:374 | After two armings, the click saves the second location. |
| StaticPlacement.IdleClickIsNoOp | static/script.js:448 | With no state, no id, or an empty id, a click sends nothing. |
| StaticPlacement.SettleThenClick | static/script.js:446-460 | After a failed save the next click retries the same location. After a successful one it sends nothing. |
| StaticPlacement.InFlightArmingIsCleared | static/script.js:458 | A save that succeeds also clears a location armed while it was in flight. |
| StaticPlacement.PlacementMode.PlaceClicked | static/script.js:374 | The state becomes the arming of the button's id. |
| StaticPlacement.PlacementMode.MapClicked | static/script.js:446-453 | It sends a request exactly when a location is pending, with the coordinates of the click. |
| StaticPlacement.PlacementMode.SaveSettled | static/script.js:454-460 | The state becomes Settle of the old state and the reply. |
| RelationshipGraph.ColorOr | static/script.js:267-268 | `color \|\| fallback`: the record's colour when truthy, else the default. |
| RelationshipGraph.CharacterNodes | static/script.js:267 | One node per character, in order. |
| RelationshipGraph.LocationNodes | static/script.js:268 | One node per location, in order. |
| RelationshipGraph.LinkEdges | static/script.js:270 | The edges come exactly from the characters with a truthy location_id, one each at most. |
| RelationshipGraph.LinkedCount | static/script.js:270 | The linked count is at most the number of characters. |
| RelationshipGraph.LinkEdgesAppend | static/script.js:270 | Edges keep the characters' order: the edges of a concatenation are the concatenated edges. |
| RelationshipGraph.LinkEdgesCount | static/script.js:270 | There are exactly as many edges as linked characters. |
| RelationshipGraph.GraphElements | static/script.js:262-271 | Character nodes come first, then location nodes, with the ids, names as labels, types and default colours. The edges are those of the linked characters. |
| RelationshipGraph.EdgeSourcesAreCharacterNodes | static/script.js:270 | Every edge starts at a character node. |
| RelationshipGraph.DanglingLinkKept | static/script.js:270 | A link to an id with no node still yields an edge. |
| StaticMarkers.Excerpt | static/script.js:251 | The popup text is the whole description when it has at most 100 characters, and otherwise its first 100 characters. |
| StaticMarkers.MarkerOf | static/script.js:242 | A marker sits at [coords.y, coords.x]. |
| StaticMarkers.DrawMarkers | static/script.js:229-260 | The loop draws at most one marker per location. |
| StaticMarkers.DrawnExactlyPlaced | static/script.js:231-258 | When every placed location has a text description, the loop completes with one marker per location with coordinates. |
| StaticMarkers.UnplacedGetNoMarker | static/script.js:232 | Every marker belongs to a placed location with a text description. |
| StaticMarkers.ThrowIsFinal | static/script.js:251 | Once the description's substring call has thrown, later locations add nothing. |
| StaticMarkers.DisplayLocationMarkers | static/script.js:229-260 | The layer is cleared, then holds exactly the markers of the loop specification. It reports whether the loop completed. |
| PdfExport.PageCheck | static/script.js:508-513 | A new page starts exactly when the block would cross the bottom margin, and the cursor resets to the margin. The cursor never moves backwards. A block that fits on an empty page then fits. |
| PdfExport.ExportLayout | static/script.js:503-566 | The title is at the top margin of page 1, with one name position per record. A section heading is present exactly when its section is non-empty. The Characters heading goes where `checkNewPage(20)` puts the cursor after the title. The Locations heading is at least the 5-unit gap below the top margin. An empty export ends just below the title. |
| PdfExport.Entries | static/script.js:526-543 | There is one name position per entry, in strictly increasing document order. Each starts where its block fits above the bottom margin. |
| PdfExport.ExportLayoutProperties | static/script.js:503-566 | There is one position per record. A section heading is present exactly when its section is non-empty. Everything is in document order, characters before locations. Every entry fits when the page is tall enough. |
| PdfExport.SortedChain | static/script.js:526-565 | In a chain of positions where each comes before the next, every earlier position comes no later than every later one. |
| PdfExport.PdfWriter.CheckNewPage | static/script.js:508-513 | The cursor becomes the page check of the old cursor. |
| PdfExport.PdfWriter.Advance | static/script.js:518 | `y += dy` on the same page. |
| PdfExport.PdfWriter.WriteEntries | static/script.js:526-543 | The loop leaves the cursor and positions of the Entries specification. |
| PdfExport.LayOutExport | static/script.js:503-566 | The export's cursor steps give exactly the layout of the ExportLayout specification. |
| FrontendPlacement.SaveOutcome | Frontend/script.js:254-267 | The state is cleared exactly on an ok status with a non-null JSON body. "Failed to save coordinates." is shown exactly for a non-ok status. |
| FrontendPlacement.SaveAlert | Frontend/script.js:255 | The client's own alert text appears exactly for a non-ok status. |
| FrontendPlacement.PlacementState.Pending | Frontend/script.js:245 | A location is pending exactly when the id is set and non-empty. |
| FrontendPlacement.PlacementState.PlaceClicked | Frontend/script.js:447-458 | The id and the name both replace the old ones. |
| FrontendPlacement.PlacementState.MapClicked | Frontend/script.js:243-253 | A PUT of {x: lng, y: lat} to the pending location's set_coords, sent only when a location is pending. |
| FrontendPlacement.PlacementState.SaveSettled | Frontend/script.js:254-267 | Both fields are cleared on success. On failure nothing changes. |
| FrontendPlacement.ArmTwiceThenClick | Frontend/script.js:447-458 | After two Place clicks, a map click saves the second location. |
| FrontendPlacement.ClickSettleClick | Frontend/script.js:243-267 | After a failed save the next click retries the same location. After a successful one it sends nothing. |
| FrontendPlacement.ArmWithoutIdThenClick | Frontend/script.js:245 | A button without data-id leaves map clicks ignored. |
| FrontendCards.FirstMatch | Frontend/script.js:68 | `find` stops at the first location whose id equals the character's location_id, or reports none. |
| FrontendCards.AssignedLocation | Frontend/script.js:68 | The assigned location is a listed location matching the link. There is none exactly when no location matches. |
| FrontendCards.LocationLabel | Frontend/script.js:85 | The label is the assigned location's name, or "Not Assigned". |
| FrontendCards.DanglingLinkNotAssigned | Frontend/script.js:68-85 | A link to an id no listed location has shows "Not Assigned". |
| FrontendCards.OptionsFor | Frontend/script.js:71-75 | The placeholder with value "" comes first. Then one option per location follows in order, selected exactly when it matches the link. |
| FrontendCards.BuildLocationOptions | Frontend/script.js:71-75 | The loop builds exactly those options. |
| FrontendCards.SelectedIffAssigned | Frontend/script.js:68-85 | Some option is selected exactly when the card shows an assigned location. |
| FrontendCards.FirstSelectedIsLabel | Frontend/script.js:68-85 | The first selected option is the assigned location's, and its text is the label. |
| FrontendCards.CharacterListView | Frontend/script.js:58-63 | An empty list shows the empty message. Otherwise there is one card per character, newest first. |
| FrontendCards.ReversedCards | Frontend/script.js:63 | Card i shows character n-1-i. |
| FrontendCards.PinsFor | Frontend/script.js:279-285 | The markers are exactly those of the locations passing the filter. |
| FrontendCards.PinsCount | Frontend/script.js:279-285 | There is exactly one marker per location passing the filter. |
| FrontendCards.MissingAxisPassesFilter | Frontend/script.js:280 | Coordinates with one axis missing pass the `!== null` filter, and the location is handed to `L.marker` with that axis `undefined`. |
| FrontendCards.DisplayLocationMarkers | Frontend/script.js:274-286 | The layer is cleared, then holds exactly those markers. |
| FrontendActions.RefusalMessage | Frontend/script.js:311 | The error text is non-empty. It is the server's `error` string when present, and "Unknown error occurred" when `error` is not truthy. |
| FrontendActions.GenerateOutcome | Frontend/script.js:308-327 | The record is shown exactly for an ok status with a JSON body. A refusal with a message happens exactly for a non-ok status with a non-null JSON body. |
| FrontendActions.GenerateButton.Click | Frontend/script.js:292-307 | An empty prompt only alerts, with the button's own text. Otherwise the button is disabled as "Generating..." and the prompt is POSTed. |
| FrontendActions.GenerateButton.Settle | Frontend/script.js:328-331 | Whatever the reply, the button is enabled again with its idle label. |
| FrontendActions.GenerateRoundTrip | Frontend/script.js:350-386 | A click with a non-empty prompt POSTs it to the generate route. Its settlement yields that reply's outcome and leaves the button enabled with its idle label. |
| FrontendActions.DeleteClick | Frontend/script.js:394-400 | A missing or empty id or type does nothing. Otherwise the user is asked. A DELETE to /api/{type}s/{id} is sent exactly when they confirm. |
| FrontendActions.AssignClick | Frontend/script.js:416-430 | The placeholder selection alerts. Any other selection PUTs {location_id} to the character's link_location. |
| Backend.ParseObjectId | app.py:178 | It accepts exactly 24 hex digits and yields the input with each digit in lower case, as `str()` renders it. |
| Backend.ObjectIdRoundTrip | app.py:178 | A rendered id parses back to itself. |
| Backend.IndexOf | app.py:179 | The query on _id matches the first document with that id, or none. |
| Backend.SetField | app.py:221-224 | `$set` changes one field of the matched document and nothing else. |
| Backend.RemoveAt | app.py:179 | `delete_one` removes the matched document and keeps the others in order. |
| Backend.SetFieldWellFormed | app.py:221-224 | Setting a field other than _id keeps ids unique. |
| Backend.RemoveAtExactlyOne | app.py:179-182 | Removing the match removes exactly its id and keeps every other document. |
| Backend.DeleteRoute | app.py:171-204 | A missing database gives 500 first, and a malformed id gives 500. 200 happens exactly when the id exists and that document is removed, 404 exactly when it does not. Nothing changes unless 200. |
| Backend.DeleteRemovesExactlyOne | app.py:171-204 | A successful delete removes exactly one record, with that id, and leaves the other table alone. |
| Backend.LinkLocationRoute | app.py:206-232 | Database, then body, then a truthy location_id (400), then a malformed id (500 "Failed to update character"). After that, 404 "Character not found" happens exactly when no character has the id, and 200 exactly when one does. The 200 sets location_id on that character only, and nothing else changes otherwise. |
| Backend.LinkIgnoresLocations | app.py:213-224 | Any truthy location_id is stored, even one naming no location. |
| Backend.SetCoordsRoute | app.py:234-265 | Database, then body, then x and y not None (400), then a malformed id (500 "Failed to update location coordinates"). After that, 404 "Location not found" happens exactly when no location has the id, and 200 exactly when one does. The 200 stores {x, y} on that location only, and nothing else changes otherwise. |
| Backend.ZeroCoordinatesAccepted | app.py:247 | Zero coordinates are accepted and stored. |
| Backend.SetCoordsThenRead | app.py:242-257 | After a successful save, the location at the same position holds the coordinates. |
| Backend.Exported | app.py:150-151 | A returned record has all its fields, with _id as a string. |
| Backend.ExportedAll | app.py:147-152 | One returned record per stored document, in order. |
| Backend.ListRoute | app.py:141-169 | 500 without a database. Otherwise 200 with every record of the collection. |
| Backend.ExportRoute | app.py:315-341 | 500 without a database. Otherwise 200 with exactly the characters and the locations. |
| Backend.ExportIsComplete | app.py:323-333 | The export holds every record in order, with all its fields and its id as a string. |
| Backend.NodesOf | app.py:280-287 | One node per document, in order. |
| Backend.EdgesOf | app.py:279-295 | The edges come exactly from the documents with a truthy location_id. |
| Backend.LinkedCount | app.py:288 | The number of linked characters is at most the number of characters. |
| Backend.EdgesCount | app.py:279-295 | There are exactly as many edges as linked characters. |
| Backend.EdgesAppend | app.py:279-295 | Edges keep the characters' order: the edges of a concatenation are the concatenated edges. |
| Backend.GraphRoute | app.py:267-313 | 500 without a database or when a record lacks a name. Otherwise 200 with the graph. |
| Backend.GraphShape | app.py:276-308 | There is one character node per character and then one location node per location. Every edge is a "lives in" edge from a linked character, each linked character has its edge, and there are exactly as many edges as linked characters. |
| Backend.GenerateCharacterGate | app.py:42-56 | The request reaches the model exactly when the body is an object with a truthy prompt. A missing or falsy body gets the 400 about the 'prompt' key. So does an object without "prompt" and a string without the substring "prompt". A falsy prompt gets "Prompt is required". A string containing "prompt", a non-zero number or `true` raises, giving a 500. |
| Backend.GenerateLocationGate | app.py:94-106 | The request reaches the model exactly when the body is an object with a truthy prompt. A body that is not an object gives an uncaught 500. |
| Backend.GatesCompared | app.py:42-106 | Both routes accept the same requests. They differ on a missing body: 400 against 500. |
| Backend.RouteDelete | app.py:171-190 | A routed path is exactly the table's prefix followed by one segment. |
| Backend.RouteDeleteRoundTrip | app.py:171-190 | Each table's prefix plus an id routes back to that table and id. |
| Backend.FindDoc | app.py:179 | The search loop returns the first match index, or -1. |
| Backend.ExportDocs | app.py:148-151 | The loop stringifies every id, as ExportedAll says. |
| Backend.CharacterElements | app.py:279-297 | The loop succeeds exactly when every character has a name, and then builds the character nodes and edges. |
| Backend.LocationElements | app.py:300-307 | The loop succeeds exactly when every location has a name, and then builds the location nodes. |
| Backend.Store.constructor | app.py:171-204 | The store starts well formed with the given tables. |
| Backend.Store.Delete | app.py:171-204 | The store ends in the outcome of DeleteRoute and stays well formed. |
| Backend.Store.DeleteCharacter | app.py:171-187 | The same, for the characters. |
| Backend.Store.DeleteLocation | app.py:189-204 | The same, for the locations. |
| Backend.Store.LinkLocation | app.py:206-232 | The store ends in the outcome of LinkLocationRoute and stays well formed. |
| Backend.Store.SetCoords | app.py:234-265 | The store ends in the outcome of SetCoordsRoute and stays well formed. |
| Backend.Store.GetAllCharacters | app.py:141-154 | The response is ListRoute's. |
| Backend.Store.GetAllLocations | app.py:156-169 | The response is ListRoute's. |
| Backend.Store.ExportWorld | app.py:315-341 | The response is ExportRoute's. |
| Backend.Store.GetGraphData | app.py:267-313 | The response is GraphRoute's. |
| ClientServer.TableOfKind | Frontend/script.js:400 | "character" and "location" name the two tables. |
| ClientServer.DeleteClickReachesRoute | Frontend/script.js:400 | A confirmed delete of a card reaches that table's delete route with the card's id. |
| ClientServer.AsLocation | app.py:150-151 | The client sees the stored id and coordinates. |
| ClientServer.AssignIsStored | Frontend/script.js:426-430 | The assign body passes link_location's check, and the selected id is stored. |
| ClientServer.FrontendMarkerLandsWhereClicked | Frontend/script.js:252 | A click at (lat, lng) is saved, and the reloaded location's marker sits at [lat, lng]. |
| ClientServer.StaticMarkerLandsWhereClicked | static/script.js:453 | In the main client, the reloaded location's marker also sits at [lat, lng]. |

## Where the model follows the code

- **`handleApiResponse`** (static/script.js:398-400):
  - The fallback text "API request failed" is used only when the error body does not parse as JSON.
  - When a JSON object's `error` is falsy, the message is `String(message)`, so `{"message": null}` gives "null". It is empty when `message` is absent as well.
  - A JSON `null` error body throws while reading `.error`.
- **The standalone marker filter** (Frontend/script.js:280) compares with `null` only. A coordinates object with a missing axis passes the filter, and the location is handed to `L.marker` with `undefined` for that axis.
- **The main client's marker loop** stops at the first placed location whose description is not a string, because `substring` throws there.
- **`generate_location`** reads `data.get` without checking the body. A missing body or one that is not an object raises an uncaught error, a 500, where `generate_character` answers 400.
- **`generate_character`** tests `'prompt' not in data`:
  - for a string body this is a substring test, and a string that contains "prompt" then fails at `data.get`;
  - for a number or `true` the test itself raises.
- **The standalone map save** reads `data.message` after parsing. An ok reply whose body is JSON `null` fails there, and placement mode stays on.

## Left out

- Non-integral numbers and JSON arrays are not modelled. Coordinates, heights and statuses are integers.
- The language-model calls of both generate routes and the insertion of the generated record (app.py:58-92, 108-139) are left out: they are foreign network calls and their reply parsing. Only the request checks before them are modelled.
- The text of the exception in a 500 `{"error": "<context>: <exception>"}` is not modelled. Only the context is.
- A body that is not valid JSON, or is not sent as JSON, is not modelled separately. Every route checks the database first. In `link_character_location` and `set_location_coordinates` (app.py:212-232, 240-265), `get_json()` runs inside `try`, so such a body ends in the same 500 "Failed to update …" as the modelled `None` body. Only in the generate routes does it become the framework's own 400 or 415 error, after the database check. A body of `None` stands for `get_json()` returning `None`.
- `str()` of a stored `location_id` that is not a string is kept as the stored value in graph edges.
- The DOM, toasts, alerts' and confirmations' rendering, CSS, animations, Leaflet, Cytoscape and jsPDF internals, the map image upload and URL settings, local storage I/O (the "seen" flag is a field), the one-second `setTimeout` before the tour opens on page load (the model opens it at once), logout, colour changes, the main client's `handleGenerate`, `fetchAllData` and card rendering, the JSON export download, and the health check are left out. They are presentation or I/O.
- FrontendPlacement.SaveOutcome: the messages of errors the runtime raises are not modelled, only that such an error occurs.
- FrontendActions.GenerateOutcome: whether the outcome is shown in the result panel or in an alert is not modelled.
- The order of asynchronous settlements is not modelled: each settlement is applied to the state current when it runs.
- StaticMarkers.Excerpt: the cut at 100 counts characters, while JavaScript's `substring(0, 100)` counts UTF-16 code units. A character outside the Basic Multilingual Plane at the cut would be split there. Only the popup text differs.
- FrontendCards.PinsFor, StaticMarkers.DrawMarkers: `L.marker` is treated as never failing. Leaflet throws on an axis that is missing or does not convert to a number. The backend stores such coordinates, since it only rejects `None` (app.py:247). In the standalone client the throw would leave the loop, and the `.catch` of its caller would show "Failed to load locations." (Frontend/script.js:159-160). In the main client it would end the loop at that location. With numeric coordinates, such as those the clients' map clicks save, the models are exact.
- The records the clients read always carry a `name` string. A record without one, which the clients render as "undefined", is not modelled.
- `doc.splitTextToSize` and `getTextDimensions` are left out. Each entry's text height is an input.
- The main client's card lists sort records by creation date (static/script.js:117, 163); that rendering is not part of this model. Database errors other than a malformed id are not modelled.
