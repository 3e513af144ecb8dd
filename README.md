# Map marker synchroniser

This project models, in Dafny, how a desktop map application keeps its embedded
Leaflet map in step with its native state. The model covers two sides of that bridge:

- **The map controller** (`controller/controller.py`). After every change to the
  state holder it runs a full resynchronisation. That is a fixed sequence of script
  commands: `setCenter(lat, lng, zoom)`, then `clearMarkers()`, then one
  `addMarker(id, lat, lng, label)` per marker in store order, with single quotes in
  labels escaped. Its button and right-click handlers mutate the state holder:
  - they ignore coordinates that do not parse;
  - they number new markers `m{n+1}`;
  - they label them `{n+1}` (typed coordinates) or `WP{n+1}` (a right-click).
- **The map page's script** (`view/view.py:97-145`). It holds:
  - the view (initially 22.9048880, 120.2719823 at zoom 20);
  - the layers drawn on the map;
  - the `markers` table from id to layer;
  - whether the web channel has finished its handshake.

  `addMarker` draws a layer and overwrites the table entry for its id. `clearMarkers`
  removes every recorded layer and empties the table. The right-click handler draws
  a layer it never records, and reports the point to the host only after the
  handshake.

Modules, one per component:

- `Decimal`: Python's `str(n)`.
- `LabelEscape`: the quote escape at `controller/controller.py:27`, its inverse, and
  how a JavaScript single-quoted literal reads the text back.
- `Store`: the native state. The state holder's source is not part of this model, so
  its three operations are stated as the controller uses them.
- `Commands`: the command datatype and `Resync`, the command sequence of one
  synchronisation.
- `Handlers`: the handlers' effect on the state, and the id invariant.
- `Controller`: the `MapController` class. `Sync` is the synchronisation loop. The
  handlers mutate the state holder and then call `Sync`, which stands for the change
  notification wired at `controller/controller.py:18`.
- `MapScript`: the page's script state, as a `Scene` value with step functions and
  as the `MapPage` class whose methods update the same fields in place.
- `EndToEnd`: what executing one resync's commands does to the page.

Commands carry the id and label as the text the controller writes between the
quotes of the script call. The page decodes that text as JavaScript does. A literal
that does not close where the controller meant it to makes the whole command a
syntax error, and the command then has no effect.

Coordinates are `real` values that are only passed through. Zoom is an `int`.
A coordinate text box that fails to parse is an `Option` input that is `None`.

Behaviour worth knowing before reading the lemmas:

- **Ids are reused.** New ids are numbered from the current count, so after a clear
  the next marker is `m1` again (`Handlers.ClearRestartsNumbering`).
- **The right-click marker stays.** `clearMarkers` only removes recorded layers. The
  page's own right-click marker is never recorded, so it stays on the map beside the
  controller's marker for the same point, through every later clear
  (`MapScript.ContextMenuLayerSurvivesClear`, `EndToEnd.WaypointRoundTrip`).
- **Backslashes are not escaped.** A label containing a backslash or a line break
  does not survive the trip into the script (`LabelEscape.BackslashBreaksLiteral`,
  `LabelEscape.BackslashLetterIsEscape`). That is why `EndToEnd.ResyncRebuilds`
  requires every id and label to read back. Stores built only by the handlers always
  meet this (`EndToEnd.HandlerStoreResync`).

## Model

| member | source | states |
|---|---|---|
| `Decimal.Show` | controller/controller.py:38 | the text is n's decimal numeral: all digits, denoting n when read most significant digit first, with no leading zero; one character long exactly when n < 10 |
| `Decimal.ShowInjective` | controller/controller.py:38 | two numbers with the same decimal text are equal |
| `LabelEscape.Escape` | controller/controller.py:27 | the escaped text is longer by the number of quotes, and every quote in it is preceded by a backslash, so no quote can close the literal when the label has no backslash (`EscapeDecodes`) |
| `LabelEscape.EscapeLabel` | controller/controller.py:27 | a missing or None label becomes the empty text; otherwise the length grows by the number of quotes |
| `LabelEscape.UnescapeEscape` | controller/controller.py:27 | removing the backslash inserted before each quote gives back the label, for every label |
| `LabelEscape.PlainDecodes` | controller/controller.py:28 | an id without quotes, backslashes or line breaks, embedded unescaped, is read back by the script unchanged |
| `LabelEscape.EscapeDecodes` | controller/controller.py:27-28 | a label without backslashes or line breaks, once escaped, is read back by the script exactly |
| `LabelEscape.BackslashBreaksLiteral` | controller/controller.py:27-28 | labels `a\` and `\'` escape to literal bodies the script cannot read, because backslashes are not escaped |
| `LabelEscape.BackslashLetterIsEscape` | controller/controller.py:27-28 | the label `\n` (backslash, letter n) reaches the script as a line break |
| `LabelEscape.ContinuationYieldsNothing` | view/view.py:115-119 | in the script's literal, a backslash before CR LF, LINE SEPARATOR or PARAGRAPH SEPARATOR contributes nothing |
| `Store.MapModel.AddMarker` | controller/controller.py:42 | appends the marker as given and keeps center and zoom |
| `Store.MapModel.ClearMarkers` | controller/controller.py:53 | empties the marker list and keeps center and zoom |
| `Store.MapModel.SetCenter` | controller/controller.py:50 | replaces the center and keeps zoom and markers |
| `Commands.AddCommandsAt` | controller/controller.py:26-29 | one add command per marker, the k-th built from the k-th marker |
| `Commands.ResyncShape` | controller/controller.py:21-29 | a resync is (number of markers + 2) commands: setCenter with the state's center and zoom first, clearMarkers second, then only adds; the k-th add carries the k-th marker's id, lat, lng and escaped label; an empty store gives no adds |
| `Handlers.ParseFailureIsNoOp` | controller/controller.py:32-36 | if either coordinate fails to parse, the add and center handlers change nothing |
| `Handlers.HandleEffect` | controller/controller.py:31-62 | the whole new state: a clear empties the markers; a centering replaces only the center; a typed add appends `m{n+1}` at the typed lat/lng labelled `{n+1}`; a waypoint appends `m{n+1}` at the reported point labelled `WP{n+1}`; nothing else changes |
| `Handlers.HandleKeepsHandlerBuilt` | controller/controller.py:37-62 | every handler keeps "marker i has id `m{i+1}` and a generated label" |
| `Handlers.HandleAllKeepsHandlerBuilt` | controller/controller.py:37-62 | that invariant holds after any sequence of handled events |
| `Handlers.CanonicalIdsDistinct` | controller/controller.py:38 | under the invariant, marker ids are pairwise distinct |
| `Handlers.ClearRestartsNumbering` | controller/controller.py:52-62 | after a clear, the next marker is `m1`: labelled `1` for typed coordinates, `WP1` for a waypoint |
| `Handlers.WaypointLabelIsNotUiLabel` | controller/controller.py:55-62 | a `WP{n}` label never equals a `{k}` label |
| `Handlers.IdDecodes` | controller/controller.py:28 | every generated id `m{n}` is read back by the script unchanged |
| `Handlers.LabelsDecode` | controller/controller.py:27-28 | every generated label `{n}` or `WP{n}`, once escaped, is read back by the script unchanged |
| `Handlers.HandlerBuiltDecodes` | controller/controller.py:27-28 | ids and labels of a handler-built store are read back by the script exactly |
| `Controller.MapController.constructor` | controller/controller.py:4-19 | keeps the given state holder and dispatches one initial resync |
| `Controller.MapController.Sync` | controller/controller.py:21-29 | appends exactly the state's resync commands to the dispatched log |
| `Controller.MapController.OnAddMarkerClicked` | controller/controller.py:31-42 | on a parse failure nothing changes and nothing is dispatched; otherwise marker `m{n+1}` labelled `{n+1}` is appended and one resync of the new state is dispatched |
| `Controller.MapController.OnCenterClicked` | controller/controller.py:44-50 | on a parse failure nothing changes; otherwise the center is replaced, zoom and markers are kept, and one resync is dispatched |
| `Controller.MapController.OnClearMarkers` | controller/controller.py:52-53 | the markers are emptied, and the resync is exactly setCenter then clearMarkers |
| `Controller.MapController.OnWaypointAdded` | controller/controller.py:55-62 | appends marker `m{n+1}` at the reported point labelled `WP{n+1}`, and dispatches one resync |
| `MapScript.InitialSceneValid` | view/view.py:97-102 | the page starts consistent, with zoom 20 and an empty table |
| `MapScript.ApplyKeepsValid` | view/view.py:115-130 | executing any command keeps the page consistent and leaves the channel alone |
| `MapScript.RunKeepsValid` | view/view.py:115-130 | the same for any sequence of commands |
| `MapScript.DisplacedLayerSurvivesClear` | view/view.py:115-130 | a layer displaced by a duplicate-id addMarker is no longer in the table, and stays on the map after clearMarkers |
| `MapScript.ContextMenuLayerSurvivesClear` | view/view.py:125-141 | the right-click layer is on the map, not in the table, and survives clearMarkers |
| `MapScript.ContextMenuReporting` | view/view.py:133-144 | before the handshake a right-click is not reported; after it, exactly its point is reported; the table is untouched either way |
| `MapScript.MapPage.constructor` | view/view.py:97-102 | the initial view 22.9048880, 120.2719823 at zoom 20, no layers, empty table, channel not ready |
| `MapScript.MapPage.AddMarker` | view/view.py:115-119 | records a new layer under the id, replacing any earlier entry and leaving the others; it has a popup exactly when the label is non-empty |
| `MapScript.MapPage.SetCenter` | view/view.py:121-123 | sets the center; uses the zoom when it is given and non-zero, else keeps the current zoom |
| `MapScript.MapPage.ClearMarkers` | view/view.py:125-130 | removes from the map every layer in the table, one key at a time, then empties the table |
| `MapScript.MapPage.OnChannelReady` | view/view.py:133-135 | the channel is ready from then on |
| `MapScript.MapPage.OnContextMenu` | view/view.py:137-145 | draws an unrecorded layer; the point is sent to the host only if the channel is ready |
| `MapScript.MapPage.Execute` | view/view.py:115-130 | runs the script function a dispatched command names; an add whose literals do not read back has no effect |
| `EndToEnd.SafeMarkerReadsBack` | controller/controller.py:27-28 | ids other than `__proto__` without quotes, backslashes or line breaks, and labels without backslashes or line breaks, read back |
| `EndToEnd.RunAddsFrame` | view/view.py:115-119 | add commands only draw new layers: nothing leaves the map and the view is kept |
| `EndToEnd.RunAddsKeys` | controller/controller.py:26-29 | after the adds, the table's keys are the old keys plus the markers' ids |
| `EndToEnd.RunAddsEntries` | controller/controller.py:26-29 | after the adds, each id holds a layer at the last marker with that id, with that marker's label popup |
| `EndToEnd.ResyncRebuilds` | controller/controller.py:21-29 | after one resync, the table's keys are exactly the store's ids, and entries and view match the store (a zero zoom keeps the page's); previously recorded layers are gone; unrecorded ones remain |
| `EndToEnd.HandlerStoreResync` | controller/controller.py:21-42 | for a handler-built store, after a resync the table maps `m1`..`m{n}` to the markers' positions and labels |
| `EndToEnd.WaypointRoundTrip` | view/view.py:137-144 | a right-click after the handshake reports its point; the controller's marker `m{n+1}` labelled `WP{n+1}` is in the table after the resync; the page's own callout layer is still on the map |
| `EndToEnd.FirstMarkerCommands` | controller/controller.py:21-42 | on an empty store at the initial view, adding (1.0, 2.0) dispatches exactly `setCenter(22.904888, 120.2719823, 20)`, `clearMarkers()`, `addMarker('m1', 1.0, 2.0, '1')` |
| `EndToEnd.FirstMarkerTable` | view/view.py:97-130 | executed on the page as loaded, those commands leave exactly `m1` in the table |

## Left out

- Qt widget construction, the overlay bar, layout and `resizeEvent` (`view/view.py:15-77`): user interface only.
- The web channel and `run_js`: `runJavaScript` is asynchronous and fire-and-forget. Dispatch is modelled as appending to the controller's log. The page executes commands in order (`MapScript.Run`). Commands lost while the page is still loading are not modelled.
- The `Bridge` object declares `waypointAdded` as a signal, and the page calls it as a function. How the web channel exposes a signal to the page is not part of this model. A reported point is modelled as one call of `OnWaypointAdded`.
- Leaflet internals are not modelled:
  - the tile layer;
  - the drone icon marker (`view/view.py:104-113`);
  - Leaflet's own zoom limits;
  - opening of the callout popup.

  The callout's HTML text is reduced to the point it shows.
- HTML assembly and `setHtml` (`view/view.py:79-96`, `146-150`): I/O.
- Float parsing (`float()`) is an `Option<real>` input. Printing of floats in the f-strings and `toFixed(6)` is float formatting and is left out. NaN and infinities are left out too.
- `MapScript.Apply`: a `\u` escape that denotes a UTF-16 surrogate code unit is read as a syntax error, because text here is a sequence of Unicode scalar values. A command whose literal closes early is treated as having no effect. Real JavaScript might instead parse the rest of such a label as further script (injection through a label like `\'); ...`). This is not modelled.
- `MapScript.Apply`: an `addMarker` with the id `__proto__` is modelled as an ordinary table key. In the page it replaces the `markers` object's prototype instead. `EndToEnd.ReadsBack` excludes that id, so the end-to-end lemmas do not cover it. Handler-built ids never take it.
- The state holder (`model/model.py`) is not part of this model. Its state and its three operations are modelled from how the controller uses them. Each mutation is assumed to fire one change notification, the center assignment included.
- `view/settings_dialog.py` and `main.py`: a form with no logic, and process bootstrap.
- Marker records with a label that is not a string, or with missing keys, are not modelled.
