# Annotation capture for a 3D model viewer

This project models the annotation-capture core of a small React/three.js
application. On a displayed 3D model, a user marks routes (ordered paths of
points) and ring markers, drags points that are already placed, and keeps a
list of named routes.

- `Capture` models the Model component's pointer handlers. A pointer-down
  records the press position. A context-menu event sets a one-shot
  suppression flag. A pointer-up is filtered in this fixed order:
  suppression, self-intersection with a placed dot or the helper dot, then
  more than 15 pixels of travel. A release that passes appends a ring, or
  emits the hit point together with the model's bounding box as a new route
  point. Pointer leave and enter hide and show the helper dot and its
  connector. Pointer move places them. The handlers are attached only in
  "create" mode. The handlers are methods of the class `Model`, each with
  its effect on the gesture state and the helper objects. Their dispatcher
  `Model.Dispatch` follows the pure step function `StepOf` for the gesture
  state and restates each handler's effect on the helper objects. Lemmas
  about runs of events use `StepOf`.
- `Page` models the route state of the page. It holds two parallel
  sequences appended in lock-step: the raw ("arbitrary") points, and the
  same points divided by half the bounding-box size on each axis
  ("normalized"). It also holds the guard that enables "add route".
- `Storage` models the `useStorage` hook: an in-memory list of named routes,
  mirrored into local storage under the key `"routes"`. `writeRoute`
  appends. `deleteRoute` filters out every entry with the given name.
- `Dot` models a placed route dot. While the dot is dragged, camera orbiting
  is switched off. When the drag ends, orbiting is switched back on and the
  dot's position is committed with its id. A context-menu event asks for the
  dot's removal.
- `Three` holds the pieces of three.js and JavaScript arithmetic the core
  uses: vectors over the reals, `Box3.getSize`, and division that yields an
  infinity or NaN on a zero divisor.
- `Optional` holds the `Option` type, and `Sequences` the subsequence
  relation that the two list filters (`deleteRoute`, `removeEventListener`)
  are stated with.

Coordinates are reals. Screen positions are integer pixels.

## Model

| member | source | states |
|---|---|---|
| `Three.Size` | src/app/page.tsx:116 | `Box3.getSize` is non-negative on each axis. For a non-empty box, min + size = max. For an empty box it is the zero vector. |
| `Three.Divide` | src/app/page.tsx:122 | JavaScript division of finite numbers. The quotient is finite iff the divisor is nonzero, and then quotient × divisor = dividend. A zero divisor gives +Infinity, -Infinity or NaN according to the sign of the dividend. |
| `Three.Midpoint` | src/componenets/POC/Model.tsx:141-151 | The connector pivot, `helper + normalize(last - helper) * (distance / 2)`, splits the segment from the helper dot to the last dot into two equal halves. |
| `Page.Normalize` | src/app/page.tsx:115-122 | Axis by axis: the normalized coordinate is finite iff the box has a nonzero extent on that axis, and then it times half that extent gives back the raw coordinate. On an axis with zero extent it is +Infinity, -Infinity or NaN as the raw coordinate is positive, negative or zero. All three axes are finite iff the box is non-degenerate. |
| `Page.NormalizeRoundTrip` | src/app/page.tsx:122 | Against a non-degenerate box, normalizing and then scaling back by the same box gives the raw point. |
| `Page.NormalizeFollowsBox` | src/app/page.tsx:115-122 | The box is taken afresh for each call. The same raw point with x ≠ 0, against two boxes whose x extents differ, gets different normalized x. |
| `Page.AppendPoint` | src/app/page.tsx:118-124 | Each sequence grows by exactly one. The raw point and its normalization against this call's box are the new last elements. Every earlier element keeps its value and index. Equal lengths before imply equal lengths after. |
| `Page.CaptureAllSpec` | src/app/page.tsx:118-124 | After a series of captures, the raw sequence is the old one followed by the captured points in order. Each new normalized entry is that point normalized against the box of its own capture. |
| `Page.CapturedRouteConsistent` | src/app/page.tsx:102-124 | A route built by captures from the empty initial route has both sequences the same length. Index i holds capture i in both sequences: raw, and normalized against its own box. |
| `Page.CanAddRouteAfterCaptures` | src/app/page.tsx:181 | Starting from the empty route, "add route" is enabled iff the name is non-empty and at least four points have been captured. |
| `Page.CanAddRoute` | src/app/page.tsx:181 | The button is disabled exactly when the route name is empty or fewer than four raw points have been placed. |
| `Page.NormalizeUnitBox` | src/app/page.tsx:115-122 | Against the box from (-1,-1,-1) to (1,1,1), every point normalizes to itself. |
| `Page.LoopScenario` | src/app/page.tsx:115-124 | (1,0,0), (0,1,0), (0,0,1), (-1,0,0) captured against the box from (-1,-1,-1) to (1,1,1) normalize to themselves. Named "loop", three of them do not enable "add route" and four do. |
| `Page.Scene.constructor` | src/app/page.tsx:97-102 | The route starts empty in both sequences, and the route name starts empty. |
| `Page.Scene.HandleAddPoint` | src/app/page.tsx:115-125 | The route becomes `AppendPoint` of the old route, the point and the box passed in. |
| `Page.Scene.HandleSetRoute` | src/app/page.tsx:127-129 | The current route is replaced wholesale by the given one. |
| `Page.Scene.SetNewRouteName` | src/app/page.tsx:175-179 | The route name becomes the input's value. |
| `Page.Scene.AddRouteEnabled` | src/app/page.tsx:180-181 | The result is `CanAddRoute` of the current name and route: enabled iff the name is non-empty and the raw sequence has at least 4 points. |
| `Capture.HitsMarker` | src/componenets/POC/Model.tsx:81-87 | True iff some intersected object is named `"dot"` or `"helperDOt"`. |
| `Capture.Classify` | src/componenets/POC/Model.tsx:72-105 | A suppressed release, one that hits a marker, or one that travelled more than 15 pixels does nothing. A ring is added iff none of these holds and the entity is "ring", and the ring is the hit point. A route point is emitted iff none of these holds, the entity is not "ring" and the route object exists. The emitted point is the hit point with the given box. |
| `Capture.TravelBoundary` | src/componenets/POC/Model.tsx:89-105 | For every press and release, with no suppression pending: a squared travel above 225 places nothing. A squared travel of at most 225 with no marker hit adds a ring at the hit point for the ring entity, and otherwise emits the hit point with the box when the route object exists. |
| `Capture.TravelExamples` | src/componenets/POC/Model.tsx:89 | Travel of exactly 15 pixels, on an axis or along a 9-12-15 diagonal, still counts as a click. Travel of 16 pixels, or of (11, 11), does not. |
| `Capture.StepOf` | src/componenets/POC/Model.tsx:57-105 | Outside "create" mode an event changes nothing and places nothing. Only a release can place something, and it places what `Classify` decides from the current flag and press position. A pointer-down alone moves the press position. A context-menu event sets the flag and a release clears it; other events keep it. The ring list grows by exactly the ring placed, if any. |
| `Capture.RunAppendsRings` | src/componenets/POC/Model.tsx:62-66 | Over any series of events, rings are only appended. The final list is the old list followed by the rings the releases added, in order. |
| `Capture.RunOutsideCreate` | src/componenets/POC/Model.tsx:193-207 | Events in any mode other than "create" reach no handler. The gesture state and the rings stay as they were, and nothing is placed. |
| `Capture.OutcomesIgnoreRings` | src/componenets/POC/Model.tsx:72-105 | What a series of events decides depends on the press position and the suppression flag, and not on the rings placed so far. |
| `Capture.SuppressionIsOneShot` | src/componenets/POC/Model.tsx:75-78 | With no new context-menu event, a run that starts suppressed ignores its first release, whatever that release would otherwise have done. Every other event is decided as in an unsuppressed run, and the run ends unsuppressed. |
| `Capture.SuppressedReleaseFirst` | src/componenets/POC/Model.tsx:75-78 | When the release that meets a pending suppression is the first event, it is ignored, every later event is decided as in an unsuppressed run, and the run ends unsuppressed. |
| `Capture.SuppressionStaysOff` | src/componenets/POC/Model.tsx:203-205 | Only a context-menu event sets the flag. Without one, an unsuppressed state stays unsuppressed. |
| `Capture.Model.constructor` | src/componenets/POC/Model.tsx:57-62 | The press position starts at (0, 0), the flag starts clear, and the ring list starts empty. |
| `Capture.Model.AddRing` | src/componenets/POC/Model.tsx:64-66 | The hit point is appended to the end of the ring list. |
| `Capture.Model.HandlePointerDown` | src/componenets/POC/Model.tsx:68-70 | The press position becomes the event's client (x, y). Nothing else changes. |
| `Capture.Model.HandleContextMenu` | src/componenets/POC/Model.tsx:203-205 | The suppression flag is set. Nothing else changes. |
| `Capture.Model.HandlePointerUp` | src/componenets/POC/Model.tsx:72-105 | The flag is always clear afterwards. The rings and the `onAddPoint` call are exactly what `Classify` decides from the old flag, the press position and whether the route object exists. |
| `Capture.Model.HandleEditPoint` | src/componenets/POC/Model.tsx:107-110 | The dragged dot's position and id are passed on with the model's box. |
| `Capture.Model.HandlePointerMove` | src/componenets/POC/Model.tsx:112-153 | With a hit on the model and a helper dot, the helper dot moves to the hit point. When the last dot, the pivot and the connector also exist, the pivot moves to the midpoint between the helper dot and the last dot. Otherwise the objects that are not reached stay unchanged. Visibility is untouched. |
| `Capture.Model.HandlePointerOut` | src/componenets/POC/Model.tsx:155-166 | The helper dot, then the connector if it exists, become invisible. Without a helper dot, nothing changes. Positions are untouched. |
| `Capture.Model.HandlePointerEnter` | src/componenets/POC/Model.tsx:168-179 | The helper dot, then the connector if it exists, become visible. Without a helper dot, nothing changes. Positions are untouched. |
| `Capture.Model.Dispatch` | src/componenets/POC/Model.tsx:193-207 | The gesture state and the emitted call follow `StepOf` for the current mode. Outside "create" mode no helper object changes. In "create" mode, pointer leave hides the helper dot and then the connector, and pointer enter shows them; neither moves anything nor touches the pivot. Pointer move places the helper dot at the hit and, when the connector is ready, the pivot at the midpoint to the last dot. It leaves the connector, the helper dot's visibility and the pivot's visibility alone. Pointer down, pointer up and context menu leave the helper objects unchanged. |
| `Storage.Without` | src/useStorage.tsx:22-23 | The result is no longer than the list. It has no entry with the deleted name. It contains every entry whose name differs, and nothing that was not in the list. |
| `Storage.WithoutKeepsOrder` | src/useStorage.tsx:23 | The surviving entries keep their original relative order. |
| `Storage.WithoutCounts` | src/useStorage.tsx:23 | Each entry with another name survives as many times as it occurred. An entry with the deleted name survives zero times. |
| `Storage.WithoutAbsent` | src/useStorage.tsx:23 | Deleting a name no entry carries leaves the list unchanged. |
| `Storage.WithoutAppend` | src/useStorage.tsx:23 | Filtering by name distributes over concatenation. |
| `Storage.DeleteUndoesWrite` | src/useStorage.tsx:16-27 | Deleting name n after writing a route named n gives the same list as deleting n before the write. |
| `Storage.WriteKeepsDuplicates` | src/useStorage.tsx:16-18 | Writing is not an upsert. The written entry occurs once more than before, and earlier entries stay in place. |
| `Storage.RouteStore.constructor` | src/useStorage.tsx:7-8 | At the first render the list is empty, over whatever local storage holds. This is the state before the mount effect (useStorage.tsx:29-31) calls `readRoutes`, not the state after mount. |
| `Storage.RouteStore.ReadRoutes` | src/useStorage.tsx:10-14 | With a stored value under `"routes"`, the list becomes that value. Without one, the list is unchanged. |
| `Storage.RouteStore.WriteRoute` | src/useStorage.tsx:16-20 | The list becomes the old list plus `r` at the end. The value under `"routes"` equals the new list, and every other key is untouched. |
| `Storage.RouteStore.DeleteRoute` | src/useStorage.tsx:22-27 | The list becomes `Without(old list, n)`. The value under `"routes"` equals the new list, and every other key is untouched. |
| `Dot.DragCommits` | src/componenets/POC/RouteDot.tsx:41-51 | On a drag end with orbit controls present, one commit per listener in dispatch order, each with the dot's position and the id that listener holds. On a drag start, or without orbit controls, none. |
| `Dot.Unsubscribe` | src/componenets/POC/RouteDot.tsx:55-56 | `removeEventListener` drops the handler. three.js removes its first occurrence, and `addEventListener` never adds a handler twice, so dropping every occurrence agrees with it. Every other listener stays, as many times as it occurred and in its original order. A list without the handler is left unchanged. |
| `Dot.AfterRenderAsWritten` | src/componenets/POC/RouteDot.tsx:36-58 | As written: outside "edit" there are no listeners. In "edit" the new handler is added last, and when the gizmo was already mounted every earlier listener stays in place in front of it. |
| `Dot.AfterRender` | src/componenets/POC/RouteDot.tsx:53-56 | With the corrected cleanup: outside "edit" there are no listeners. In "edit" the new handler comes last. Before it stand exactly the listeners of the mounted gizmo other than the previous handler, in their old order. |
| `Dot.ListenersPileUpAsWritten` | src/componenets/POC/RouteDot.tsx:36-58 | As written, after a dot mounts in "edit" mode and renders k times there, the gizmo holds k listeners, one per render with that render's id. A single drag end then commits k times, once with each id, in render order. |
| `Dot.AfterRenderKeepsOne` | src/componenets/POC/RouteDot.tsx:53-56 | When the cleanup unsubscribes from "dragging-changed", every render leaves exactly the latest handler. A drag end then commits once, with the latest id. |
| `Dot.RouteDot.constructor` | src/componenets/POC/RouteDot.tsx:31-58 | The first render subscribes one handler that holds the id, in "edit" mode only. The dot starts not hovered. |
| `Dot.RouteDot.Render` | src/componenets/POC/RouteDot.tsx:36-58 | With the corrected cleanup: in "edit" mode the gizmo holds exactly the new handler, holding the new id. In other modes there is no gizmo and no handler. |
| `Dot.RouteDot.HandleDraggingChanged` | src/componenets/POC/RouteDot.tsx:41-51 | With orbit controls present, orbiting is enabled iff the event is not a drag start. A drag end commits the dot's current position with the handler's id, and a drag start commits nothing. Without orbit controls, nothing happens. |
| `Dot.RouteDot.DispatchDraggingChanged` | src/componenets/POC/RouteDot.tsx:41-53 | Dispatching to the listeners in order gives `DragCommits` of them. With at least one listener and orbit controls, orbiting ends up enabled iff the event is not a drag start. |
| `Dot.RouteDot.DragChanged` | src/componenets/POC/RouteDot.tsx:41-51 | With the corrected cleanup, in "edit" mode, a drag start disables orbiting and commits nothing. A drag end enables orbiting and commits exactly once, with the dot's position and this dot's id. |
| `Dot.RouteDot.HandleRemove` | src/componenets/POC/RouteDot.tsx:67-69 | A context-menu event on the dot asks for the removal of this dot's id. |
| `Dot.RouteDot.HandlePointerEnter` | src/componenets/POC/RouteDot.tsx:60-62 | The dot becomes hovered. |
| `Dot.RouteDot.HandlePointerLeave` | src/componenets/POC/RouteDot.tsx:63-65 | The dot stops being hovered. |

## Findings

| source | as written | input that shows it | evidently intended | confidence | as-written member | corrected member |
|---|---|---|---|---|---|---|
| src/componenets/POC/RouteDot.tsx:53-56 | The effect subscribes `f` to "dragging-changed", but its cleanup unsubscribes `f` from "translate". The effect has no dependency list, so it runs after every render. Each render's handler therefore stays on the gizmo. | A dot in "edit" mode renders twice (for instance, the pointer enters it and sets `hovered`), and then one drag ends: `onTranslateEnd` is called twice. In general, k renders in "edit" mode leave k handlers, and one drag end calls it k times. | The cleanup removes the handler from "dragging-changed", so the gizmo holds one handler and a drag end commits once. | not executed; high | `Dot.ListenersPileUpAsWritten` | `Dot.AfterRenderKeepsOne` |

The class `Dot.RouteDot` uses the corrected cleanup (`Dot.AfterRender`).

## Left out

- Loading the model and its materials (`useLoader` with MTL/OBJ) is a foreign library and is not modelled.
- The model's bounding box (`Box3.setFromObject`) and the re-centring of the model are not modelled. Every operation takes the box as an input, fresh for each call.
- `dist` from `@/utils` is not part of this model. It is taken to be the Euclidean distance and compared squared against 225. Client coordinates are taken to be integer pixels.
- Scene lookups by name (`scene.getObjectByName`) are nullable handles in `Capture.SceneGraph`. A pivot that is not a `Group`, or a connector that is not a cylinder mesh, counts as absent. Handles found under different names are taken to be different objects.
- The self-intersection check compares against the literal names `"dot"` and `"helperDOt"`. The scene's name table (`sceneObjects`) is not part of this model, so whether the helper dot really carries the name `"helperDOt"` is not checked.
- Capture.Model.HandlePointerMove: does not model the connector cylinder's length (a square root), its fixed rotation, the pivot's `lookAt` orientation, or the dispose/realloc of the geometry. Only positions are modelled, as exact reals without float rounding.
- The GET `fetch` of routes (defined but never invoked) and the POST in `handleAddRoute` are network calls and are not modelled. The page's `routes` list is therefore always empty.
- `localStorage` and JSON (de)serialisation are not modelled. Storage is a map from key to route list. A stored empty string, which `readRoutes` also skips, cannot be represented. JSON turning an infinite normalized coordinate into `null` is not captured.
- React batching of state updates is not modelled, and neither are the stale `routes` closures of `writeRoute`/`deleteRoute`. Each setter is applied at once.
- Point edit and point removal on the route state are not modelled: `page.tsx` supplies neither `onPointEdit` nor `onPointRemove` to the Model component. Only the callback arguments are modelled (`Capture.Model.HandleEditPoint`, `Dot.RouteDot.HandleRemove`).
- TransformControls and OrbitControls internals are not modelled, including how a drag moves the dot. The committed position is the dot's position at the time of the drag-end event.
- `dotRef.current` is taken to be always set, since the ref is created with a mesh.
- JSX rendering, buttons, inputs and the hover material are not modelled.
- A zero box extent is not guarded: that axis of the normalized point becomes an infinity or NaN (`Page.Normalize`).
- The route has no edit, remove or reset operation, so none is modelled.
- `readRoutes` does not catch a failing `JSON.parse`: the exception propagates. Stored values are route lists here and are not parsed, so that failure is not modelled.
- `writeRoute` appends, and a name may occur more than once (`Storage.WriteKeepsDuplicates`).
