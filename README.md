# Viewport, rulers and shape lists of the SVG polygon editor, in Dafny

This project models the core of a browser-based polygon editor. Random
polygons sit in a staging zone (the *buffer zone*). From there they are
dragged onto a workspace, which the user can pan with the mouse and zoom
with the wheel. Two rulers follow the workspace's viewport.

The model covers four things:

- **The workspace viewport** (`Workspace.WorkspaceArea`). It holds a scale
  and a translation, applied to the content layer as "translate, then
  scale", and a two-state pan machine (idle or dragging). The wheel zoom
  clamps the scale to [0.1, 3] and keeps the content point under the
  pointer where it is. Pointer positions are converted to content
  coordinates for drag-over and drop. The viewport can be saved, restored
  and cleared. After every change the transform is written to the content
  layer and pushed to both rulers: `Valid()` contains `Synced()`, which
  says that the content layer and both rulers show the current viewport.
  The constructor, every event handler and the restore and clear
  operations keep `Valid()`. `UpdateTransform` and `UpdateRulers` are the
  two steps those operations use to re-establish it.
- **The rulers** (`Rulers`). `Ticks(scale, offset, length)` is the list of
  ticks a ruler shows. The major interval comes from the scale table, the
  minor interval is a fifth of it, and the first tick is the least multiple
  of the major interval at or after the ruler's start. After that the ticks
  step by the minor interval to the end of the ruler. The `Ruler` class
  sanitises its `scale` and `offset` attributes and rebuilds its ticks.
  `BuildTicks` runs the source's own cascade and loop and is proved to
  produce exactly `Ticks`. The horizontal and vertical rulers are one class; they differ
  only in the extent they measure.
- **The staging zone** (`Staging.BufferZone`). These are its list
  operations: clear, regenerate from a random source, save, and restore
  the staged entries of a saved list.
- **How the two restores split a saved list** (`Persistence`). The
  workspace restores exactly the entries whose `buffer` flag is false, and
  the staging zone exactly those whose flag is true. So even a list that
  mixes both kinds of entries goes to the right side.

Arithmetic is over `real`, the intended semantics. The anchor identity of
the wheel zoom holds exactly over the reals; the JavaScript doubles only
approximate it. Tick positions are integers.

Inputs the browser supplies become parameters:

- pointer coordinates, the container's origin (`getBoundingClientRect`),
  the wheel's `deltaY`, the mouse button and the Ctrl key;
- the drag payload string, with `JSON.parse` as an abstract `parse`
  function giving an optional `{points, color}` record;
- `Math.random`, as a stream of draws `rnd`, and the polygon generator, as
  a function `gen`.

A ruler's extent along its axis is a constant of the `Ruler` object.

## Model

| member | source | states |
|---|---|---|
| `Snapshot.NumberOr` | src/components/workspace.js:283-285 | `v || d` on numbers: a non-zero number is kept; a missing value, NaN or 0 gives `d`; the result is never 0 when `d` is not |
| `Snapshot.KeptColor` | src/components/workspace.js:210-212 | a colour attribute is written only when the colour is truthy; otherwise the attribute stays absent |
| `Rulers.MajorInterval` | src/components/ruler.js:81-85 | the major interval is one of 20, 50, 100, 200, 500; each value holds exactly on its scale range (>5, (2,5], [0.5,2], [0.2,0.5), <0.2), which is what the cascade gives when the last matching rule wins |
| `Rulers.MinorInterval` | src/components/ruler.js:87 | the minor interval is one of 4, 10, 20, 40, 100 and five of them make a major interval |
| `Rulers.StartPos` | src/components/ruler.js:79 | `-offset/scale` is the content coordinate the offset moves to pixel 0 |
| `Rulers.EndPos` | src/components/ruler.js:78-79 | the window the loop walks through spans exactly `length` pixels at this scale (loop bound of src/components/ruler.js:92) |
| `Rulers.PixelOffset` | src/components/ruler.js:99 | `(pos - start) * scale` px from the ruler's start, read back at this scale, is content position `pos` (also the label offset of src/components/ruler.js:107) |
| `Rulers.Ceil` | src/components/ruler.js:88 | `Math.ceil`: the least integer not below its argument |
| `Rulers.FirstTick` | src/components/ruler.js:79-88 | the first tick is a multiple of the major interval, at or after `-offset/scale`, and the previous multiple lies before it |
| `Rulers.TickCount` | src/components/ruler.js:90-94 | the number of loop steps: the last tick is still before the ruler's end and one more step reaches it |
| `Rulers.TickAt` | src/components/ruler.js:88-99 | the tick at step `k` of the loop; for `k >= 0` it is major exactly when `k` is a multiple of 5 |
| `Rulers.Ticks` | src/components/ruler.js:88-101 | the ticks the loop appends: one per loop step (`TickCount`), and tick `k` is major iff `k % 5 == 0` |
| `Rulers.LabelsOf` | src/components/ruler.js:103-109 | the labels appended along a list of ticks, one after each major tick in order; never more labels than ticks |
| `Rulers.BuildTicks` | src/components/ruler.js:76-110 | the cascade, ceiling and stepping loop, run on values, terminate and produce exactly `Ticks(scale, offset, length)`, with labels exactly `LabelsOf` those ticks |
| `Rulers.TickPositions` | src/components/ruler.js:90-99 | tick `k` is at the first tick plus `k` minor intervals and is drawn at `(pos - start) * scale` |
| `Rulers.TicksIncreasing` | src/components/ruler.js:90-94 | tick positions strictly increase |
| `Rulers.TicksInWindow` | src/components/ruler.js:77-94 | every tick lies in `[start, start + length/scale)` |
| `Rulers.TicksCoverWindow` | src/components/ruler.js:90-94 | one minor step after the last tick is at or past the ruler's end, so no tick after the first is missing (where the first tick lies is `FirstTick`'s contract) |
| `Rulers.TickMajorEveryFifth` | src/components/ruler.js:95 | a tick is major iff its position is a multiple of the major interval, iff its index is a multiple of 5 |
| `Rulers.NegativeScaleNoTicks` | src/components/ruler.js:79-94 | with a negative scale and a non-negative length the loop bound lies at or before the start, so the ruler shows no tick at all |
| `Rulers.TickPixelsInRuler` | src/components/ruler.js:99 | for any non-zero scale and non-negative length every tick is drawn within `[0, length)` pixels |
| `Rulers.MajorCountIsCeilFifth` | src/components/ruler.js:95 | in a list where exactly the ticks at every fifth step from the first are major, `n` ticks hold `ceil(n/5)` major ones |
| `Rulers.RulerMajorCount` | src/components/ruler.js:90-109 | a ruler with `n` ticks shows `ceil(n/5)` major ticks and as many labels |
| `Rulers.HundredPixelRuler` | src/components/ruler.js:90-109 | at scale 1 and offset 0 a 100 px ruler shows five ticks and one label: the strict loop bound leaves out the major tick at position 100, where the ruler ends |
| `Rulers.LabelsOfMajorTicks` | src/components/ruler.js:103-109 | there are as many labels as major ticks, and a label exists iff some major tick has its position as text and its pixel offset |
| `Rulers.Ruler.constructor` | src/components/ruler.js:50-58 | a new ruler has scale 1, offset 0 and no ticks |
| `Rulers.Ruler.AttributeChanged` | src/components/ruler.js:64-72 | a zero or unparsable scale becomes 1 and an unparsable offset 0; the other attribute is kept; afterwards the ruler shows exactly `Ticks` for its scale and offset, whatever it showed before |
| `Rulers.Ruler.UpdateTicks` | src/components/ruler.js:74-111 | the container is emptied and refilled: afterwards the ruler shows exactly `Ticks(scale, offset, length)` and the `LabelsOf` those ticks, whatever it showed before |
| `Workspace.ScreenToContent` | src/components/workspace.js:139-140 | the pointer's content coordinate `(client - origin - translate)/scale`; the translated origin is content 0 (also the drop position of src/components/workspace.js:204-205) |
| `Workspace.ContentToScreen` | src/components/workspace.js:227-229 | where the transform "translate, then scale" draws content `x`; content 0 is drawn at the translated origin |
| `Workspace.ScreenContentInverse` | src/components/workspace.js:137-140 | screen-to-content `(c - left - t)/s` and the content transform `left + t + s*x` are inverse to each other for `s != 0` |
| `Workspace.WheelDelta` | src/components/workspace.js:156 | the step is -0.1 iff `deltaY > 0`, and +0.1 otherwise, including `deltaY == 0` |
| `Workspace.ZoomedScale` | src/components/workspace.js:156-157 | the new scale is `old + step` clamped to [0.1, 3] |
| `Workspace.AnchoredTranslate` | src/components/workspace.js:159-163 | the translate update keeps `(m - t)/s` unchanged from the old to the new scale; with the pointer at the translation, the translation is unchanged |
| `Workspace.ZoomKeepsPointerAnchored` | src/components/workspace.js:159-165 | across one wheel event, the content coordinate under the pointer stays the same |
| `Workspace.Zoomed` | src/components/workspace.js:156-157 | the scale after `n` wheel events in one direction; after at least one it lies in [0.1, 3] |
| `Workspace.ZoomInBound` | src/components/workspace.js:156-157 | after `n >= 1` zoom-ins from any scale, the scale is at least `min(3, 0.1 n)` |
| `Workspace.ZoomOutBound` | src/components/workspace.js:156-157 | after `n >= 1` zoom-outs from any scale, the scale is at most `max(0.1, 3 - 0.1 (n-1))` |
| `Workspace.ZoomSaturates` | src/components/workspace.js:156-157 | 30 or more wheel events in one direction leave the scale at exactly 3 (in) or 0.1 (out) |
| `Workspace.DroppedShape` | src/components/workspace.js:207-218 | the dropped shape has the payload's points, the payload's colour when it is truthy and none otherwise, the given position, and a box `100/scale` wide (its size times the scale is 100) |
| `Workspace.SaveShapes` | src/components/workspace.js:239-249 | saving maps the placed shapes in order to `{points, color, left, top, buffer: false}` |
| `Workspace.RestoredShape` | src/components/workspace.js:256-267 | a restored shape keeps the entry's points and position, keeps its colour only when truthy, and is `100/scale` wide |
| `Workspace.RestoreShapes` | src/components/workspace.js:251-272 | restored shapes number no more than the entries; each has size `100/scale` and a truthy-or-absent colour |
| `Workspace.RestoreShapesAppend` | src/components/workspace.js:254-271 | restoring a concatenation restores each part in order |
| `Workspace.RestoreShapesSingle` | src/components/workspace.js:255-270 | a staged entry restores to nothing; any other entry restores to one shape with its points, truthy colour and position |
| `Workspace.SaveRestoreShapes` | src/components/workspace.js:239-272 | restoring the saved placed shapes gives the same shapes in order, with only the size recomputed from the scale |
| `Workspace.RestoredView` | src/components/workspace.js:282-285 | a falsy saved scale becomes 1 and a falsy translation 0; any other value is taken unclamped; the scale is never 0 |
| `Workspace.SaveView` | src/components/workspace.js:274-285 | the saved viewport has every field present, and with a non-zero scale it restores to the same viewport |
| `Workspace.WorkspaceArea.constructor` | src/components/workspace.js:90-113 | a connected workspace has the identity viewport, is idle, has no shapes, and its content layer and rulers show the identity viewport |
| `Workspace.WorkspaceArea.UpdateTransform` | src/components/workspace.js:227-229 | the content layer's transform is the current viewport |
| `Workspace.WorkspaceArea.UpdateRulers` | src/components/workspace.js:231-237 | the horizontal ruler shows (scale, translateX) and the vertical ruler (scale, translateY) |
| `Workspace.WorkspaceArea.HandleDragEnter` | src/components/workspace.js:127-130 | the indicator becomes visible; nothing else changes |
| `Workspace.WorkspaceArea.HandleDragOver` | src/components/workspace.js:132-146 | the indicator's side is `100/scale` and its centre is the pointer's content position; its visibility is kept |
| `Workspace.WorkspaceArea.HandleDragLeave` | src/components/workspace.js:148-151 | the indicator is hidden |
| `Workspace.WorkspaceArea.HandleWheel` | src/components/workspace.js:153-168 | the scale becomes `ZoomedScale` and the translation `AnchoredTranslate` on both axes; the content point under the pointer is unchanged; rulers and transform are pushed; shapes and pan state are untouched |
| `Workspace.WorkspaceArea.HandleMouseDown` | src/components/workspace.js:170-178 | button 0 without Ctrl starts dragging and records `client - translate`; any other press changes nothing |
| `Workspace.WorkspaceArea.HandleMouseMove` | src/components/workspace.js:180-187 | while dragging, translate becomes `client - start` and is pushed; when idle, nothing changes, the rulers included |
| `Workspace.WorkspaceArea.HandleMouseUp` | src/components/workspace.js:189-192 | dragging always ends |
| `Workspace.WorkspaceArea.HandleDrop` | src/components/workspace.js:194-225 | the indicator is hidden; an empty or unparsable payload leaves the shapes unchanged; otherwise exactly one shape is appended at the pointer's content position, with the payload's points, its colour only if truthy, and size `100/scale` |
| `Workspace.WorkspaceArea.GetPolygonsData` | src/components/workspace.js:239-249 | one saved entry per placed shape, in order, with its points, colour and position and `buffer: false` |
| `Workspace.WorkspaceArea.SetPolygonsData` | src/components/workspace.js:251-272 | the `forEach` loop replaces the shapes with exactly `RestoreShapes(polygons, scale)` |
| `Workspace.WorkspaceArea.GetWorkspaceState` | src/components/workspace.js:274-280 | the saved viewport restores to the current one |
| `Workspace.WorkspaceArea.SetWorkspaceState` | src/components/workspace.js:282-288 | the viewport becomes `RestoredView(state)`, unclamped, and is pushed; shapes and pan state are untouched |
| `Workspace.WorkspaceArea.Clear` | src/components/workspace.js:290-297 | no shapes; viewport (1, 0, 0), pushed to the content layer and the rulers |
| `Workspace.PanGesture` | src/components/workspace.js:170-192 | press, move and release move the translation by exactly the pointer's displacement |
| `Workspace.SaveThenRestorePlaced` | src/components/workspace.js:239-272 | restoring a workspace from its own saved shapes keeps each shape's points, colour and position in order |
| `Workspace.DropOnFreshWorkspace` | src/components/workspace.js:194-218 | a drop at (140, 140) with container origin (40, 40) on the identity viewport places the shape at content (100, 100) with size 100 |
| `Staging.StagedFrom` | src/components/buffer-zone.js:76-88 | a restored staged shape has the entry's points, the entry's colour when it is truthy and none otherwise, and is draggable, flagged as staged and 100 px |
| `Staging.PolygonCount` | src/components/buffer-zone.js:45 | `floor(16 r) + 5` lies in [5, 20] for `r` in [0, 1) |
| `Staging.VertexCount` | src/components/buffer-zone.js:51 | `floor(5 r) + 3` lies in [3, 7] for `r` in [0, 1) |
| `Staging.SaveStaged` | src/components/buffer-zone.js:62-70 | the staged shapes map in order to `{points, color, buffer: true}` |
| `Staging.RestoreStaged` | src/components/buffer-zone.js:72-92 | restored shapes number no more than the entries, and all are well formed |
| `Staging.RestoreStagedAppend` | src/components/buffer-zone.js:75-91 | restoring a concatenation restores each part in order |
| `Staging.RestoreStagedSingle` | src/components/buffer-zone.js:76-90 | an entry flagged as staged restores to one shape with its points and truthy colour; any other entry to nothing |
| `Staging.SaveRestoreStaged` | src/components/buffer-zone.js:62-92 | restoring the saved staged shapes gives back exactly the same sequence |
| `Staging.BufferZone.constructor` | src/components/buffer-zone.js:34-40 | a new staging zone is empty |
| `Staging.BufferZone.Clear` | src/components/buffer-zone.js:94-96 | the staging zone is empty |
| `Staging.BufferZone.GenerateRandomPolygons` | src/components/buffer-zone.js:42-60 | the old contents are discarded; there are `PolygonCount(rnd(0))` new shapes (none if it is negative); shape `i` has the generator's points for `VertexCount(rnd(i+1))` vertices in a 50 by 50 box, no colour, and the draggable and staged flags |
| `Staging.BufferZone.GetPolygonsData` | src/components/buffer-zone.js:62-70 | one saved entry per staged shape, in order, with its points and colour and `buffer: true` |
| `Staging.BufferZone.SetPolygonsData` | src/components/buffer-zone.js:72-92 | clear, then the `forEach` loop leaves exactly `RestoreStaged(polygons)` |
| `Staging.SaveThenRestoreStaged` | src/components/buffer-zone.js:62-92 | restoring the staging zone from its own saved shapes leaves it unchanged |
| `Persistence.SavedListSplits` | src/components/buffer-zone.js:76 | each entry of one saved list is restored by exactly one of the two sides: the restored counts add up to the list's length |
| `Persistence.WorkspaceSkipsStaged` | src/components/workspace.js:255 | the workspace restores nothing from the staging zone's saved entries |
| `Persistence.StagingSkipsPlaced` | src/components/buffer-zone.js:76 | the staging zone restores nothing from the workspace's saved entries |
| `Persistence.SavedListRoundTrip` | src/components/workspace.js:251-272 | when the saved forms of both sides are concatenated and the list is given to both restores, the staging zone gets its shapes back exactly and the workspace gets back as many shapes as it saved, the same as from its own list alone |

## Left out

- Templates, CSS, shadow DOM, `customElements.define` and the `grabbing` cursor class are presentation only.
- Event listener registration (src/components/workspace.js:115-125), `preventDefault` and `dropEffect` are event plumbing. The handlers are methods, called in whatever order events arrive.
- The constructor models element creation followed by `connectedCallback`. The state between the two is not observable by any handler.
- `getBoundingClientRect` is read at each call in the source. Here the container origin is a parameter, and a ruler's extent is a constant of the ruler. Resizing is not modelled.
- Attribute values cross as strings (`toString`, then `parseFloat`). The model treats that round trip as the identity on reals and an unparsable value as `None`. CSS lengths (`"…px"`) are modelled as reals, with an unset position as `None`.
- Floating point is not modelled. All viewport arithmetic is exact real arithmetic.
- JavaScript's `%` truncates, while Dafny's is Euclidean. The source only compares the remainder with 0, where the two agree.
- A ruler's labels are modelled as a list of their own. Their DOM order, each label right after its tick in the one container, is not modelled.
- The drop indicator's CSS position and size are unset until the first drag-over. The model starts them at 0.
- `JSON.parse` is the parameter `parse`. Only a payload that throws — a syntax error, or `null`, whose `.points` read throws — is `None`, and then the shapes stay as they were. A number, string, boolean or array parses without throwing; its `.points` is `undefined`, so `parse` gives `Some(DropPayload("undefined", None))` and a shape with the points string `"undefined"` is appended. The `console.error` report in the catch branch is not modelled.
- The polygon generator (src/utils/helpers.js) and `Math.random` are parameters. So the generator's own use of randomness and its geometry are not modelled.
- localStorage save, load and clear (src/utils/helpers.js, src/utils/storage.js) are not part of this model. Neither is the button wiring, `alert`/`confirm` and defaulting in src/components/app-root.js, nor src/components/polygon-item.js.
- A ruler's length is assumed non-negative where a lemma needs it (`Rulers.NegativeScaleNoTicks`, `Rulers.TickPixelsInRuler`): it is the laid-out width or height of an element, which is never negative.
- `Rulers.Ruler.UpdateTicks`: the ticks and labels are built as values by `Rulers.BuildTicks` and then installed all at once. The source appends them to the container one by one, but nothing observes the container during the loop.
- `Workspace.WorkspaceArea.HandleDragOver`: the indicator's numbers are modelled as the source computes them, in content coordinates with side `100/scale`. The indicator is a child of the untransformed container, not of the content layer (src/components/workspace.js:84-85). So after a pan or zoom the browser draws it away from the pointer, and `100/scale` px wide where a dropped shape appears 100 px wide. The model does not describe where the browser draws it.
