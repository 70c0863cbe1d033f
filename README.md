# hdmap_rviz_plugins map display, modelled in Dafny

This project models the data-shaping core of the rviz map display plugin:

- **Map flattening** (`MapDisplay::GlobalMapMsgToBillboardLines`). It turns the global
  map message (roads → sections → lanes) into billboard lines. Each lane gives three
  lines: centre, left boundary and right boundary. All three are cut to one shared point
  count. The result goes into the display's line list.
- **The current-region cache**. `MapDisplay::CurrentRegionCallback` stores the latest
  region message. The timer tick `MapDisplay::ShowCurrentRegion` copies that message into
  the overlay object.
- **The overlay text** (`CurrentRegionOverlayUI`). This is the id and the point vector
  `[x, y, heading]` with their accessors, and `Format`, which builds the three text lines.

Files:

- `msgs.dfy` (module `MapMsgs`): the message types (point, curve, lane, section, road,
  map, region). It also has the one exception the core can raise,
  `std::out_of_range`, and the `Result`/`Outcome` types that carry it.
- `flatten.dfy` (module `Flatten`): the specification of flattening as functions.
  - `LineSize` is the per-lane point count, including the conversion of `size_t` to
    a 32-bit `int`.
  - `LaneLines` is the lines one lane appends.
  - `EmitLanes`, `EmitSections`, `EmitRoads` and `FlattenMap` are the nested traversal.
    A run stops at the first `.at` that raises.
  - The lemmas about it follow: one flat run over all lanes, three lines per lane,
    the exact contents of each line, and where a failing run stops.
  - The module also holds the corrected point count for the finding below.
- `overlay_ui.dfy` (module `OverlayUi`):
  - the pure specification `FormatText` and its lemmas;
  - the class `CurrentRegionOverlayUI`, with the fields `id` and `point`, the
    accessors, and the imperative `Format` proved equal to `FormatText`.
- `hdmap_display.dfy` (module `HdmapDisplay`): the class `MapDisplay`.
  - It has the stored region, the display's line list and the overlay object.
  - The callback and the tick are methods on it.
  - The flattening is three nested loops (roads, sections, lanes), each its own method.
    Each is proved to append exactly what the `Flatten` functions say.
  - `FillLine` is the inner per-line index loop.

Modelling choices:

- A `double` is an exact `real`: the core only copies numbers and never computes with
  them.
- `std::to_string(double)` is the parameter `ts`. The model says nothing about how a
  number is printed.
- `std::min<int>(size, …)` converts each `size_t` to a 32-bit `int`. The model writes
  this out as a two's-complement wrap (`Flatten.Int32`), followed by `std::max<int>(0, …)`.
- An exception from `.at` is an `Outcome`/`Result` failure. The state is left as the C++
  leaves it when the exception propagates: every line appended before the failing `.at`
  stays in the list. This includes the centre and left lines of the failing lane.
- `GlobalMapMsgToBillboardLines` clears its parameter `lines` but appends to the member
  `rviz_lines_`. The only caller passes `rviz_lines_` itself. The model keeps both
  cases, because the line list is an object (`LineList`) that the parameter may alias:
  - aliased: the list holds exactly the map's lines;
  - otherwise: the parameter is emptied and the map's lines are appended after the
    member's old contents.
- With no roads, the code returns before clearing anything, so the list keeps what it
  held; the model follows the code here. With at least one road, the list ends empty
  exactly when the map has no lanes (`Flatten.NoLinesIffNoLanes`).

## Model

| member | source | states |
|---|---|---|
| Flatten.Int32 | hdmap_rviz_plugins/src/hdmap_display.cc:100-102 | the `size_t` → `int` conversion gives a value in [-2^31, 2^31), congruent to the size modulo 2^32, equal to it below 2^31 and never above it when non-negative |
| Flatten.LineSize | hdmap_rviz_plugins/src/hdmap_display.cc:99-102 | the shared point count never exceeds the centre or the left curve's size, and equals the smaller of the centre and left sizes when both fit in an `int` |
| Flatten.LaneLines | hdmap_rviz_plugins/src/hdmap_display.cc:103-143 | the lines one lane appends with point count n: the run completes exactly when the right boundary has at least n samples, and then holds 3 lines, else 2 (centre and left) |
| Flatten.EmitLanes | hdmap_rviz_plugins/src/hdmap_display.cc:98-144 | the lane loop's lines: a completed run holds 3 lines per lane, a raised one at least 2 and fewer than 3 per lane |
| Flatten.EmitSections | hdmap_rviz_plugins/src/hdmap_display.cc:97-145 | the section loop's lines: a completed run holds 3 lines per lane of its sections, a raised one at least 2 and fewer than that |
| Flatten.EmitRoads | hdmap_rviz_plugins/src/hdmap_display.cc:96-146 | the road loop's lines: a completed run holds 3 lines per lane of its roads, a raised one at least 2 and fewer than that |
| Flatten.FlattenMap | hdmap_rviz_plugins/src/hdmap_display.cc:92-146 | the lines a map appends after the clear: none for a map without roads; otherwise 3 per lane of the map when it completes, at least 2 and fewer than that when it raises |
| Flatten.LineSizeIgnoresRightBoundary | hdmap_rviz_plugins/src/hdmap_display.cc:99-102 | replacing the right boundary with any curve leaves the point count unchanged |
| Flatten.LaneLinesShape | hdmap_rviz_plugins/src/hdmap_display.cc:103-143 | a lane appends centre then left, each with max-points n, one line and the first n samples of its own curve; the right line follows exactly when the right boundary has n samples, else the lane raises after two lines |
| Flatten.EmitLanesAppend | hdmap_rviz_plugins/src/hdmap_display.cc:98-144 | running the lanes of `a + b` is running `a`, then, only if that completed, `b` with its lines after those of `a` |
| Flatten.EmitSectionsFlat | hdmap_rviz_plugins/src/hdmap_display.cc:97-145 | the section loop appends what one run over the sections' lanes, in order, appends |
| Flatten.EmitRoadsFlat | hdmap_rviz_plugins/src/hdmap_display.cc:96-146 | the road loop appends what one run over all the roads' lanes, in order, appends |
| Flatten.FlattenMapIsFlat | hdmap_rviz_plugins/src/hdmap_display.cc:96-146 | the nested traversal of a map equals one run over all its lanes in road → section → lane order |
| Flatten.SectionsLanesAppend | hdmap_rviz_plugins/src/hdmap_display.cc:97-98 | the lanes of earlier sections precede the lanes of later ones |
| Flatten.RoadsLanesAppend | hdmap_rviz_plugins/src/hdmap_display.cc:96-98 | the lanes of earlier roads precede the lanes of later ones |
| Flatten.EmitLanesCompleteIff | hdmap_rviz_plugins/src/hdmap_display.cc:99-142 | a run completes if and only if every lane's right boundary holds at least that lane's point count |
| Flatten.EmitLanesLength | hdmap_rviz_plugins/src/hdmap_display.cc:96-144 | a completed run appends exactly 3 lines per lane |
| Flatten.EmitLanesAt | hdmap_rviz_plugins/src/hdmap_display.cc:103-143 | in a completed run, lines 3k, 3k+1, 3k+2 are lane k's centre, left and right lines, each with max-points n, one line and the first n samples of its curve in order |
| Flatten.EmitLanesFailure | hdmap_rviz_plugins/src/hdmap_display.cc:135-142 | a run that raised stopped at the first lane k whose right boundary is shorter than n; it holds the full lines of the lanes before k, then lane k's centre and left lines, and nothing after them (3k+2 lines) |
| Flatten.FlattenMapLength | hdmap_rviz_plugins/src/hdmap_display.cc:96-146 | a completed map run appends 3 × (number of lanes in the map) lines |
| Flatten.FlattenMapAt | hdmap_rviz_plugins/src/hdmap_display.cc:96-146 | in a completed map run, lines 3k..3k+2 are the centre, left and right lines of the k-th lane in traversal order |
| Flatten.FlattenMapFailure | hdmap_rviz_plugins/src/hdmap_display.cc:96-146 | a map run that raised stopped at the first lane, in traversal order, whose right boundary is too short, after that lane's centre and left lines |
| Flatten.NoLinesIffNoLanes | hdmap_rviz_plugins/src/hdmap_display.cc:95-146 | a map run yields no lines exactly when the map holds no lanes, and then it completes |
| Flatten.EmitSectionsAppend | hdmap_rviz_plugins/src/hdmap_display.cc:97-145 | running the sections `a + b` is running `a`, then, only if that completed, `b`: each section's lines form one contiguous block |
| Flatten.FlattenMapAppend | hdmap_rviz_plugins/src/hdmap_display.cc:96-146 | flattening the roads `a + b` is flattening `a`, then, only if that completed, `b`: each road's lines form one contiguous block |
| Flatten.RightBoundaryOutOfRange | hdmap_rviz_plugins/src/hdmap_display.cc:99-102 | as written, a lane with 5/3/2 samples gets point count 3 and raises after its centre and left lines; with the corrected count it yields three 2-point lines |
| Flatten.LineSizeCorrected | hdmap_rviz_plugins/src/hdmap_display.cc:99-102 | the corrected point count never exceeds any of the three curves' sizes, and is their minimum when they fit in an `int` |
| Flatten.EmitLanesCorrected | hdmap_rviz_plugins/src/hdmap_display.cc:98-144 | the lane loop as evidently intended, with the point count taken over all three curves (`LineSizeCorrected`): it never raises and holds exactly 3 lines per lane |
| Flatten.CorrectedNeverFails | hdmap_rviz_plugins/src/hdmap_display.cc:96-144 | with the corrected count, no `.at` raises and every lane yields 3 lines |
| Flatten.CorrectedAt | hdmap_rviz_plugins/src/hdmap_display.cc:103-143 | with the corrected count, lines 3k..3k+2 are lane k's three lines, each cut to the shortest curve of the lane |
| Flatten.CorrectedAgreesWhenComplete | hdmap_rviz_plugins/src/hdmap_display.cc:99-102 | whenever the code as written completes (sizes below 2^31), the corrected count yields the very same lines |
| Flatten.FlattenMapCorrected | hdmap_rviz_plugins/src/hdmap_display.cc:96-146 | the map run with the corrected count always completes with 3 lines per lane of the map |
| Flatten.FlattenMapCorrectedAt | hdmap_rviz_plugins/src/hdmap_display.cc:96-146 | with the corrected count, lines 3k..3k+2 of a map run are the three lines of the k-th lane in traversal order, each cut to that lane's shortest curve |
| Flatten.FlattenMapCorrectedAgrees | hdmap_rviz_plugins/src/hdmap_display.cc:96-146 | on a map whose as-written run completes and whose curves have fewer than 2^31 samples, the corrected map run yields the same lines |
| HdmapDisplay.LineList.constructor | hdmap_rviz_plugins/src/hdmap_display.cc:89-91 | a new `std::vector` of billboard lines is empty |
| HdmapDisplay.FillLine | hdmap_rviz_plugins/src/hdmap_display.cc:105-114 | a line with max-points n and one line strip gets samples 0..n-1 of its curve in order; raises `out_of_range` exactly when the curve has fewer than n samples |
| HdmapDisplay.MapDisplay.AppendLaneLines | hdmap_rviz_plugins/src/hdmap_display.cc:99-143 | one lane appends exactly `LaneLines(lane, LineSize(lane))` to the display's list and raises exactly when that run is incomplete |
| HdmapDisplay.MapDisplay.AppendSectionLines | hdmap_rviz_plugins/src/hdmap_display.cc:98-144 | the lane loop appends exactly `EmitLanes` of the section's lanes and raises exactly when that run is incomplete |
| HdmapDisplay.MapDisplay.AppendRoadLines | hdmap_rviz_plugins/src/hdmap_display.cc:97-145 | the section loop appends exactly `EmitSections` of the road's sections and raises exactly when that run is incomplete |
| HdmapDisplay.MapDisplay.GlobalMapMsgToBillboardLines | hdmap_rviz_plugins/src/hdmap_display.cc:89-148 | no roads: nothing changes; otherwise the parameter list is cleared, the display's list receives exactly `FlattenMap(m).lines` (after its old contents unless it is the parameter), and the call raises exactly when that run is incomplete |
| HdmapDisplay.MapDisplay.OnGlobalMapResponse | hdmap_rviz_plugins/src/hdmap_display.cc:54-59 | the service response flattens into the display's own list: with roads it holds exactly the map's lines, without roads it is unchanged |
| HdmapDisplay.MapDisplay.constructor | hdmap_rviz_plugins/src/hdmap_display.cc:46-49 | a new display holds a default region message (empty id), an empty line list and a fresh, empty overlay object |
| HdmapDisplay.MapDisplay.CurrentRegionCallback | hdmap_rviz_plugins/src/hdmap_display.cc:83-87 | the stored region message is replaced as a whole by the received one |
| HdmapDisplay.MapDisplay.ShowCurrentRegion | hdmap_rviz_plugins/src/hdmap_display.cc:64-81 | shows exactly when the stored id is non-empty; with an empty id the overlay is untouched; otherwise the overlay id is the stored id and its point vector is exactly [x, y, heading] |
| HdmapDisplay.FormatAfterShow | hdmap_rviz_plugins/src/hdmap_display.cc:73-77 | the vector a tick writes always formats successfully, into the id line, the x/y point line and the heading line |
| HdmapDisplay.MapDisplay.ReceiveAndShow | hdmap_rviz_plugins/src/hdmap_display.cc:64-87 | a received region is stored; the next tick shows it exactly when its id is non-empty; nothing is formatted and the overlay is unchanged when it is not shown; when shown the overlay holds its id and exactly [x, y, heading], and the formatted text is its id, x, y and heading lines |
| OverlayUi.CurrentRegionOverlayUI.constructor | hdmap_rviz_plugins/include/util/overlay_ui.h:28 | a new overlay has an empty id and no numbers (capacity is only reserved) |
| OverlayUi.CurrentRegionOverlayUI.SetId | hdmap_rviz_plugins/include/util/overlay_ui.h:57 | writing through `mutable_id()` sets the id that `id()` and `Format` then read, and leaves the numbers alone |
| OverlayUi.CurrentRegionOverlayUI.ClearPoint | hdmap_rviz_plugins/include/util/overlay_ui.h:61 | `mutable_point()->clear()` empties the point vector and leaves the id alone |
| OverlayUi.CurrentRegionOverlayUI.PushPoint | hdmap_rviz_plugins/include/util/overlay_ui.h:61 | `mutable_point()->emplace_back(v)` appends v and leaves the id alone |
| OverlayUi.CurrentRegionOverlayUI.Format | hdmap_rviz_plugins/include/util/overlay_ui.h:29-53 | the imperative builder returns exactly `FormatText` of the current id and numbers and changes neither field |
| OverlayUi.CurrentRegionOverlayUI.Id | hdmap_rviz_plugins/include/util/overlay_ui.h:55 | `id()` returns a copy of the id field, the value `mutable_id()` writes and `Format` reads |
| OverlayUi.CurrentRegionOverlayUI.Point | hdmap_rviz_plugins/include/util/overlay_ui.h:59 | `point()` returns a copy of the point vector, the value `mutable_point()` changes and `Format` reads |
| OverlayUi.FormatText | hdmap_rviz_plugins/include/util/overlay_ui.h:29-53 | the result of `Format`: it raises exactly when the vector has fewer than three numbers, and otherwise holds three lines, the first ending with the id after its label |
| OverlayUi.FormatFailsIff | hdmap_rviz_plugins/include/util/overlay_ui.h:40-51 | formatting raises `out_of_range` if and only if the point vector has fewer than three numbers |
| OverlayUi.FormatIdRoundTrip | hdmap_rviz_plugins/include/util/overlay_ui.h:30-52 | a successful format has exactly three lines, and the id is read back from the first after the `"id: "` label |
| OverlayUi.FormatHeadingAndPoint | hdmap_rviz_plugins/include/util/overlay_ui.h:37-51 | the third line is `"heading: "` then the third number; the second is `"point: ["`, each of the first two numbers followed by two spaces, then `"]"` |
| OverlayUi.FormatOnlyFirstThree | hdmap_rviz_plugins/include/util/overlay_ui.h:40-50 | numbers after the third never affect the text |
| OverlayUi.FormatFresh | hdmap_rviz_plugins/include/util/overlay_ui.h:28-41 | formatting a freshly constructed overlay raises `out_of_range` |

## Left out

- Rendering is not modelled: `BillboardLine` objects appear only as the values set on
  them, namely max points per line, the number of lines and the points added. Scene
  nodes, `OverlayComponent::Clean/Update/Show` and the `Ogre::Vector3` conversion of
  `double` to `float` are not modelled.
- ROS wiring is not modelled: subscriptions, the service client and its
  `wait_for_service` loop, the timer, and the asynchronous request. Only the response
  callback is modelled (`OnGlobalMapResponse`).
- The mutex is not modelled. The operations run one at a time, so `ShowCurrentRegion`
  reading `current_region_msg_` at lines 73-77 instead of its local copy gives the same
  value here.
- The formatting of `std::to_string(double)` is not modelled; it is the parameter `ts`.
- The pointers `mutable_id()` and `mutable_point()` are not modelled as such. Writes
  through them are the three methods the display uses on them:
  assign the id, clear the vector, append a number.
- `SetupOverlay` is merged into the `MapDisplay` constructor. The other `onInitialize`
  steps are ROS or rendering setup.
- Picking in `mouse_tool.cc` and `select_file_tool.cc` is not modelled: it is float
  geometry delegated to Ogre.
- The file dialog, the `EventManager` and the launch file are not modelled: they are I/O,
  an external singleton and deployment configuration.
- The message wrapper around each curve sample is collapsed: a curve is its sequence of
  points, and `z` is kept.

## Findings

| source | as written | input that shows it | evidently intended | confidence | as-written member | corrected member |
|---|---|---|---|---|---|---|
| hdmap_rviz_plugins/src/hdmap_display.cc:99-102 | the shared point count is the minimum of the centre size and of the left boundary's size taken twice, so the right boundary is never consulted; its copy at lines 137-141 then uses `.at(i)` past its end | one lane with 5 centre, 3 left and 2 right samples: the count is 3, the centre and left lines are appended, then `right_boundary.pts.at(2)` raises `std::out_of_range` and the rest of the map is never drawn | `min` over the centre, left and right sizes, so that all three copies stay in range | high; not executed | Flatten.RightBoundaryOutOfRange | Flatten.CorrectedNeverFails |

The imperative methods model the code as written, so that the model stays faithful to
it. The corrected count is specified by `Flatten.LineSizeCorrected`, with the lane run
`Flatten.EmitLanesCorrected` and the map run `Flatten.FlattenMapCorrected`. These
lemmas are proved about it:

- `CorrectedNeverFails` and `FlattenMapCorrected`'s contract: it never raises.
- `CorrectedAt` and `FlattenMapCorrectedAt`: it lays out three lines per lane, each cut
  to the lane's shortest curve.
- `CorrectedAgreesWhenComplete` and `FlattenMapCorrectedAgrees`: it agrees with the
  code on some inputs. These are the inputs whose as-written run completes and whose
  curves have fewer than 2^31 samples. On them the corrected run yields exactly the
  as-written lines.
