# Floor-plan editor core, modelled in Dafny

The app annotates a venue's floor plan. It has three kinds of entity:

- **Halls**: rectangular rooms in scene pixels.
- **Zones**: enter, exit and transition rectangles inside a hall, placed relative to the hall's corner and possibly rotated.
- **Anchors**: beacons at a scene point, with a height and the halls they serve.

The editor keeps the three lists in one state object, `PlanEditorState`. A canvas changes that state through taps, drags and pinches. Dialogs edit one entity at a time. The state can go three ways:

- exported to a firmware configuration, in metres, with Y measured up from each hall's bottom edge;
- saved to the desktop tool's `.proj` record, with zones nested under their hall;
- loaded back from that record, falling back to the app's own flat record.

This project models that core:

| file | module | what it holds |
|---|---|---|
| `data.dfy` | `Data` | The records, their defaults, the `ZoneType` enum and the export records. Kotlin `Float` is `real`, `Int` is `Int32`, a nullable value is `Option`. |
| `seqs.dfy` | `Seqs` | `lastOrNull`, `indexOfFirst`, `filter` and `map` over lists. |
| `numeric.dfy` | `Numeric` | Rounding and clamping: `round` (ties to even), `roundToInt` (ties up, saturating), one-decimal rounding, grid snapping, `coerceIn`, `coerceAtLeast`. |
| `text.dfy` | `Text` | `trim`, `lowercase`, `split`, `joinToString`, `toIntOrNull` and `Int.toString`, with their round trip. |
| `scene.dfy` | `Scene` | The hit tests `hallAt`, `anchorAt` and `zoneAt`, the zone containment test, and `zonesInHall`. |
| `export.dfy` | `Export` | `exportRooms` as functions: rooms, anchors, zone groups and the enter/exit/bound slots. Includes the slot-overwriting loop as a method. |
| `state.dfy` | `EditorState` | The state object as a class: `clearAll`, the loaders' field updates and the `exportRooms` loop. |
| `canvas.dfy` | `Canvas` | The canvas handlers as a class over the state: `toScene`, the tap state machine, drag start, the snapped drag step, drag end and the pinch. |
| `json.dfy` | `JsonNames` | Tolerant decoding of the app's records from a parsed JSON value: field aliases, defaults for missing fields and nulls, unknown keys ignored. |
| `fileio.dfy` | `FileIO` | The desktop records, the zone-type labels, state → desktop record, desktop record → state, the fallback to the flat record, and the save/load round trip. |
| `dialogs.dfy` | `Dialogs` | What the hall, anchor and zone dialogs store when "Save" is pressed. |

## Behaviour kept as written

These behaviours are reproduced as the code has them; the lemmas named beside them prove them:

- **Zone Y is read two ways.** The hit test treats a zone's `blY` as an offset up from the hall's bottom edge. Zone creation, drawing, dragging and export treat it as an offset down from the top edge (`Scene.HitIsMirroredDrawnBox`, `Canvas.TappedZoneHitRegion`). A zone drawn in the top half of a hall is not hit where it is drawn (`Scene.DrawnZoneMissed`).
- **AddZone's same-hall check is vacuous.** It compares the hall under the second tap with itself, so two taps in different halls still make a zone (`Canvas.ZoneAcrossHalls`).
- **Rounding.** The export rounds with `kotlin.math.round`, which sends ties to the even neighbour, not away from zero. `Numeric.Round1` and `Numeric.Round1Unique` pin `round1` down exactly, so the anchor at 0.25 m exports x = 0.2, not 0.3 (`Export.AnchorExample`).
- **The desktop load reads only the x scale.** It takes the x scale, else 1 (`FileIO.LoadDesktop`). The fallback `loadFrom` uses x, then y, then 1 (`FileIO.LoadFrom`).
- **Load failures are swallowed.** If neither decode succeeds, the state is unchanged and nothing is reported, not even on total failure (`FileIO.LoadProjectJson`).
- **A flat file may load as a desktop file without its zones and anchor positions.** The desktop decode succeeds on any object whose fields have the right kinds. It does not read the flat record's top-level `zones` (`FileIO.FlatZonesIgnoredByDesktopDecode`). It reads an anchor's position and height only under `x`/`x_px`, `y`/`y_px` and `z`/`z_cm`, while the app writes them as `xScenePx`, `yScenePx` and `zCm`, so every anchor loads at (0, 0), 0 cm high (`FileIO.FlatAnchorLosesPosition`). The loader then never reaches the fallback that would read them correctly.
- **Save then load regroups zones.** The collections do not come back identical. In the code:
  - the zones come back grouped hall by hall;
  - a zone whose hall is missing is lost;
  - a zone whose hall number is shared by several halls comes back once per such hall.

  The model proves exactly this (`FileIO.GroupedCount`). The multiset is equal only when hall numbers are distinct and every zone's hall exists (`FileIO.ZonesRoundTripAsMultiset`).
- **Missing helpers become inputs.** The tap handler calls `addHallByPoints`, `nextZoneNumber` and `nextAnchorNumber`, which the editor does not define. They are function-typed parameters of `OnTap` with no contract. The modes `AddHall`, `AddZone` and `AddAnchor`, which the tap handler switches on but the `ToolMode` enum lacks, are added to `Scene.ToolMode`.

## Model

| member | source | states |
|---|---|---|
| Data.ZoneType.Human | app/src/main/java/com/rg/mapper/android/model/Data.kt:10-14 | no contract of its own; `FileIO.ZoneTypeRoundTrip` states that each kind's label reads back as that kind |
| Seqs.LastWhere | app/src/main/java/com/rg/mapper/android/ui/PlanEditorState.kt:44 | `lastOrNull`: the index of a matching element with no match after it, or -1 exactly when nothing matches |
| Seqs.FirstWhere | app/src/main/java/com/rg/mapper/android/ui/PlanCanvas.kt:196 | `indexOfFirst`: the index of a matching element with no match before it, or -1 exactly when nothing matches |
| Seqs.Filter | app/src/main/java/com/rg/mapper/android/ui/PlanEditorState.kt:49 | `filter`: every kept element comes from the list and matches; every matching element is kept |
| Seqs.MatchIndices | app/src/main/java/com/rg/mapper/android/ui/PlanEditorState.kt:49 | the matching positions, each in range, strictly increasing |
| Seqs.MatchIndicesExact | app/src/main/java/com/rg/mapper/android/ui/PlanEditorState.kt:49 | the listed positions are exactly those whose element matches |
| Seqs.FilterAt | app/src/main/java/com/rg/mapper/android/ui/PlanEditorState.kt:49 | the k-th kept element is the element at the k-th matching position, so `filter` keeps order and repetitions |
| Seqs.LastOfFilter | app/src/main/java/com/rg/mapper/android/ui/PlanEditorState.kt:92-111 | the last element of a filtered list meeting a second test is the last element of the whole list meeting both, and there is none exactly when there is none there |
| Seqs.Map | app/src/main/java/com/rg/mapper/android/util/FileIO.kt:208 | `map`: same length, each element the image of the one at its index |
| Numeric.RoundHalfEven | app/src/main/java/com/rg/mapper/android/ui/PlanEditorState.kt:73 | `round` is the nearest integer, a tie going to the even one |
| Numeric.NearestEvenUnique | app/src/main/java/com/rg/mapper/android/ui/PlanEditorState.kt:73 | that nearest integer, ties to even, is unique, so `round` is fully determined |
| Numeric.RoundHalfEvenOfInt | app/src/main/java/com/rg/mapper/android/ui/PlanEditorState.kt:73 | an integer rounds to itself |
| Numeric.RoundToInt | app/src/main/java/com/rg/mapper/android/ui/Dialogs.kt:94 | `roundToInt`: within (-0.5, 0.5] of an in-range value (ties up); saturates at the `Int` bounds |
| Numeric.RoundToIntOfInt | app/src/main/java/com/rg/mapper/android/ui/Dialogs.kt:94 | a whole number in `Int` range rounds to itself |
| Numeric.Round1 | app/src/main/java/com/rg/mapper/android/ui/PlanEditorState.kt:73 | `round1` is a whole number of tenths, the nearest one to the value with ties to the even tenth (so within 0.05) |
| Numeric.Round1Unique | app/src/main/java/com/rg/mapper/android/ui/PlanEditorState.kt:73 | any whole number of tenths nearest to the value, ties to even, is `round1` of it |
| Numeric.Snap | app/src/main/java/com/rg/mapper/android/ui/PlanCanvas.kt:192 | the drag `snap` is the multiple of the step nearest to the value, a tie going to the even multiple (so at most half a step away); a step that is not positive leaves the value alone |
| Numeric.SnapUnique | app/src/main/java/com/rg/mapper/android/ui/PlanCanvas.kt:192 | any multiple of the step nearest to the value, ties to even, is the snapped value |
| Numeric.SnapIdempotent | app/src/main/java/com/rg/mapper/android/ui/PlanCanvas.kt:192 | snapping twice is snapping once |
| Numeric.SnapOfMultiple | app/src/main/java/com/rg/mapper/android/ui/PlanCanvas.kt:192 | a multiple of the step is a fixed point of `snap` |
| Numeric.CoerceIn | app/src/main/java/com/rg/mapper/android/ui/PlanCanvas.kt:238 | `coerceIn` gives `lo` for a value below the range, `hi` for one above it, and leaves an in-range value alone |
| Numeric.CoerceInInt | app/src/main/java/com/rg/mapper/android/ui/Dialogs.kt:156 | `Int.coerceIn` gives `lo` for a value below the range, `hi` for one above it, and leaves an in-range value alone |
| Numeric.CoerceAtLeast | app/src/main/java/com/rg/mapper/android/ui/Dialogs.kt:45 | `coerceAtLeast` is at least the bound and the value, and is one of them |
| Text.TrimStart | app/src/main/java/com/rg/mapper/android/util/FileIO.kt:151 | the leading-trim is no longer than its input |
| Text.TrimEnd | app/src/main/java/com/rg/mapper/android/util/FileIO.kt:151 | the trailing-trim is no longer than its input |
| Text.Trim | app/src/main/java/com/rg/mapper/android/util/FileIO.kt:151 | `trim` is no longer than its input |
| Text.TrimStartDrops | app/src/main/java/com/rg/mapper/android/util/FileIO.kt:151 | trimming the start drops a whitespace prefix and keeps a suffix that starts with a non-blank |
| Text.TrimEndDrops | app/src/main/java/com/rg/mapper/android/util/FileIO.kt:151 | trimming the end drops a whitespace suffix and keeps a prefix that ends with a non-blank |
| Text.TrimKeeps | app/src/main/java/com/rg/mapper/android/util/FileIO.kt:151 | a string with non-blank ends is its own trim |
| Text.Lowercase | app/src/main/java/com/rg/mapper/android/util/FileIO.kt:151 | `lowercase` keeps the length |
| Text.LowercaseEach | app/src/main/java/com/rg/mapper/android/util/FileIO.kt:151 | `lowercase` maps each character on its own |
| Text.IndexOf | app/src/main/java/com/rg/mapper/android/ui/Dialogs.kt:95 | the first separator's index, none before it; -1 exactly when there is none |
| Text.Split | app/src/main/java/com/rg/mapper/android/ui/Dialogs.kt:95 | `split(',')` gives at least one piece, and no piece holds the separator |
| Text.SplitFirst | app/src/main/java/com/rg/mapper/android/ui/Dialogs.kt:95 | splitting cuts exactly after a separator-free first piece |
| Text.SplitJoin | app/src/main/java/com/rg/mapper/android/ui/Dialogs.kt:95 | splitting what `joinToString` joined gives back the separator-free pieces |
| Text.ToInt32 | app/src/main/java/com/rg/mapper/android/ui/Dialogs.kt:44 | a value is accepted exactly when it fits in `Int`, and is kept |
| Text.ParseInt | app/src/main/java/com/rg/mapper/android/ui/Dialogs.kt:44 | `toIntOrNull` of the empty string is null (its full characterisation is `Text.ParseIntSpec`) |
| Text.ParseIntSpec | app/src/main/java/com/rg/mapper/android/ui/Dialogs.kt:44 | `toIntOrNull` succeeds exactly on an optional sign followed by one or more digits whose value fits in `Int`, and then gives that value |
| Text.Digit | app/src/main/java/com/rg/mapper/android/ui/Dialogs.kt:22 | the digit character has the digit's value |
| Text.NatToString | app/src/main/java/com/rg/mapper/android/ui/Dialogs.kt:22 | a non-negative `toString` is one or more digits |
| Text.IntToString | app/src/main/java/com/rg/mapper/android/ui/Dialogs.kt:75 | `toString` is non-empty and has no comma, so it survives `joinToString(",")` |
| Text.NatToStringValue | app/src/main/java/com/rg/mapper/android/ui/Dialogs.kt:22 | the digits printed for n have value n |
| Text.ParseIntOfString | app/src/main/java/com/rg/mapper/android/ui/Dialogs.kt:22 | `toIntOrNull` reads back what `toString` printed |
| Text.TrimIntToString | app/src/main/java/com/rg/mapper/android/ui/Dialogs.kt:95 | a printed number has no blanks for `trim` to remove |
| Scene.HallAt | app/src/main/java/com/rg/mapper/android/ui/PlanEditorState.kt:43-44 | none exactly when no hall's closed rectangle holds the point; otherwise a hall holding it with no holding hall after it |
| Scene.AnchorAt | app/src/main/java/com/rg/mapper/android/ui/PlanEditorState.kt:46-47 | none exactly when no anchor is within the radius; otherwise one within it with none within it after it |
| Scene.ZonesInHall | app/src/main/java/com/rg/mapper/android/ui/PlanEditorState.kt:49 | the result holds every zone of the hall, and only zones of the list carrying that hall number |
| Scene.ZonesInHallOrder | app/src/main/java/com/rg/mapper/android/ui/PlanEditorState.kt:49 | the k-th zone of the hall is the zone at the k-th position carrying its number: list order and repetitions are kept |
| Scene.FindHall | app/src/main/java/com/rg/mapper/android/ui/PlanEditorState.kt:53 | `find`: none exactly when no hall carries the number; otherwise the first one that does |
| Scene.ZoneAt | app/src/main/java/com/rg/mapper/android/ui/PlanEditorState.kt:51-57 | none exactly when no zone is hit, testing each against the first hall of its number and skipping zones without one; otherwise the last zone hit |
| Scene.PointInsideZone | app/src/main/java/com/rg/mapper/android/ui/PlanEditorState.kt:59-69 | no contract of its own; `Scene.InsideUnrotated` states it at angle 0 as the box measured up from the hall's bottom, and `Scene.HitIsMirroredDrawnBox` relates it to the drawn box |
| Scene.InsideUnrotated | app/src/main/java/com/rg/mapper/android/ui/PlanEditorState.kt:59-69 | at angle 0 the containment test is the box `[hx+blX, hx+blX+w] x [hy+hH-blY-h, hy+hH-blY]`, so `blY` counts up from the hall's bottom |
| Scene.HitIsMirroredDrawnBox | app/src/main/java/com/rg/mapper/android/ui/PlanCanvas.kt:308-316 | at angle 0 the containment test hits exactly the box the canvas draws for the zone with `blY` mirrored to `hH - blY` |
| Scene.DrawnZoneMissed | app/src/main/java/com/rg/mapper/android/ui/PlanEditorState.kt:51-69 | a tap in the middle of a zone's drawn box in the top half of a hall finds no zone |
| Export.Metres | app/src/main/java/com/rg/mapper/android/ui/PlanEditorState.kt:73-81 | pixels to metres at the scale, rounded by `round1`: the nearest tenth, ties to the even tenth |
| Export.ExportAnchorOf | app/src/main/java/com/rg/mapper/android/ui/PlanEditorState.kt:77-90 | id is the number; x, y (flipped against the hall height) and z are each `round1` of their metres, the nearest tenth with ties to even; `bound` is present, and true, exactly when the anchor is bound |
| Export.AnchorsForHall | app/src/main/java/com/rg/mapper/android/ui/PlanEditorState.kt:76 | the hall's anchors are exactly those whose main hall is it or whose extra halls hold it (their order: `Export.RoomAnchorsInOrder`) |
| Export.ZoneRect | app/src/main/java/com/rg/mapper/android/ui/PlanEditorState.kt:99-105 | x, y as `hH - blY`, w and h are each `round1` of their metres, the nearest tenth with ties to even; the angle is the unrounded degrees |
| Export.Put | app/src/main/java/com/rg/mapper/android/ui/PlanEditorState.kt:106-110 | no contract of its own; `Export.FoldSlotsChosen` and `Export.FoldSlotsBound` state what a sequence of `when` branches leaves in the three slots |
| Export.FoldSlots | app/src/main/java/com/rg/mapper/android/ui/PlanEditorState.kt:95-111 | no contract of its own; `Export.FoldSlotsChosen` (last ENTER/BOUND in `enter`, last EXIT in `exit`), `Export.FoldSlotsBound` and `Export.ExportZoneOf` (the loop computes it) state it |
| Export.ZoneRecord | app/src/main/java/com/rg/mapper/android/ui/PlanEditorState.kt:94-113 | no contract of its own; `Export.ExportZoneOf`, `Export.RecordsAt` and `Export.ZoneRecordPerNumber` state it |
| Export.ExportZoneOf | app/src/main/java/com/rg/mapper/android/ui/PlanEditorState.kt:94-113 | the loop overwriting `enter`, `exit` and `bound` computes the group's folded record |
| Export.FoldSlotsChosen | app/src/main/java/com/rg/mapper/android/ui/PlanEditorState.kt:95-111 | `enter` is the last ENTER or BOUND zone's rectangle, `exit` the last EXIT zone's, all-zero when there is none |
| Export.FoldSlotsBound | app/src/main/java/com/rg/mapper/android/ui/PlanEditorState.kt:97-111 | `bound` is true exactly when some zone of the group is BOUND, and absent exactly when none is |
| Export.EnterFromHallList | app/src/main/java/com/rg/mapper/android/ui/PlanEditorState.kt:92-111 | over the hall's whole zone list, a number's `enter` is the rectangle of the last zone of that number that is ENTER or BOUND, all-zero when there is none: later zones overwrite earlier ones |
| Export.ExitFromHallList | app/src/main/java/com/rg/mapper/android/ui/PlanEditorState.kt:92-111 | likewise `exit` is the rectangle of the last EXIT zone of that number in the list, all-zero when there is none |
| Export.EnterAndExit | app/src/main/java/com/rg/mapper/android/ui/PlanEditorState.kt:94-113 | one ENTER and one EXIT zone of a number, in either order, give one record with both rectangles and no `bound` |
| Export.GroupKeys | app/src/main/java/com/rg/mapper/android/ui/PlanEditorState.kt:93 | `groupBy`'s keys are distinct, cover every zone's number, and each is some zone's number |
| Export.FirstOf | app/src/main/java/com/rg/mapper/android/ui/PlanEditorState.kt:93 | the first index carrying the number, or -1 exactly when none does |
| Export.GroupKeysOrdered | app/src/main/java/com/rg/mapper/android/ui/PlanEditorState.kt:93-94 | the groups come in order of first appearance of their numbers |
| Export.Group | app/src/main/java/com/rg/mapper/android/ui/PlanEditorState.kt:92-93 | no contract of its own; it is a `filter`, so `Seqs.FilterAt` gives its order; `Export.EnterFromHallList` and `Export.ExitFromHallList` state the record it yields |
| Export.Records | app/src/main/java/com/rg/mapper/android/ui/PlanEditorState.kt:93-113 | no contract of its own; `Export.RecordsAt` states one record per key, each from that key's group |
| Export.HallZoneRecords | app/src/main/java/com/rg/mapper/android/ui/PlanEditorState.kt:92-113 | no contract of its own; `Export.ExportHallZones` (the loop computes it), `Export.GroupKeysOrdered` and `Export.ZoneRecordPerNumber` state it |
| Export.ExportHallZones | app/src/main/java/com/rg/mapper/android/ui/PlanEditorState.kt:92-113 | the loop over the groups builds the hall's zone records |
| Export.Room | app/src/main/java/com/rg/mapper/android/ui/PlanEditorState.kt:75-119 | no contract of its own; `Export.RoomsShape` and `Export.RoomAnchorsInOrder` state its number and anchors |
| Export.RoomList | app/src/main/java/com/rg/mapper/android/ui/PlanEditorState.kt:75-120 | no contract of its own; `Export.RoomListAt` states one room per hall, the i-th from the i-th hall |
| Export.Rooms | app/src/main/java/com/rg/mapper/android/ui/PlanEditorState.kt:71-122 | no contract of its own; `Export.RoomsShape`, `Export.RoomAnchorsInOrder` and `EditorState.PlanEditorState.ExportRooms` (the loop computes it) state it |
| Export.RoomListAt | app/src/main/java/com/rg/mapper/android/ui/PlanEditorState.kt:75-120 | one room per hall, the i-th built from the i-th hall |
| Export.RoomsShape | app/src/main/java/com/rg/mapper/android/ui/PlanEditorState.kt:75-119 | one room per hall in hall order, numbered as the hall; it lists every anchor serving the hall, and only those |
| Export.RoomAnchorsInOrder | app/src/main/java/com/rg/mapper/android/ui/PlanEditorState.kt:75-90 | the i-th room's anchors are, in list order and with repetitions, the export of each anchor serving the i-th hall |
| Export.RecordsAt | app/src/main/java/com/rg/mapper/android/ui/PlanEditorState.kt:93-113 | one record per zone number, each from the zones sharing that number |
| Export.ZoneRecordPerNumber | app/src/main/java/com/rg/mapper/android/ui/PlanEditorState.kt:92-113 | every zone of a hall is exported in exactly one record: the one of its number, built from its group |
| Export.AnchorExample | app/src/main/java/com/rg/mapper/android/ui/PlanEditorState.kt:78-89 | an anchor at (50, 30) px, 150 cm high, in a 200 x 100 px hall at 2 px/cm exports as (0.2, 0.4, 1.5) with no `bound` |
| EditorState.PlanEditorState.constructor | app/src/main/java/com/rg/mapper/android/ui/PlanEditorState.kt:21-36 | a new editor has scale 1, a 20 cm grid, no calibration, empty lists, no locks, Cursor mode, no selection and no pending tap |
| EditorState.PlanEditorState.ClearAll | app/src/main/java/com/rg/mapper/android/ui/PlanEditorState.kt:38-41 | the lists are emptied and the selection and pending tap reset; scale, grid, calibration, locks and mode stay |
| EditorState.PlanEditorState.Fill | app/src/main/java/com/rg/mapper/android/util/FileIO.kt:184-196 | the loaders' assignments: scale, grid, locks and lists as given, grid calibrated, mode, selection and pending tap kept |
| EditorState.PlanEditorState.ExportRooms | app/src/main/java/com/rg/mapper/android/ui/PlanEditorState.kt:71-122 | the loop over the halls returns the export configuration of the current state |
| Canvas.SceneOf | app/src/main/java/com/rg/mapper/android/ui/PlanCanvas.kt:50-51 | `toScene` gives the scene point that the drawing transform puts at the screen point |
| Canvas.SceneOfScreen | app/src/main/java/com/rg/mapper/android/ui/PlanCanvas.kt:254-256 | `toScene` undoes the drawing transform |
| Canvas.Pinch | app/src/main/java/com/rg/mapper/android/ui/PlanCanvas.kt:236-250 | the new scale is `old * zoom` clamped to [0.2, 8]: 0.2 when `old * zoom` falls below 0.2, 8 when it exceeds 8, and exactly `old * zoom` in between |
| Canvas.PinchKeepsFocus | app/src/main/java/com/rg/mapper/android/ui/PlanCanvas.kt:242-246 | the scene point under the centroid after the pan stays under the centroid after the zoom |
| Canvas.TappedZone | app/src/main/java/com/rg/mapper/android/ui/PlanCanvas.kt:113-126 | the new zone is in the hall, numbered as given, ENTER, angle 0, with non-negative size, and its drawn box is exactly the box the two taps span |
| Canvas.TappedAnchor | app/src/main/java/com/rg/mapper/android/ui/PlanCanvas.kt:137-144 | the new anchor is at the tap, 0 cm high, with the tapped hall as main hall, no extra halls and not bound |
| Canvas.DragTarget | app/src/main/java/com/rg/mapper/android/ui/PlanCanvas.kt:164-177 | an unlocked anchor under the point is grabbed first; failing that, an unlocked zone under it; failing that, an unlocked hall under it; nothing exactly when none of these is there. The anchor, zone and hall are the hit tests' (the last one found) |
| Canvas.StepPx | app/src/main/java/com/rg/mapper/android/ui/PlanCanvas.kt:191 | no contract of its own; the grid step in scene pixels, `pixelPerCm * gridStepCm`; `Canvas.PlanCanvas.OnDrag` snaps with it |
| Canvas.MovedAnchor | app/src/main/java/com/rg/mapper/android/ui/PlanCanvas.kt:195-203 | only the position changes, each coordinate to the multiple of the step nearest to position + delta, ties to even (plain position + delta when the step is not positive) |
| Canvas.MovedHall | app/src/main/java/com/rg/mapper/android/ui/PlanCanvas.kt:205-214 | only the corner changes, each coordinate to the multiple of the step nearest to corner + delta, ties to even; the size is kept |
| Canvas.MovedZone | app/src/main/java/com/rg/mapper/android/ui/PlanCanvas.kt:215-224 | only the offset changes, Y downwards, each coordinate to the multiple of the step nearest to offset + delta, ties to even |
| Canvas.DraggedAnchors | app/src/main/java/com/rg/mapper/android/ui/PlanCanvas.kt:195-204 | same length; the first anchor with the number is moved, and every other anchor is kept |
| Canvas.DraggedHalls | app/src/main/java/com/rg/mapper/android/ui/PlanCanvas.kt:205-214 | same length; the first hall with the number is moved, and every other hall is kept |
| Canvas.DraggedZones | app/src/main/java/com/rg/mapper/android/ui/PlanCanvas.kt:215-225 | same length; the first zone with the (hall, zone) key is moved, whatever its type, and every other zone is kept |
| Canvas.PlanCanvas.constructor | app/src/main/java/com/rg/mapper/android/ui/PlanCanvas.kt:47-56 | the canvas starts at scale 1, no translation, not dragging or panning |
| Canvas.PlanCanvas.ToScene | app/src/main/java/com/rg/mapper/android/ui/PlanCanvas.kt:50-51 | the scene point the canvas draws at the screen point |
| Canvas.PlanCanvas.OnTap | app/src/main/java/com/rg/mapper/android/ui/PlanCanvas.kt:92-150 | the tap state machine per mode: Cursor ignores; Calibrate stores the point and, on a second tap, calls the editor; AddHall is gated on calibration and adds a hall on the second tap; AddZone and AddAnchor as below; only that mode's list changes |
| Canvas.PlanCanvas.TapAddZone | app/src/main/java/com/rg/mapper/android/ui/PlanCanvas.kt:109-135 | outside every hall nothing changes; the first tap is stored; the second appends the spanned zone, selects it and clears the pending tap |
| Canvas.PlanCanvas.TapAddAnchor | app/src/main/java/com/rg/mapper/android/ui/PlanCanvas.kt:136-148 | outside every hall nothing changes; inside one, an anchor is appended at the tap and selected |
| Canvas.PlanCanvas.OnDragStart | app/src/main/java/com/rg/mapper/android/ui/PlanCanvas.kt:159-178 | in Cursor mode the drag target is grabbed; with no target, or outside Cursor mode, the gesture pans |
| Canvas.PlanCanvas.OnDrag | app/src/main/java/com/rg/mapper/android/ui/PlanCanvas.kt:180-228 | a pan moves the translation by the screen delta; a grab moves the grabbed entity by delta / scale, snapped; otherwise nothing changes |
| Canvas.PlanCanvas.MoveEntity | app/src/main/java/com/rg/mapper/android/ui/PlanCanvas.kt:189-227 | the anchor, hall or zone list is replaced by its dragged version as the selection says; everything else is kept |
| Canvas.PlanCanvas.OnDragEnd | app/src/main/java/com/rg/mapper/android/ui/PlanCanvas.kt:229-230 | the drag state is reset; the view is kept |
| Canvas.PlanCanvas.OnTransform | app/src/main/java/com/rg/mapper/android/ui/PlanCanvas.kt:236-250 | the handler's updates of scale and translation are the pinch step, so the new scale is `old * zoom` clamped to the bound it crosses |
| Canvas.LockedAnchorsStay | app/src/main/java/com/rg/mapper/android/ui/PlanCanvas.kt:166 | with anchors locked, no anchor is ever grabbed |
| Canvas.TappedAnchorInItsHall | app/src/main/java/com/rg/mapper/android/ui/PlanCanvas.kt:137-144 | a tapped anchor's main hall is the hall found at its own position |
| Canvas.TappedZoneHitRegion | app/src/main/java/com/rg/mapper/android/ui/PlanCanvas.kt:113-126 | a tapped zone is hit where the zone with mirrored `blY` would be drawn |
| Canvas.ZoneAcrossHalls | app/src/main/java/com/rg/mapper/android/ui/PlanCanvas.kt:109-115 | taps in two different halls make a zone in the second hall, with its corner outside that hall |
| JsonNames.Member | app/src/main/java/com/rg/mapper/android/model/Data.kt:18-35 | a field is found exactly when some member's key is one of its names |
| JsonNames.MemberIsLast | app/src/main/java/com/rg/mapper/android/model/Data.kt:18-35 | the value read is that of the last member under any of the names |
| JsonNames.DecodeAll | app/src/main/java/com/rg/mapper/android/model/Data.kt:110-112 | a decoded list has one element per item, each that item's decode |
| JsonNames.DecodeHall | app/src/main/java/com/rg/mapper/android/model/Data.kt:17-38 | no contract of its own; `JsonNames.EmptyObjectDecodesToDefaults`, `JsonNames.HallWidthAliases` and `JsonNames.LaterAliasWins` state its defaults and aliases |
| JsonNames.DecodeZone | app/src/main/java/com/rg/mapper/android/model/Data.kt:39-67 | no contract of its own; `JsonNames.EmptyObjectDecodesToDefaults` states its defaults |
| JsonNames.DecodeAnchor | app/src/main/java/com/rg/mapper/android/model/Data.kt:68-91 | no contract of its own; `JsonNames.EmptyObjectDecodesToDefaults` states its defaults |
| JsonNames.DecodeProjectSave | app/src/main/java/com/rg/mapper/android/model/Data.kt:92-113 | no contract of its own; `JsonNames.EmptyObjectDecodesToDefaults` and `JsonNames.ScaleAliases` state its defaults and aliases; `FileIO.LoadProjectJson` states how its result is loaded |
| JsonNames.MemberSkips | app/src/main/java/com/rg/mapper/android/util/FileIO.kt:31 | an unknown key does not change what a field reads |
| JsonNames.EmptyObjectDecodesToDefaults | app/src/main/java/com/rg/mapper/android/model/Data.kt:16-113 | an empty object decodes to the default hall, zone, anchor and project record |
| JsonNames.HallWidthAliases | app/src/main/java/com/rg/mapper/android/model/Data.kt:31-32 | a hall's width is read under `wPx`, `w_px`, `width` or `w` |
| JsonNames.ScaleAliases | app/src/main/java/com/rg/mapper/android/model/Data.kt:97-98 | the x scale is read under each of its names, `pixel_per_cm` included |
| JsonNames.LaterAliasWins | app/src/main/java/com/rg/mapper/android/model/Data.kt:31-32 | with two aliases of one field present, the later one is read |
| FileIO.ToZoneType | app/src/main/java/com/rg/mapper/android/util/FileIO.kt:151-156 | no contract of its own; `FileIO.KnownLabel`, `FileIO.UnknownLabelIsEnter` and `FileIO.ZoneTypeRoundTrip` state it |
| FileIO.ToDesktopString | app/src/main/java/com/rg/mapper/android/util/FileIO.kt:157-161 | no contract of its own; `FileIO.ZoneTypeRoundTrip` states that `toZoneType` reads it back |
| FileIO.LookupFinds | app/src/main/java/com/rg/mapper/android/util/FileIO.kt:151-156 | a label matches the first branch that lists it |
| FileIO.LookupMisses | app/src/main/java/com/rg/mapper/android/util/FileIO.kt:155 | a label that no branch lists gives ENTER |
| FileIO.ZoneTypeRoundTrip | app/src/main/java/com/rg/mapper/android/util/FileIO.kt:151-161 | `toZoneType(toDesktopString(t)) == t` for every kind |
| FileIO.KnownLabel | app/src/main/java/com/rg/mapper/android/util/FileIO.kt:151-156 | a label with non-blank ends whose lower case is a known label gets that label's kind |
| FileIO.UnknownLabelIsEnter | app/src/main/java/com/rg/mapper/android/util/FileIO.kt:151-156 | any label whose trimmed lower case is unknown gives ENTER |
| FileIO.ZoneTypeIgnoresCaseAndBlanks | app/src/main/java/com/rg/mapper/android/util/FileIO.kt:151-153 | `" Exit"` reads as EXIT |
| FileIO.DecodeDZone | app/src/main/java/com/rg/mapper/android/util/FileIO.kt:40-65 | no contract of its own; `FileIO.EmptyObjectDecodesToDesktopDefaults` and `FileIO.ZoneNumberAliases` state its defaults and aliases |
| FileIO.DecodeDHall | app/src/main/java/com/rg/mapper/android/util/FileIO.kt:66-83 | no contract of its own; `FileIO.EmptyObjectDecodesToDesktopDefaults` states its defaults |
| FileIO.DecodeDAnchor | app/src/main/java/com/rg/mapper/android/util/FileIO.kt:84-103 | no contract of its own; `FileIO.EmptyObjectDecodesToDesktopDefaults` and `FileIO.FlatAnchorLosesPosition` state its defaults and the names it reads |
| FileIO.DecodeDProject | app/src/main/java/com/rg/mapper/android/util/FileIO.kt:104-115 | no contract of its own; `FileIO.EmptyObjectDecodesToDesktopDefaults` and `FileIO.FlatZonesIgnoredByDesktopDecode` state it; `FileIO.LoadProjectJson` states how its result is loaded |
| FileIO.EmptyObjectDecodesToDesktopDefaults | app/src/main/java/com/rg/mapper/android/util/FileIO.kt:40-115 | an empty object decodes to the desktop defaults: ENTER label, scale 1, 20 cm grid, no locks, empty lists, null `bound` |
| FileIO.ZoneNumberAliases | app/src/main/java/com/rg/mapper/android/util/FileIO.kt:42-43 | a desktop zone's number is read under each of its six names |
| FileIO.FlatZonesIgnoredByDesktopDecode | app/src/main/java/com/rg/mapper/android/util/FileIO.kt:254-319 | a top-level `zones` member changes nothing in the desktop decode |
| FileIO.FlatAnchorLosesPosition | app/src/main/java/com/rg/mapper/android/util/FileIO.kt:84-95 | an anchor written under the app's own field names and read as a desktop anchor loads at (0, 0) and 0 cm high, since the desktop position and height names are none of them |
| FileIO.DZoneOf | app/src/main/java/com/rg/mapper/android/util/FileIO.kt:209-220 | no contract of its own; `FileIO.HallZonesRoundTrip` and `FileIO.SaveLoadRoundTrip` state that the loader reads it back |
| FileIO.DHallOf | app/src/main/java/com/rg/mapper/android/util/FileIO.kt:208-227 | no contract of its own; `FileIO.HallZonesRoundTrip` and `FileIO.LoadedZonesOfSaved` state that its nested zones load back as that hall's zones |
| FileIO.DAnchorOf | app/src/main/java/com/rg/mapper/android/util/FileIO.kt:228-234 | `bound` is written as true or left null |
| FileIO.ToProjectJson | app/src/main/java/com/rg/mapper/android/util/FileIO.kt:207-247 | the scale goes to both axes; one desktop hall per hall and one desktop anchor per anchor |
| FileIO.ToProjectSave | app/src/main/java/com/rg/mapper/android/util/FileIO.kt:166-177 | the picture text; the scale to both axes; the grid step and the three locks as they are; the three lists copied as they are |
| FileIO.HallOfD | app/src/main/java/com/rg/mapper/android/util/FileIO.kt:268-276 | no contract of its own; `FileIO.LoadedHalls` and `FileIO.SaveLoadRoundTrip` state it |
| FileIO.LoadedHalls | app/src/main/java/com/rg/mapper/android/util/FileIO.kt:268-276 | one hall per desktop hall, in order, field for field |
| FileIO.ZoneOfD | app/src/main/java/com/rg/mapper/android/util/FileIO.kt:279-294 | no contract of its own; `FileIO.HallZones` states it; `FileIO.HallZonesRoundTrip` reads a saved zone back |
| FileIO.HallZones | app/src/main/java/com/rg/mapper/android/util/FileIO.kt:279-294 | one zone per nested zone, in order, in the enclosing hall, geometry copied without a Y flip |
| FileIO.AnchorOfD | app/src/main/java/com/rg/mapper/android/util/FileIO.kt:297-309 | no contract of its own; `FileIO.LoadedAnchors` states it, a null `bound` read as false |
| FileIO.LoadedAnchors | app/src/main/java/com/rg/mapper/android/util/FileIO.kt:297-309 | one anchor per desktop anchor, in order, a null `bound` read as false |
| FileIO.LoadedZones | app/src/main/java/com/rg/mapper/android/util/FileIO.kt:279-294 | no contract of its own; `FileIO.ReadZones` (the loop computes it), `FileIO.LoadedZonesOfSaved` and `FileIO.GroupedCount` state it |
| FileIO.LoadFrom | app/src/main/java/com/rg/mapper/android/util/FileIO.kt:179-197 | the state is replaced by the flat record's contents: scale from x, else y, else 1; grid step, else 20; locks; lists; calibrated |
| FileIO.ReadHalls | app/src/main/java/com/rg/mapper/android/util/FileIO.kt:268-276 | the loop adding halls builds the loaded halls |
| FileIO.ReadHallZones | app/src/main/java/com/rg/mapper/android/util/FileIO.kt:280-293 | the inner loop adding one hall's zones builds that hall's loaded zones |
| FileIO.ReadZones | app/src/main/java/com/rg/mapper/android/util/FileIO.kt:279-294 | the outer loop builds the zones hall by hall |
| FileIO.ReadAnchors | app/src/main/java/com/rg/mapper/android/util/FileIO.kt:297-309 | the loop adding anchors builds the loaded anchors |
| FileIO.LoadDesktop | app/src/main/java/com/rg/mapper/android/util/FileIO.kt:256-311 | the state is replaced by the desktop record's contents: scale from x only, else 1; grid step, else 20; locks; halls, zones and anchors; calibrated |
| FileIO.LoadProjectJson | app/src/main/java/com/rg/mapper/android/util/FileIO.kt:250-320 | blank text changes nothing; a desktop record is loaded; failing that, a flat record; failing both, nothing changes |
| FileIO.HallZonesRoundTrip | app/src/main/java/com/rg/mapper/android/util/FileIO.kt:208-220 | the zones nested under a saved hall load back as that hall's zones |
| FileIO.LoadedZonesOfSaved | app/src/main/java/com/rg/mapper/android/util/FileIO.kt:208-227 | the zones of a saved record load back grouped hall by hall |
| FileIO.SaveLoadRoundTrip | app/src/main/java/com/rg/mapper/android/util/FileIO.kt:207-311 | save then load gives back the halls and anchors, the scale, the locks, the grid step when positive, and the zones grouped by hall |
| FileIO.FlatSaveLoadRoundTrip | app/src/main/java/com/rg/mapper/android/util/FileIO.kt:166-196 | the app's own record loaded back gives the same lists, scale and locks, and the grid step when it is positive |
| FileIO.ZonesInHallCount | app/src/main/java/com/rg/mapper/android/util/FileIO.kt:209 | a hall's filter keeps every copy of that hall's zones and nothing else |
| FileIO.GroupedCount | app/src/main/java/com/rg/mapper/android/util/FileIO.kt:208-227 | each zone comes back once per hall with its hall number |
| FileIO.HallCountDistinct | app/src/main/java/com/rg/mapper/android/util/FileIO.kt:208-209 | with distinct hall numbers, a number is carried by one hall if found, else none |
| FileIO.ZonesRoundTripAsMultiset | app/src/main/java/com/rg/mapper/android/util/FileIO.kt:207-294 | with distinct hall numbers and every zone's hall present, the zones come back exactly, reordered |
| Dialogs.PxPerMeter | app/src/main/java/com/rg/mapper/android/ui/Dialogs.kt:21 | 100 times the scale when positive, else 100; always positive |
| Dialogs.LengthPx | app/src/main/java/com/rg/mapper/android/ui/Dialogs.kt:45-52 | an unparsed field keeps the stored pixels; a parsed one stores `max(typed, clamp)` metres in pixels |
| Dialogs.NumberOr | app/src/main/java/com/rg/mapper/android/ui/Dialogs.kt:44 | the parsed number, else the previous one |
| Dialogs.ApplyHall | app/src/main/java/com/rg/mapper/android/ui/Dialogs.kt:43-53 | number and name as typed; each unparsed length kept; each parsed one stored as `max(typed, 0)` m for the corner and `max(typed, 0.1)` m for the size, in pixels |
| Dialogs.HallDialogRoundTrip | app/src/main/java/com/rg/mapper/android/ui/Dialogs.kt:22-53 | saving the fields as shown gives back a hall that meets the clamps |
| Dialogs.MetresBack | app/src/main/java/com/rg/mapper/android/ui/Dialogs.kt:24-52 | a stored length at or above the clamp, shown in metres and typed back, is stored unchanged |
| Dialogs.ParseExtraHalls | app/src/main/java/com/rg/mapper/android/ui/Dialogs.kt:95 | no contract of its own; `Dialogs.ExtraHallsRoundTrip`, `Dialogs.IntegerPieceKept`, `Dialogs.JunkPieceDropped` and `Dialogs.BlankPieceDropped` state it |
| Dialogs.IntegersOf | app/src/main/java/com/rg/mapper/android/ui/Dialogs.kt:95 | `mapNotNull` yields at most one number per piece, in piece order (`Dialogs.IntegerPieceKept`) |
| Dialogs.PieceInteger | app/src/main/java/com/rg/mapper/android/ui/Dialogs.kt:95 | one piece yields at most one number (which one: `Dialogs.PieceIntegerValue`) |
| Dialogs.PieceIntegerValue | app/src/main/java/com/rg/mapper/android/ui/Dialogs.kt:95 | a piece yields a number exactly when its trimmed text is an optional sign and digits whose value fits in `Int`, and that number is the value |
| Dialogs.ExtraHallsText | app/src/main/java/com/rg/mapper/android/ui/Dialogs.kt:75 | no contract of its own; `Dialogs.ExtraHallsRoundTrip` states that `ParseExtraHalls` reads it back |
| Dialogs.NumberTexts | app/src/main/java/com/rg/mapper/android/ui/Dialogs.kt:75 | each extra hall printed on its own |
| Dialogs.IntegersOfNumbers | app/src/main/java/com/rg/mapper/android/ui/Dialogs.kt:75-95 | parsing printed numbers gives them back |
| Dialogs.ExtraHallsRoundTrip | app/src/main/java/com/rg/mapper/android/ui/Dialogs.kt:75-95 | the extra halls read back from the field's initial text are the anchor's extra halls, the empty list included |
| Dialogs.IntegersOfAppend | app/src/main/java/com/rg/mapper/android/ui/Dialogs.kt:95 | the pieces are read independently of each other |
| Dialogs.JunkPieceDropped | app/src/main/java/com/rg/mapper/android/ui/Dialogs.kt:95 | a piece that is not an integer once trimmed is dropped without disturbing the others |
| Dialogs.BlankPieceDropped | app/src/main/java/com/rg/mapper/android/ui/Dialogs.kt:95 | an empty piece, as between two commas, is dropped |
| Dialogs.IntegerPieceKept | app/src/main/java/com/rg/mapper/android/ui/Dialogs.kt:95 | a piece that is an in-range integer once trimmed contributes its value at its own place among the others |
| Dialogs.PlainLengthPx | app/src/main/java/com/rg/mapper/android/ui/Dialogs.kt:96-102 | an anchor coordinate is the typed metres in pixels, unclamped, else the stored value |
| Dialogs.HeightCm | app/src/main/java/com/rg/mapper/android/ui/Dialogs.kt:94 | an unparsed height keeps the stored centimetres; a parsed one is the typed metres in centimetres rounded with ties up, saturating at the `Int` bounds |
| Dialogs.ApplyAnchor | app/src/main/java/com/rg/mapper/android/ui/Dialogs.kt:92-107 | the number, unclamped x and y, the height, the parsed extra halls, the bound flag, and the main hall kept when set, else the default hall |
| Dialogs.AnchorDialogRoundTrip | app/src/main/java/com/rg/mapper/android/ui/Dialogs.kt:71-107 | saving the fields as shown gives back an anchor that has a main hall |
| Dialogs.NewAnchorTakesDefaultHall | app/src/main/java/com/rg/mapper/android/ui/Dialogs.kt:106 | an anchor without a main hall takes the default hall and nothing else changes |
| Dialogs.ApplyZone | app/src/main/java/com/rg/mapper/android/ui/Dialogs.kt:154-170 | the hall is kept; the chosen kind; an unparsed angle kept, a parsed one clamped to [-90, 90] (below -90 gives -90, above 90 gives 90); each unparsed length kept; each parsed one stored as `max(typed, 0)` m for the offset and `max(typed, 0.1)` m for the size, in pixels |
| Dialogs.ZoneDialogRoundTrip | app/src/main/java/com/rg/mapper/android/ui/Dialogs.kt:125-170 | saving the fields as shown gives back a zone that meets the clamps |

## Left out

- Drawing, gesture detection and Compose state observation: these are UI framework. The handlers are plain methods that take the gesture's points, and the drawn zone box appears only as the predicate `Scene.InDrawnBox`.
- Long press and the edit callback: `OnTap` returns the selection it would pass to `onLongPressEdit` instead of calling it.
- Trigonometry: `zoneAt` and the drag start take a function `trig` from an angle in degrees to its (cos, sin) pair. Facts about the containment test are stated for angle 0.
- `addHallByPoints`, `nextZoneNumber` and `nextAnchorNumber`: no body exists for them, so they are parameters with no contract.
- `Float`: it is modelled as `real`, so rounding error of 32-bit floats is not modelled. `toFloatOrNull` is not modelled either: each dialog length field is given as its parsed value, `None` when the text is not a number.
- The `%.2f` and `%.1f` formatting of dialog fields: the round-trip lemmas type back the exact metres, not their two-decimal text.
- JSON text: it is neither parsed nor printed. `LoadProjectJson` takes the parsed value beside the text (`None` for text that is not JSON), and `ToProjectJson` returns the record the text would hold. Under duplicate keys the later member is read; this follows the library's object reader as an assumption, not a proven fact.
- Bitmaps, PNG and Base64: the background picture is an opaque string (`image`). `background`, `bgWidthPx` and `bgHeightPx` are not fields of the model. FileIO.LoadDesktop, FileIO.LoadFrom and FileIO.LoadProjectJson therefore do not capture an `image_data` that is not valid Base64: the decode throws after `clearAll`, leaving the editor empty. In the desktop branch the exception escapes, and the caller reports a load error. In the fallback, `runCatching` swallows it silently. `HoldsDesktop` and `HoldsSave` describe a full load in both cases.
- `writeTextToUri` and `readTextFromUri`: storage I/O.
- `toExportJson`: it only prints `exportRooms` as JSON text.
- `Text.Lowercase` covers ASCII, Latin-1 and Cyrillic capitals only. That is enough for every label `toZoneType` knows, but not for the whole of Unicode.
- `Text.ParseInt` reads an optional sign and ASCII digits only. Kotlin's `toIntOrNull` also accepts the other Unicode decimal digits (Arabic-Indic, Devanagari and so on); typed into a dialog, those are read by the app but rejected by the model.
- JsonNames.DecodeProjectSave and the other decoders: a member whose JSON kind does not match its field fails the decode. The library's relaxed reader also takes a quoted number for a numeric field and, being lenient, an unquoted literal for a string field; those coercions are not modelled.
- Canvas.PlanCanvas.OnTap: the Calibrate branch stores the point but computes no scale, as in the code; there is no calibration computation to model.
