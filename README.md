# Chip-manufacturing game: the logic behind the screens

This project models the game's click-driven logic in Dafny and proves its properties. Each screen's state machine and pure derivation is modelled:

- **Schematic canvas** (`Schematic`, `schematic_canvas.dfy`):
  - three fixed, ordered scene tables: 26 wires, 18 gates and 7 label boxes, each entry tagged with the stage from which it is drawn;
  - the chip coordinate map;
  - the command list one redraw issues to the 2D context, with a `Context` class that records the calls and draw methods proved to issue exactly that list;
  - the clamped wheel zoom held by the canvas component.
- **Step 1** (`StepOne`, `step1.dfy`):
  - the reveal counter 0..10 with its guarded increment;
  - the progress percentage, the last-stage gate and the fireworks flag;
  - the reset on coming back from step 2, which remounts the canvas.
- **Step 3** (`StepThree`, `step3.dfy`):
  - the six-stage build table;
  - the percent-to-world conversions;
  - the block a spawn adds and the animation it registers;
  - the draw button, which appends exactly the next stage's blocks while a block group exists.
- **Opening quiz** (`MainFirst`, `mainfirst.dfy`):
  - twenty items and the boolean selection with its toggle;
  - the marked count;
  - the correct and wrong name lists;
  - the red-bubble rule;
  - the wiring of the object-picker popup.
- **Object-picker popup** (`Popup`, `pop_up.dfy`):
  - the chip-capable filter;
  - the nullable picked index;
  - the guarded Next.
- **Shared helpers** (`Common`, `common.dfy`):
  - an `Option` for JavaScript's `null`;
  - the item record;
  - counting and filtering by a row of boolean marks, the model of `filter(...)` keyed on a per-position flag.

Component state that handlers update becomes a class whose methods state the whole new state: `Steps`, `Step3`, `ChipPopup`, `MainFirstScreen`, `SchematicCanvas` and `Context`. Derived values and tables are functions, and their properties are lemmas.

Conventions:
- Zoom is held in integer tenths, 5..30, starting at 10, so the 0.1 steps are exact.
- Coordinates and percentages are `real`.
- The drawing surface's size is a parameter, as the frame reads it from the canvas.
- JavaScript `Math.round` is `floor(x + 0.5)`.
- A missing `hasChip` counts as "no chip" for the quiz lists and the red bubble, which test its truthiness. The popup keeps such an item, because it only drops an explicit `false`.
- The wire table has 26 entries, as in the code (`src/components/SchematicCanvas.jsx:285-534`).

## Model

| member | source | states |
|---|---|---|
| Common.CountTrue | src/components/mainfirst.jsx:50 | The number of set marks (`foundCount`) never exceeds the number of items. |
| Common.CountTrueExtremes | src/components/mainfirst.jsx:50 | The count is 0 exactly when no mark is set, and equals the length exactly when every mark is set. |
| Common.CountTrueFlip | src/components/mainfirst.jsx:41-47 | Flipping one mark changes the count by exactly one: down if it was set, up if not. |
| Common.TrueIndices | src/components/mainfirst.jsx:53-59 | The positions a `filter((item, idx) => …)` keeps: exactly the marked positions, each once, in increasing order; as many as there are marks. |
| Common.Kept | src/components/pop-up.jsx:29-31 | A filter keeps as many elements as there are set marks. |
| Common.KeptMembers | src/components/pop-up.jsx:29-31 | Every element at a marked position is kept, and every kept element sits at some marked position. |
| Common.CountTrueSplit | src/components/mainfirst.jsx:53-59 | The selections with a chip plus the selections without one are all the selections. |
| Common.CountTrueAtMostOne | src/components/pop-up.jsx:98-99 | A row in which only position `j` can be set has one mark if `j` is in range and none otherwise. |
| Common.HasChip | src/components/mainfirst.jsx:54 | Definition: JavaScript truthiness of `hasChip`, true only for an explicit `true`. Used by `MainFirst.ChipMarks` and `MainFirst.IsWrong`. |
| Common.Pick | src/components/pop-up.jsx:29-31 | Definition: the entries at a list of positions, in that order. `Common.Kept` picks at `TrueIndices`; what the filter keeps is characterised by `KeptMembers` and `CountTrueSplit`. |
| Common.AndMarks | src/components/mainfirst.jsx:54 | Definition: the per-position test `selected[idx] && item.hasChip` of the correct-list filter. Characterised by `CountTrueSplit` and `MainFirst.CorrectNamesMembers`. |
| Common.AndNotMarks | src/components/mainfirst.jsx:58 | Definition: the per-position test `selected[idx] && !item.hasChip` of the wrong-list filter. Characterised by `CountTrueSplit` and `MainFirst.WrongNamesMembers`. |
| Schematic.Center | src/components/SchematicCanvas.jsx:198-199 | Definition: the surface centre `(cx, cy)` = (width/2, height/2). Used by `ChipToCanvasAnchors`. |
| Schematic.ChipLeft | src/components/SchematicCanvas.jsx:200 | Definition: `chipLeft = cx - chipW/2`, the chip rectangle's left edge. Used by `ChipToCanvas` and `ChipToCanvasAnchors`. |
| Schematic.ChipTop | src/components/SchematicCanvas.jsx:201 | Definition: `chipTop = cy - chipH/2`, the chip rectangle's top edge. Used by `ChipToCanvas` and `ChipToCanvasAnchors`. |
| Schematic.ChipToCanvas | src/components/SchematicCanvas.jsx:230-239 | Normalized coordinates in [-1, 1] land inside the chip rectangle inset by 10% on each side. |
| Schematic.ChipToCanvasAnchors | src/components/SchematicCanvas.jsx:230-239 | (-1,-1) maps to (chipLeft+80, chipTop+50), (1,1) to (chipLeft+720, chipTop+450) and (0,0) to the chip centre. |
| Schematic.ChipToCanvasAffine | src/components/SchematicCanvas.jsx:230-239 | The map is affine: the point a fraction t along a segment maps to the point a fraction t along the image segment. |
| Schematic.Gates | src/components/SchematicCanvas.jsx:246-269 | Definition: the 18 gates with variant, position and threshold. Characterised by `GatesWellFormed`. |
| Schematic.Labels | src/components/SchematicCanvas.jsx:272-282 | Definition: the 7 label boxes with text, position, colour and threshold. Characterised by `LabelsWellFormed`. |
| Schematic.Wires | src/components/SchematicCanvas.jsx:285-534 | Definition: the 26 wires with colour, points and threshold, in draw order. Characterised by `WiresWellFormed`. |
| Schematic.Visible | src/components/SchematicCanvas.jsx:538 | Definition: an entry is drawn at `stage` when `stage >= minStage`, the test of all three loops. Characterised by `ShownMembers`. |
| Schematic.VariantOf | src/components/SchematicCanvas.jsx:45-122 | Definition: `drawGate`'s dispatch on the variant code, 0 the AND icon, 1 the NOT icon, anything else the IC block. |
| Schematic.WiresWellFormed | src/components/SchematicCanvas.jsx:285-534 | There are 26 wires, each with at least two points and a threshold between 1 and 10. |
| Schematic.GatesWellFormed | src/components/SchematicCanvas.jsx:246-269 | There are 18 gates, each of variant 0 or 1, with a threshold between 1 and 10. |
| Schematic.LabelsWellFormed | src/components/SchematicCanvas.jsx:272-282 | There are 7 label boxes, each with a threshold between 1 and 10. |
| Schematic.Revealed | src/components/SchematicCanvas.jsx:537-559 | The indices a draw loop visits: in range, strictly increasing, and containing an index exactly when `stage >= minStage` for that entry. |
| Schematic.Shown | src/components/SchematicCanvas.jsx:537-559 | A filtered table is never longer than the table. |
| Schematic.ShownMembers | src/components/SchematicCanvas.jsx:537-559 | An entity is drawn exactly when it is in the table and `stage >= minStage`. |
| Schematic.ShownInTableOrder | src/components/SchematicCanvas.jsx:537-559 | The drawn entries are the table's entries at the revealed indices, in table order. |
| Schematic.ShownMonotone | src/components/SchematicCanvas.jsx:537-559 | Filtering a later stage's entries back to an earlier stage gives exactly the earlier stage's list. Revealing never reorders. |
| Schematic.ShownGrows | src/components/SchematicCanvas.jsx:537-559 | Anything drawn at stage s1 is still drawn at every stage s2 >= s1, and the list does not shrink. |
| Schematic.ShownSnoc | src/components/SchematicCanvas.jsx:537-541 | Appending one entry to the table appends it to the drawn list exactly when it is visible. |
| Schematic.ShownAll | src/components/SchematicCanvas.jsx:537-559 | When every threshold is reached, the whole table is drawn in order. |
| Schematic.ShownNone | src/components/SchematicCanvas.jsx:537-559 | When no threshold is reached, nothing of the table is drawn. |
| Schematic.ToCanvas | src/components/SchematicCanvas.jsx:539 | `w.pts.map(chipToCanvas)`: one mapped point per point, the i-th being `ChipToCanvas` of the i-th. |
| Schematic.LineTos | src/components/SchematicCanvas.jsx:176-178 | One `lineTo` per point. |
| Schematic.LineTosAt | src/components/SchematicCanvas.jsx:176-178 | The i-th `lineTo` goes to the i-th point. |
| Schematic.WirePolyline | src/components/SchematicCanvas.jsx:168-181 | Definition: the calls of `drawWirePolyline`. Characterised by `WirePolylinePath`, `WirePolylineTargets` and `RenderBalanced`; `DrawWirePolyline` is proved to issue it. |
| Schematic.PenDown | src/components/SchematicCanvas.jsx:170-174 | Definition: save, begin the path and set the wire's stroke. |
| Schematic.Render | src/components/SchematicCanvas.jsx:537-559 | Definition: the calls drawing one table entry at its mapped position. Characterised by `RenderBalanced`, `RenderLayer` and `WireDrawnThroughMappedPoints`. |
| Schematic.RenderAll | src/components/SchematicCanvas.jsx:537-559 | Definition: the calls for a list of entries, one after the other. Characterised by `RenderAllSnoc`, `RenderAllBalanced` and `RenderAllLayer`. |
| Schematic.ZoomTransform | src/components/SchematicCanvas.jsx:194-196 | Definition: translate to the centre, scale by zoom, translate back by -centre + offset. |
| Schematic.Backdrop | src/components/SchematicCanvas.jsx:203-227 | Definition: the glow, then the chip outline inside a save/restore pair. |
| Schematic.LabelLayer | src/components/SchematicCanvas.jsx:553-561 | Definition: the 11px label layer around the drawn labels. |
| Schematic.FrameBody | src/components/SchematicCanvas.jsx:194-561 | Definition: what a frame draws inside the zoom/pan save/restore. |
| Schematic.Compose | src/components/SchematicCanvas.jsx:186-563 | Definition: a frame over given wire, gate and label lists. Characterised by `ComposeBalanced` and `ComposeLayerOrder`. |
| Schematic.Frame | src/components/SchematicCanvas.jsx:186-563 | Definition: the calls of `drawFrame` at a stage. Characterised by `FrameBalanced`, `FrameLayerOrder`, `FullReveal` and `EmptyReveal`; `DrawFrame` is proved to issue it. |
| Schematic.WireDrawnThroughMappedPoints | src/components/SchematicCanvas.jsx:537-541 | A revealed wire's drawn path visits exactly its points mapped by `chipToCanvas`, in order. |
| Schematic.DepthChange | src/components/SchematicCanvas.jsx:193 | Definition: the net change of the save stack over a call list. |
| Schematic.Balanced | src/components/SchematicCanvas.jsx:193 | Definition: zero net change and no prefix below the starting depth. |
| Schematic.PathOps | src/components/SchematicCanvas.jsx:175-178 | Definition: the `moveTo`/`lineTo` calls of a call list, in order. |
| Schematic.Targets | src/components/SchematicCanvas.jsx:175-178 | Definition: the points those calls go to, in order. |
| Schematic.RenderAllSnoc | src/components/SchematicCanvas.jsx:537-559 | Drawing one more entry appends that entry's calls. |
| Schematic.DepthChangeConcat | src/components/SchematicCanvas.jsx:193 | The save-stack depth change of two call lists in a row is the sum of their changes. |
| Schematic.BalancedConcat | src/components/SchematicCanvas.jsx:193 | Two balanced call lists in a row are balanced. |
| Schematic.BalancedWrap | src/components/SchematicCanvas.jsx:193 | A balanced list wrapped in save/restore is balanced. |
| Schematic.NeutralBalanced | src/components/SchematicCanvas.jsx:193 | Calls that neither save nor restore are balanced. |
| Schematic.RenderBalanced | src/components/SchematicCanvas.jsx:168-181 | Drawing any one entry restores everything it saves. |
| Schematic.RenderAllBalanced | src/components/SchematicCanvas.jsx:537-559 | Drawing any list of entries restores everything it saves. |
| Schematic.BackdropBalanced | src/components/SchematicCanvas.jsx:220-227 | The glow and the chip outline restore what they save. |
| Schematic.LabelLayerBalanced | src/components/SchematicCanvas.jsx:553-561 | The label layer's save/restore pair encloses balanced calls. |
| Schematic.BalancedChain | src/components/SchematicCanvas.jsx:193 | Five balanced call lists in a row are balanced. |
| Schematic.ZoomTransformBalanced | src/components/SchematicCanvas.jsx:194-196 | The zoom/pan transform calls neither save nor restore. |
| Schematic.FrameBodyBalanced | src/components/SchematicCanvas.jsx:194-561 | Everything drawn between pushing and popping the zoom/pan state is balanced. |
| Schematic.ComposeBalanced | src/components/SchematicCanvas.jsx:186-563 | A frame over any wire, gate and label lists ends at the save depth it started from, and never pops below it. |
| Schematic.FrameBalanced | src/components/SchematicCanvas.jsx:186-563 | Every frame at every stage is balanced, so the zoom transform never compounds across frames. |
| Schematic.LayeredConcat | src/components/SchematicCanvas.jsx:536-560 | Two layer-ordered lists in a row, the second painting from where the first stops, are layer-ordered. |
| Schematic.RenderLayer | src/components/SchematicCanvas.jsx:537-559 | Drawing an entry paints only in its kind's layer: wires 1, gates 2, labels 3. |
| Schematic.RenderAllLayer | src/components/SchematicCanvas.jsx:537-559 | Drawing a list of one kind paints only in that kind's layer. |
| Schematic.ShownKinds | src/components/SchematicCanvas.jsx:246-534 | What a frame draws from the wire, gate and label tables is only wires, gates and labels respectively. |
| Schematic.LabelLayerWithin | src/components/SchematicCanvas.jsx:553-561 | The label layer paints only labels. |
| Schematic.OneLayerInOrder | src/components/SchematicCanvas.jsx:536-560 | Calls confined to one layer are layer-ordered. |
| Schematic.BodyLayerOrder | src/components/SchematicCanvas.jsx:194-561 | The frame body paints the backdrop, then wires, then gates, then labels. |
| Schematic.ComposeLayerOrder | src/components/SchematicCanvas.jsx:186-563 | A frame over any lists of the right kinds never paints an earlier layer after a later one. |
| Schematic.FrameLayerOrder | src/components/SchematicCanvas.jsx:536-560 | In every frame the glow and chip come first, then all drawn wires, then all drawn gates, then all drawn labels. |
| Schematic.FullReveal | src/components/SchematicCanvas.jsx:246-534 | From stage 10 on, all 26 wires, 18 gates and 7 labels are drawn, each once and in table order, and the frame equals the stage-10 frame. |
| Schematic.EmptyReveal | src/components/SchematicCanvas.jsx:186-563 | Below stage 1 nothing from the tables is drawn: the frame is clear, transform, glow, chip and an empty label layer. |
| Schematic.TargetsConcat | src/components/SchematicCanvas.jsx:168-181 | The points visited by two call lists in a row are those of the first, then those of the second. |
| Schematic.TargetsLineTos | src/components/SchematicCanvas.jsx:176-178 | A run of `lineTo`s visits exactly its points. |
| Schematic.PathOpsConcat | src/components/SchematicCanvas.jsx:168-181 | The path calls of two lists in a row are those of the first, then those of the second. |
| Schematic.PathOpsNone | src/components/SchematicCanvas.jsx:170-174 | Calls other than `moveTo` and `lineTo` contribute no path calls. |
| Schematic.PathOpsLineTos | src/components/SchematicCanvas.jsx:176-178 | A run of `lineTo`s is all path calls. |
| Schematic.PathOpsConcat4 | src/components/SchematicCanvas.jsx:168-181 | The path calls of four lists in a row are their path calls in order. |
| Schematic.WirePolylinePath | src/components/SchematicCanvas.jsx:168-181 | A polyline issues no calls exactly when it has no points; otherwise its path is one `moveTo` to the first point, then one `lineTo` per later point, in order. |
| Schematic.TargetsMoveLines | src/components/SchematicCanvas.jsx:175-178 | A move followed by lines visits the move's point, then the lines' points. |
| Schematic.WirePolylineTargets | src/components/SchematicCanvas.jsx:168-181 | The path of a polyline visits exactly its points, in order. |
| Schematic.Context.constructor | src/components/SchematicCanvas.jsx:186 | A fresh context has received no calls. |
| Schematic.Context.Issue | src/components/SchematicCanvas.jsx:186-563 | A call is appended to the context's call list. |
| Schematic.DrawWirePolyline | src/components/SchematicCanvas.jsx:168-181 | The loop issues exactly the calls of `WirePolyline`. |
| Schematic.DrawEntry | src/components/SchematicCanvas.jsx:537-559 | One entry is drawn as a polyline, a gate icon at scale 1.8 or a label box, at the mapped position. |
| Schematic.DrawnSnoc | src/components/SchematicCanvas.jsx:537-541 | Visiting one more table entry appends its calls exactly when it is visible. |
| Schematic.DrawRevealed | src/components/SchematicCanvas.jsx:537-550 | A pass over a table issues exactly the calls for its visible entries, in table order. |
| Schematic.ApplyZoomTransform | src/components/SchematicCanvas.jsx:194-196 | Issues translate to the centre, scale by zoom, and translate back by -centre + offset. |
| Schematic.DrawBackdrop | src/components/SchematicCanvas.jsx:203-227 | Issues the glow, then the chip outline inside a save/restore pair. |
| Schematic.DrawLabelLayer | src/components/SchematicCanvas.jsx:553-561 | Issues save, the 11px font, the visible labels in order, then restore. |
| Schematic.DrawComposed | src/components/SchematicCanvas.jsx:186-563 | One redraw over the given tables issues exactly `Compose` of their visible parts. |
| Schematic.DrawFrame | src/components/SchematicCanvas.jsx:186-563 | One redraw at `stage` issues exactly `Frame(stage)`, which the lemmas above characterise. |
| Schematic.WheelZoom | src/components/SchematicCanvas.jsx:603-611 | After one wheel event the zoom is in [0.5, 3]. From an in-range zoom, deltaY < 0 adds 0.1 and anything else subtracts 0.1, saturating at the bounds. |
| Schematic.ZoomAfter | src/components/SchematicCanvas.jsx:604-610 | Definition: the zoom after a run of wheel events. Characterised by `ZoomStaysInRange`, `ZoomInSaturates` and `ZoomOutSaturates`. |
| Schematic.ZoomStaysInRange | src/components/SchematicCanvas.jsx:603-611 | From an in-range zoom, any sequence of wheel events keeps the zoom in [0.5, 3]. |
| Schematic.ZoomInSaturates | src/components/SchematicCanvas.jsx:603-611 | n zoom-in events add 0.1 each until 3.0, which then holds. |
| Schematic.ZoomOutSaturates | src/components/SchematicCanvas.jsx:603-611 | n zoom-out events take off 0.1 each until 0.5, which then holds. |
| Schematic.SchematicCanvas.constructor | src/components/SchematicCanvas.jsx:5-6 | A mounted canvas starts at zoom 1 and offset (0, 0). |
| Schematic.SchematicCanvas.Zoom | src/components/SchematicCanvas.jsx:5 | The scale factor of a valid canvas lies in [0.5, 3]. |
| Schematic.SchematicCanvas.HandleWheel | src/components/SchematicCanvas.jsx:603-611 | The wheel handler replaces the zoom by `WheelZoom` of it and keeps it in range. |
| Schematic.SchematicCanvas.Draw | src/components/SchematicCanvas.jsx:588-594 | A tick redraws the frame for the current stage, zoom and offset. |
| StepOne.Round | src/game/step1.jsx:23 | `Math.round` gives the integer within half a unit of its argument, with halves rounded up. |
| StepOne.ProgressPct | src/game/step1.jsx:23 | Definition: `Math.round(stage / 10 * 100)`. Characterised by `ProgressPctExact`. |
| StepOne.IsLastStage | src/game/step1.jsx:24-25 | Definition: `stage >= 10`, which both disables the draw button and unlocks step 2. |
| StepOne.ShowFireworks | src/game/step1.jsx:28 | Definition: `progressPct >= 100`. Characterised by `FireworksAtLastStage`. |
| StepOne.NextStage | src/game/step1.jsx:31-35 | Definition: the stage after a click, unchanged at the last stage, else `min(stage + 1, 10)`. |
| StepOne.StageAfter | src/game/step1.jsx:31-35 | Definition: the stage after n clicks from 0. Characterised by `StageAfterClicks`. |
| StepOne.ProgressPctExact | src/game/step1.jsx:23 | For integer stages the percentage is exactly 10·stage, and it is 100 exactly at stage 10. |
| StepOne.FireworksAtLastStage | src/game/step1.jsx:23-28 | Fireworks are shown exactly when the last stage has been reached. |
| StepOne.StageAfterClicks | src/game/step1.jsx:31-35 | After n clicks from a fresh screen the stage is min(n, 10), so it stays in [0, 10]. |
| StepOne.Steps.constructor | src/game/step1.jsx:15-21 | A fresh screen has stage 0, step 2 hidden, reset key 0 and a fresh canvas at zoom 1 and offset (0, 0). |
| StepOne.Steps.HandleNext | src/game/step1.jsx:31-35 | The draw button does nothing at the last stage and otherwise sets min(stage+1, 10). Nothing else changes. |
| StepOne.Steps.MoveToStep2 | src/game/step1.jsx:174-178 | "Move to Step 2" shows step 2 only once the last stage is reached. |
| StepOne.Steps.BackFromStep2 | src/game/step1.jsx:41-46 | Coming back sets the stage to 0, increments the reset key by exactly 1, hides step 2 and remounts a fresh canvas at zoom 1 and offset (0, 0). |
| StepOne.Steps.Redraw | src/game/step1.jsx:227 | While step 1 is shown, the mounted canvas draws the frame for step 1's current stage. |
| StepThree.PctAnchors | src/game/step3.jsx:60-63 | 0%, 50% and 100% map to the negative half-extent, 0 and the positive half-extent. The size conversions map 100% to the full extent. |
| StepThree.PctAdditive | src/game/step3.jsx:60-63 | Positions and sizes agree: moving b percent along the board moves by `pctW(b)` (or `pctD(b)`). |
| StepThree.Stages | src/game/step3.jsx:32-57 | Definition: the six stages' block specs. Characterised by `CompleteBuild`. |
| StepThree.PctX | src/game/step3.jsx:60 | Definition: `p/100·28 − 14`. Characterised by `PctAnchors` and `PctAdditive`. |
| StepThree.PctZ | src/game/step3.jsx:61 | Definition: `p/100·18 − 9`. Characterised by `PctAnchors` and `PctAdditive`. |
| StepThree.PctW | src/game/step3.jsx:62 | Definition: `p/100·28`. Characterised by `PctAnchors` and `PctAdditive`. |
| StepThree.PctD | src/game/step3.jsx:63 | Definition: `p/100·18`. Characterised by `PctAnchors` and `PctAdditive`. |
| StepThree.BlockOf | src/game/step3.jsx:228-256 | A spawned block covers the spec's footprint from `pctX(x)` to `pctX(x+w)` and from `pctZ(z)` to `pctZ(z+d)`. It has height h, starts at y = 0.01 with scale.y 0.01, and carries its label at h/2 + 0.02. |
| StepThree.BlocksOf | src/game/step3.jsx:313 | Definition: the blocks `spawnBlock` adds for a list of specs, one per spec in order. Characterised by `Step3.SpawnStage`, `BlocksOfConcat` and `FullBuildBlocks`. |
| StepThree.AnimOf | src/game/step3.jsx:256 | Definition: the animation registered for a block, 650 ms towards half its height. |
| StepThree.Flatten | src/game/step3.jsx:312-313 | Definition: the specs of several stages one after the other. Characterised by `FlattenSnoc` and `CompleteBuild`. |
| StepThree.BlocksOfConcat | src/game/step3.jsx:313 | The blocks of two spec lists in a row are the blocks of each, in order. |
| StepThree.FlattenSnoc | src/game/step3.jsx:32-57 | The specs of stages lo..hi are those of lo..hi-1 followed by stage hi. |
| StepThree.CompleteBuild | src/game/step3.jsx:32-57 | There are six stages, holding twelve specs in all, labelled "Core 1" to "Core 12" in order. |
| StepThree.Step3.constructor | src/game/step3.jsx:10-23 | A fresh screen has stage 0, no block group, no blocks and no animations. |
| StepThree.Step3.Mount | src/game/step3.jsx:171-181 | Mounting the scene creates an empty block group. |
| StepThree.Step3.Unmount | src/game/step3.jsx:190-218 | The cleanup drops the group and the animations and keeps the stage. |
| StepThree.Step3.DrawDone | src/game/step3.jsx:316 | Definition: `stage >= 6`; `HandleDraw` is a no-op exactly then. |
| StepThree.Step3.SpawnBlock | src/game/step3.jsx:224-257 | Without a group nothing changes. Otherwise the spec's block is appended and an animation targeting h/2 over 650 ms is registered for it. |
| StepThree.Step3.SpawnStage | src/game/step3.jsx:313 | Spawning a list of specs appends their blocks in order (when a group exists) and keeps one animation per block. |
| StepThree.Step3.HandleDraw | src/game/step3.jsx:306-314 | Nothing happens once stage >= 6. Otherwise the stage goes up by one and exactly `STAGES[stage]`'s blocks are appended, in order, keeping the group equal to the stages drawn since it was created. |
| StepThree.FullBuildBlocks | src/game/step3.jsx:32-57 | A group created on a fresh screen holds twelve blocks with twelve animations, labelled "Core 1" to "Core 12", once drawing is done. |
| Popup.CapableMarks | src/components/pop-up.jsx:29-31 | Definition: the per-position test `it.hasChip !== false` of the popup filter. Characterised by `CapableItemsMembers` and `MainFirst.PopupOffersEighteen`. |
| Popup.ChipCapable | src/components/pop-up.jsx:30 | Definition: `hasChip !== false`. |
| Popup.CapableItems | src/components/pop-up.jsx:29-31 | Definition: `chipCapableItems`, the filter keeping chip-capable items in order. Characterised by `CapableItemsMembers` and `PopupOffersEighteen`. |
| Popup.CapableItemsMembers | src/components/pop-up.jsx:29-31 | The list is never longer than the items, and offers an item exactly when it is one of them and chip-capable. |
| Popup.ChipPopup.constructor | src/components/pop-up.jsx:17-24 | A popup starts with nothing picked. |
| Popup.ChipPopup.SetOpen | src/components/pop-up.jsx:24-26 | Opening or closing keeps the pick, since the state hook sits before the early return. |
| Popup.ChipPopup.HandlePick | src/components/pop-up.jsx:33-36 | Picking `idx` sets the pick to idx and reports the offered item at idx with idx. |
| Popup.ChipPopup.HandleNext | src/components/pop-up.jsx:38-41 | Next calls nothing exactly when nothing is picked. Otherwise it calls once, with the picked index and the offered item there, which is chip-capable and one of the items. |
| Popup.ChipPopup.Render | src/components/pop-up.jsx:26-172 | Nothing is rendered exactly when closed. Otherwise entry i is marked picked exactly when the pick is i, and Next is disabled exactly when nothing is picked. |
| Popup.AtMostOnePicked | src/components/pop-up.jsx:98-99 | At most one entry is shown as picked, and exactly one once something is picked. |
| MainFirst.ItemsFacts | src/components/mainfirst.jsx:5-26 | There are twenty items: the first eighteen have a chip, and the last two are the teddy bear and the football without one. |
| MainFirst.Items | src/components/mainfirst.jsx:5-26 | Definition: the twenty quiz items with their `hasChip` flags. Characterised by `ItemsFacts`. |
| MainFirst.ChipMarks | src/components/mainfirst.jsx:53-59 | Definition: the per-position truthiness of `hasChip` used by both quiz lists. Characterised by `NamesOfKept`, `CorrectNamesMembers` and `WrongNamesMembers`. |
| MainFirst.Names | src/components/mainfirst.jsx:53-59 | Definition: `map(item => item.name)`. Characterised by `NamesOfKept`, `CorrectNamesMembers` and `WrongNamesMembers`. |
| MainFirst.CorrectMarkedNames | src/components/mainfirst.jsx:53-55 | Definition: names of the selected items with a chip, in item order. Characterised by `CorrectNamesMembers` and `MarkedNamesPartition`. |
| MainFirst.WrongMarkedNames | src/components/mainfirst.jsx:57-59 | Definition: names of the selected items without a chip, in item order. Characterised by `WrongNamesMembers` and `MarkedNamesPartition`. |
| MainFirst.IsWrong | src/components/mainfirst.jsx:125-126 | Definition: `showResult && isOn && !item.hasChip`. Characterised by `OnlyTwoCanBeWrong` and `WrongBubbleListed`. |
| MainFirst.MarkedNamesPartition | src/components/mainfirst.jsx:50-59 | The correct and the wrong list together are as long as the marked count. |
| MainFirst.NamesOfKept | src/components/mainfirst.jsx:53-59 | A filtered-then-named list holds exactly the names at the marked positions. |
| MainFirst.CorrectNamesMembers | src/components/mainfirst.jsx:53-55 | The correct list names exactly the selected items with a chip. |
| MainFirst.WrongNamesMembers | src/components/mainfirst.jsx:57-59 | The wrong list names exactly the selected items without a chip. |
| MainFirst.OnlyTwoCanBeWrong | src/components/mainfirst.jsx:124-126 | With the quiz's items, a bubble is red exactly when the result is shown, it is selected and it is one of the last two. Those are the teddy bear and the football. |
| MainFirst.WrongBubbleListed | src/components/mainfirst.jsx:124-126 | A red bubble's name always appears in the wrong list. |
| MainFirst.PopupOffersEighteen | src/components/pop-up.jsx:29-31 | Given the quiz's items, the popup offers eighteen and leaves out the teddy bear and the football. |
| MainFirst.CountTrueFirst | src/components/mainfirst.jsx:50 | A row whose first k of n marks are set counts k. |
| MainFirst.ToggleTwice | src/components/mainfirst.jsx:41-47 | Toggling the same index twice restores the selection. |
| MainFirst.MainFirstScreen.constructor | src/components/mainfirst.jsx:30-38 | The selection starts as twenty falses with count 0, and the result and the popup are hidden with nothing picked. |
| MainFirst.MainFirstScreen.Toggle | src/components/mainfirst.jsx:41-47 | Only entry idx flips. Every other entry and the length are kept, and the count moves by one. |
| MainFirst.MainFirstScreen.Check | src/components/mainfirst.jsx:215 | Check sets `showResult` and nothing else changes. No operation resets it. |
| MainFirst.MainFirstScreen.OpenPopup | src/components/mainfirst.jsx:263 | The bottom button opens the popup and keeps its pick. |
| MainFirst.MainFirstScreen.ClosePopup | src/components/mainfirst.jsx:273 | Close hides the popup and keeps its pick. |
| MainFirst.MainFirstScreen.PickInPopup | src/components/mainfirst.jsx:275-278 | A pick in the popup records the index. |
| MainFirst.MainFirstScreen.NextInPopup | src/components/mainfirst.jsx:279-283 | With a pick, Next closes the popup and starts the steps when `startSteps` is given. Without one nothing changes. |

The lemmas `SeqAssoc`, `AppendCalls2`, `AppendCalls3`, `AppendCalls4`, `PolylineShape`, `LabelLayerShape`, `FrameShape` and `LineTosSnoc` in `schematic_canvas.dfy` have no row: they only regroup call lists for the draw methods' proofs and state nothing about the game.

## Left out

- Pixels: gradients, fonts, fill styles, the glow's arc, the rounded-rectangle path, `measureText` sizing of label boxes and the stroke shapes inside `drawGate`. Each gate icon, label box, glow and chip outline is one opaque command with its parameters. The save/restore pairs inside `drawGate` and `drawLabelBox` are balanced inside those routines, so they are not spelled out.
- Stroke settings `lineCap`/`lineJoin`: these are folded into the single `WireStyle` command, with the line width and the colour.
- Canvas resizing, the device-pixel ratio and the `requestAnimationFrame` loop: these are host plumbing. The surface size is a parameter of each frame, and a tick is a call of `Draw`.
- `e.preventDefault()` in the wheel handler: this is a browser event detail.
- Schematic.WheelZoom: the source adds and clamps binary floats, so its zoom drifts by rounding after many steps. The model counts exact tenths.
- StepOne.ProgressPctExact, Schematic.ChipToCanvas and the StepThree percent helpers: these use exact reals where the source uses floating point.
- Popup.ChipPopup.HandlePick and Popup.ChipPopup.HandleNext: the source calls `onSelect`/`onNext` only when the parent passed them, and `items` defaults to `[]`. The model always returns the call, and the popup is always given its items; the only caller, the quiz screen, passes all three.
- Resize and device-pixel ratio: `resizeCanvas` makes the backing store 800·dpr by 500·dpr and scales the context by dpr, then `drawFrame` centres on `ctx.canvas.width / 2` in that already-scaled space. At a ratio other than 1 the chip is therefore drawn off-centre (at dpr = 2 its centre falls on the backing store's bottom-right corner). The model's frame coordinates are in the context's own units, which match device pixels only at dpr = 1; the resize transform is not modelled.
- React's batching: a handler reads the state of the render it was created in. The model applies each handler to the current state, which agrees for one click per render.
- The Step 1/Step 2 view switch beyond the back reset rule: step 2 itself is not part of this model.
- The whole Three.js scene in step 3: renderer, camera, orbit controls, lights, materials, label-sprite textures and disposal. The block group is the list of spawned block records, and its existence is the `attached` flag.
- StepThree.Step3.SpawnBlock: the spawn animation's easing and timing over `performance.now()`, and the removal of finished animations from the set, are not modelled. The model's animation list only grows while the group exists.
- The `console.log` in the quiz's `onSelect`, the popup's item icons (emoji) and all JSX layout and Tailwind classes: these are presentation only.
- Screen routing in `src/App.jsx`: only whether `startSteps` was supplied is modelled, as the `canStartSteps` argument of `NextInPopup`.
