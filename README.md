# AnisotropyEditor core, modelled in Dafny

AnisotropyEditor is an interactive editor for anisotropy direction fields. The
user draws rectangles, ellipses and polylines over a texture. Each shape is a
*constraint*: a record of fifteen float fields (centre, extent, direction,
rotation, skew, line box, tesselation level of detail, phase alignment), a
32-bit id and, for polylines, a list of segments. A multigrid solver then
spreads the constrained directions over the whole field: one initialisation
pass rasterises every constraint into the finest level, restrictions walk down
the mip pyramid, and smoothing and prolongation walk back up.

This project models the editor's core:

- the constraint list and its operations (add, remove, duplicate, per-field
  setters, rotation, fill direction, polyline point moves and inserts, clear);
- the undo/redo history (a bounded deque of snapshots with a cursor);
- the binary project format (save and load);
- the solver's pass schedule, its smoothing slots and its initialisation
  uniform packing;
- mip level counts and mipmap generation of the texture wrapper;
- the window's tools, picking and key and mouse state, and the uniform-buffer
  alignment and memory-type search;
- the Wavefront OBJ loader (line reading, face parsing, fan triangulation and
  vertex de-duplication);
- the Monte-Carlo sample counter.

Every module is a separate file:

| file | module | models |
|---|---|---|
| words.dfy | Words | uint32 words, wrap-around increment and decrement, little-endian bytes |
| option.dfy | Options | an `Option` type |
| constraints.dfy | Constraints | the constraint record, the optimisation method, the constants, record kinds |
| format.dfy | ProjectFormat | `Optimizer::save` / `Optimizer::load` as an encoder and decoder with their byte loops |
| history.dfy | History | the undo deque as a value (`Log`) with commit, undo and redo |
| polyline.dfy | Polyline | polyline segments, bounding boxes, `bakeLine`, `recreateLineAABB`, vertex moves and splits |
| optimizer.dfy | FieldOptimizer | the `Optimizer` class: constraint edits, solve-and-commit, undo, save, load, settings |
| scheduler.dfy | Scheduler | the V-cycle pass order and the uniform packing for smoothing and initialisation |
| mip.dfy | Mip | `Texture`: mip level count, mipmap blit chain, clear and copy level ranges |
| window.dfy | Window | `VulkanWindow`: alignment, memory type search, hit tests, tool and input state |
| objloader.dfy | ObjLoader | `ObjLoader::load` and its accessors |
| montecarlo.dfy | MonteCarlo | the sample counter of `MonteCarlo` |

Float fields are mathematical reals. The project format stores each one as a
32-bit pattern given by a codec pair `enc: real -> Word` / `dec: Word -> real`,
and the round trip holds for values that survive that codec (float32 values).
GPU work is a sequence of abstract `Pass` events. The editor's solve calls
append these to `passes`. Trigonometry, `sqrt`, `atan2` and `sscanf %f` are
function parameters.

Some behaviour of the code is easy to miss; the model follows the code:

- `load` keeps the old id counter and raises it with `std::max`. It does not
  reset it. The model states `maxId == Larger(old(maxId), MaxId(constraints))`.
- `load` reads the header and records without bounds checks. The model asks
  that the byte stream decode, and says what the decoded project is.
- `fillRectangle` compares both direction components with the cosine of the
  new angle. The model keeps that guard; `FieldOptimizer.FillIgnoresSine`
  states what it lets through.
- `duplicateRectangle` copies the record with its old id but still advances the
  id counter. The model keeps both.
- The list labels written by `load` sort records by "has lines" first. The
  labels written by `duplicateRectangle` and the history sort by "level of
  detail above 1" first. `Constraints.KindsAgreeIff` states exactly when the
  two agree.

## Model

| member | source | states |
|---|---|---|
| Words.Inc | src/Field/optimizer.cpp:1263 | `++m_maxId` on a uint32: one more, except the largest word wraps to 0 |
| Words.Dec | src/Field/optimizer.cpp:1520-1522 | `m_maxId--` on a uint32: one less, except 0 wraps to the largest word |
| Words.IncDec | src/Field/optimizer.cpp:1520-1522 | the wrap-around decrement undoes the increment and vice versa, for every word |
| Words.Truncate | src/Field/optimizer.cpp:1200 | a `size_t` count cast to uint32 keeps every count below 2^32 |
| Words.WordRoundTrip | src/Field/optimizer.cpp:1194-1201 | a word written as four little-endian bytes anywhere in a stream reads back as the same word |
| Words.BytesRoundTrip | src/Field/optimizer.cpp:1225-1226 | reading four bytes as a word and writing it back gives the same four bytes |
| Constraints.ScalarsRoundTrip | src/Field/optimizer.h:42-61 | the fifteen float fields, in declaration order, determine the record's scalars and back |
| Constraints.KindsAgreeIff | src/Field/optimizer.cpp:1250 | the label `load` gives a record equals the label `duplicateRectangle` gives it exactly when lines imply level of detail at most 1 and no lines imply at least 1 |
| Constraints.KindsAgree | src/Field/optimizer.cpp:1416 | for records the editor creates (level of detail 1 or 32, lines only at 1) both labels agree: "Line" exactly when there are segments, "Ellipse" exactly for level 32 |
| Constraints.MaxId | src/Field/optimizer.cpp:1248 | the largest id of a list: at least every id, and 0 or one of the ids |
| ProjectFormat.Encode | src/Field/optimizer.cpp:1188-1211 | the saved stream starts with the 16-byte header |
| ProjectFormat.EncodeRecord | src/Field/optimizer.cpp:1202-1209 | a written record is 64 bytes of fixed part (fifteen floats and the id, the layout before `lines`), a 4-byte count, then 16 bytes per segment |
| ProjectFormat.Decode | src/Field/optimizer.cpp:1225-1247 | a decoded project has the width, height and record count stored in header words 1 to 3 |
| ProjectFormat.DecodeLines | src/Field/optimizer.cpp:1240-1247 | reading `n` segments consumes exactly 16 bytes per segment |
| ProjectFormat.DecodeRecords | src/Field/optimizer.cpp:1233-1251 | reading `n` records yields `n` records and never grows the remaining stream |
| ProjectFormat.WordsRoundTrip | src/Field/optimizer.cpp:1194-1201 | words written one after another read back in order, whatever bytes surround them |
| ProjectFormat.FloatsBits | src/Field/optimizer.cpp:1203 | floats that survive the codec read back as written |
| ProjectFormat.LinesRoundTrip | src/Field/optimizer.cpp:1206-1208 | the written segments of a record read back as the same segments, leaving the bytes after them |
| ProjectFormat.RecordRoundTrip | src/Field/optimizer.cpp:1202-1209 | one written record (fixed part, count, segments) reads back as the same record |
| ProjectFormat.RecordsRoundTrip | src/Field/optimizer.cpp:1202-1209 | a written list of records reads back as the same list, leaving the bytes after it |
| ProjectFormat.RoundTrip | src/Field/optimizer.cpp:1188-1257 | `load(save(p))` gives back the width, the height and every record and segment, in order, when every float is a float32 value and the counts fit a uint32 |
| ProjectFormat.Save | src/Field/optimizer.cpp:1188-1211 | save's write loop produces exactly the encoded stream |
| ProjectFormat.WriteRecord | src/Field/optimizer.cpp:1203-1208 | one record's writes produce exactly its encoding |
| ProjectFormat.Load | src/Field/optimizer.cpp:1213-1257 | load's read loop gives exactly the decoded project, and the id counter ends at the larger of its old value and the largest id read |
| ProjectFormat.ReadRecords | src/Field/optimizer.cpp:1233-1251 | the record loop reads the decoded records in order and raises the id counter to the largest id read |
| ProjectFormat.ReadRecord | src/Field/optimizer.cpp:1234-1247 | one iteration reads the decoded record and ends where the next begins |
| ProjectFormat.ReadLines | src/Field/optimizer.cpp:1242-1247 | the segment loop reads the decoded segments and ends after them |
| ProjectFormat.MaxFromMaxId | src/Field/optimizer.cpp:1248 | raising the counter with `std::max` id by id ends at the larger of the start and the list's largest id |
| ProjectFormat.Larger | src/Field/optimizer.cpp:1248 | `std::max`: at least both arguments and one of them |
| History.Resize | src/Field/optimizer.cpp:1731-1733 | the deque resized to the cursor keeps the entries before it and pads with empty snapshots |
| History.Commit | src/Field/optimizer.cpp:1730-1742 | drops the redo tail, appends the live list, evicts the oldest snapshot past 256 undo steps, and puts the cursor on the new last entry |
| History.Undo | src/Field/optimizer.cpp:1744-1757 | undo never changes the stored snapshots |
| History.Redo | src/Field/optimizer.cpp:1759-1772 | redo never changes the stored snapshots |
| History.FirstCommit | src/Field/optimizer.h:149-151 | the first commit of the empty editor stores one empty snapshot; nothing can be undone or redone |
| History.CommitReset | src/Field/optimizer.cpp:1229-1256 | after `load` clears the deque, its commit stores exactly the loaded list |
| History.CommitValid | src/Field/optimizer.cpp:1730-1742 | a commit keeps 1 ≤ cursor ≤ size ≤ 257, makes the cursor entry the live list, leaves nothing to redo, and keeps at most 256 undo steps |
| History.UndoAfterCommit | src/Field/optimizer.cpp:1730-1757 | after an edit and its commit, undo is possible and restores the list as it was before the edit, and redo becomes possible |
| History.UndoRedoValid | src/Field/optimizer.cpp:1722-1772 | undo and redo keep the history well formed, move the cursor by one and restore that snapshot when allowed, and change nothing otherwise |
| History.RedoUndoInverse | src/Field/optimizer.cpp:1744-1772 | redo after undo, and undo after redo, give back the same state |
| History.UndoTimesReaches | src/Field/optimizer.cpp:1744-1757 | `n` undos move the cursor back `n` steps, stopping at the first snapshot |
| History.RedoTimesReaches | src/Field/optimizer.cpp:1759-1772 | `n` redos from a synced state move the cursor forward `n` steps and restore the snapshot they reach |
| History.UndoSteps | src/Field/optimizer.cpp:1744-1772 | from a synced state, k ≤ n undos restore the snapshot k places before the cursor, and n redos after n undos give back the starting state |
| History.CommitAllShape | src/Field/optimizer.cpp:1730-1742 | while fewer than 257 snapshots result, a run of commits drops the redo tail and appends each edit, leaving the cursor on the last |
| History.UndoRedoEdits | src/Field/optimizer.cpp:1730-1772 | after N edits that fit in the history, k < N undos leave the (N-k)-th edit live, N undos restore the list the edits started from, and N redos give back the state after the last edit |
| Mip.BitLengthBounds | src/Texture/texture.cpp:488 | `floor(log2(n)) + 1` is the bit length: 2^(len-1) ≤ n < 2^len |
| Mip.BitLengthUnique | src/Texture/texture.cpp:488 | the bit length is the only such length |
| Mip.MipLevelsRange | src/Texture/texture.cpp:488 | a texture has at least one level; exactly one when it is layered or mipmaps are off; otherwise the bit length of the larger extent |
| Mip.Halve | src/Texture/texture.cpp:782-783 | halving an extent never goes below 1 and is the floor of half |
| Mip.ExtentPositive | src/Texture/texture.cpp:759 | every level of a non-empty texture has a positive extent |
| Mip.ExtentReachesOne | src/Texture/texture.cpp:782-783 | an extent in [2^k, 2^(k+1)) halves to 1 after `k` steps |
| Mip.TopLevelExtent | src/Texture/texture.cpp:488 | the coarsest level of a mipmapped texture is one texel along its larger side |
| Mip.Texture.constructor | src/Texture/texture.cpp:488 | a new texture keeps its size and flags and gets the computed level count |
| Mip.Texture.GenerateMipmaps | src/Texture/texture.cpp:706-784 | one blit per level after the first, each from level `i` to `i + 1` with halved extents; none for layered or unmipmapped textures |
| Mip.ChainBlitsWellFormed | src/Texture/texture.cpp:706-784 | each blit's destination is the next level with positive extents, and its source extent is the previous blit's destination extent |
| Mip.Texture.ClearRange | src/Texture/texture.cpp:191-206 | `clear` covers levels 0 to `mipLevels` |
| Mip.Texture.CopyLevelCount | src/Texture/texture.cpp:613 | a copy covers the smaller of the two level counts |
| FieldOptimizer.DepthTopLevel | src/Field/optimizer.cpp:1104 | the solver's coarsest level is the pyramid's last level, one texel wide |
| FieldOptimizer.AreaRecordSpans | src/Field/optimizer.cpp:1259-1277 | an added rectangle or ellipse spans exactly the dragged box (y flipped), points along x, and gets the right label |
| FieldOptimizer.LineRecordShape | src/Field/optimizer.cpp:1280-1295 | an added polyline has one chained segment per consecutive point pair, through exactly the drawn points, and a line box equal to their bounding box |
| FieldOptimizer.SetChangesOneField | src/Field/optimizer.cpp:1440-1502 | a field setter changes exactly that one scalar and keeps the id and the segments |
| FieldOptimizer.Trunc | src/Field/optimizer.cpp:1423 | C truncation of a real toward zero |
| FieldOptimizer.WrapAngleRange | src/Field/optimizer.cpp:1420-1430 | the stored angle lies in [-π, π) and differs from the requested angle by a whole number of turns; re-applying an already wrapped angle changes nothing |
| FieldOptimizer.FillIgnoresSine | src/Field/optimizer.cpp:1504-1515 | the fill guard keeps any direction whose x part already matches the new cosine, whatever the new sine; turning (0, 1) into (0, -1) is refused |
| FieldOptimizer.BakedChained | src/Field/optimizer.cpp:1313-1352 | baking a polyline places every vertex by the record's transform and keeps the segments chained |
| FieldOptimizer.FitKeeps | src/Field/optimizer.cpp:1354-1375 | refitting the line box keeps the segments, id and direction and resets the transform |
| FieldOptimizer.MovedPointShape | src/Field/optimizer.cpp:1377-1398 | moving a point keeps the segment count and the chain, moves only that vertex, and refits the box |
| FieldOptimizer.AddedPointShape | src/Field/optimizer.cpp:1400-1411 | inserting a point splits one segment, keeps the chain, and inserts the vertex after the split segment's start |
| FieldOptimizer.LargestId | src/Field/optimizer.cpp:1749-1753 | the id scan after undo or redo finds the largest id of the restored list |
| FieldOptimizer.Optimizer.constructor | src/Field/optimizer.h:148-159 | a new editor has no constraints, one empty snapshot, cursor 1, id counter 0 and the default settings |
| FieldOptimizer.Optimizer.Optimize | src/Field/optimizer.cpp:1070-1115 | a solve runs one full V-cycle over the pyramid |
| FieldOptimizer.Optimizer.CommitChange | src/Field/optimizer.cpp:1730-1742 | the editor's commit is the history commit of its live list, and keeps the history well formed |
| FieldOptimizer.Optimizer.RevertChange | src/Field/optimizer.cpp:1744-1757 | undo restores the previous snapshot, re-solves and recomputes the id counter; without an undo step nothing changes |
| FieldOptimizer.Optimizer.RedoChange | src/Field/optimizer.cpp:1759-1772 | redo restores the next snapshot, re-solves and recomputes the id counter; without a redo step nothing changes |
| FieldOptimizer.Optimizer.AddRectangle | src/Field/optimizer.cpp:1259-1267 | a non-degenerate drag appends a rectangle with the next id, solves and commits; a degenerate one changes nothing |
| FieldOptimizer.Optimizer.AddEllipse | src/Field/optimizer.cpp:1269-1277 | as for rectangles, with level of detail 32 |
| FieldOptimizer.Optimizer.AddArea | src/Field/optimizer.cpp:1259-1277 | the shared body of the two area adds |
| FieldOptimizer.Optimizer.AddLine | src/Field/optimizer.cpp:1280-1295 | appends the polyline record with the next id, solves and commits |
| FieldOptimizer.Optimizer.Clear | src/Field/optimizer.cpp:1302-1311 | removes every record, resets the counter to 0 and the history to one empty snapshot, and solves |
| FieldOptimizer.Optimizer.RemoveRectangle | src/Field/optimizer.cpp:1517-1527 | removes the record at the index, steps the counter back only when the removed id was the counter, solves and commits; on an empty list nothing changes |
| FieldOptimizer.Optimizer.DuplicateRectangle | src/Field/optimizer.cpp:1414-1418 | appends a copy with the same id, advances the counter, and commits |
| FieldOptimizer.Optimizer.SetField | src/Field/optimizer.cpp:1440-1502 | a change of more than 0.001 sets that field and settles (a skew always solves and commits); a smaller one changes nothing |
| FieldOptimizer.Optimizer.RotateRectangle | src/Field/optimizer.cpp:1420-1430 | stores the wrapped angle when it differs and settles; otherwise nothing changes |
| FieldOptimizer.Optimizer.SetAlignPhase | src/Field/optimizer.cpp:1432-1438 | stores the flag as 1 or 0 when it differs, solves and commits |
| FieldOptimizer.Optimizer.FillRectangle | src/Field/optimizer.cpp:1504-1515 | when the guard passes, the direction becomes (cos, sin) and the editor settles; otherwise nothing changes |
| FieldOptimizer.Optimizer.MovePoint | src/Field/optimizer.cpp:1377-1398 | moves one vertex of the baked polyline, refits, and solves briefly when the window optimises on move; no commit |
| FieldOptimizer.Optimizer.AddPoint | src/Field/optimizer.cpp:1400-1411 | inserts a vertex into one segment of the baked polyline, refits and commits |
| FieldOptimizer.Optimizer.Save | src/Field/optimizer.cpp:1188-1211 | the saved bytes are the encoding of the editor's size and records |
| FieldOptimizer.Optimizer.Load | src/Field/optimizer.cpp:1213-1257 | the editor holds exactly the decoded project, the counter is raised to its largest id, the history is that one snapshot, the direction texture has a backup, and two solves ran: the one `setDirectionTexture` starts at the new extent with the old list (render.cpp:766-772, optimizer.cpp:1794-1798), then the one after the records |
| FieldOptimizer.Optimizer.ResetHistory | src/Field/optimizer.cpp:1229-1256 | clearing the deque and committing at the end of `load` leaves the loaded list as the one snapshot, under the cursor |
| FieldOptimizer.Optimizer.SetIteration | src/Field/optimizer.cpp:1774-1777 | stores the iteration count and solves with it |
| FieldOptimizer.Optimizer.SetIterationOnMove | src/Field/optimizer.cpp:1779-1782 | stores the on-move iteration count and solves |
| FieldOptimizer.Optimizer.SetMethod | src/Field/optimizer.cpp:1784-1787 | stores the smoothing method and solves |
| FieldOptimizer.Optimizer.SetNewPhaseMethod | src/Field/optimizer.cpp:1789-1792 | stores the phase flag and solves |
| FieldOptimizer.Optimizer.SetAngleOffset | src/Field/optimizer.cpp:1297-1300 | stores the angle offset and solves |
| FieldOptimizer.Optimizer.SetDirectionTexture | src/Field/optimizer.cpp:1794-1798 | keeps a direction backup and solves; with no constraints the solve starts from the texture |
| Polyline.Vertices | src/Field/optimizer.cpp:1313-1352 | the vertex list of a polyline: the first start, then every segment's end |
| Polyline.Segments | src/Field/optimizer.cpp:1282-1289 | one segment per consecutive pair of points |
| Polyline.SegmentsChained | src/Field/optimizer.cpp:1282-1289 | the segments of two or more points are chained and pass through exactly those points |
| Polyline.ChainedFromVertices | src/Field/optimizer.cpp:1313-1352 | a chained polyline is recovered from its vertices |
| Polyline.BoundingBoxTight | src/Field/optimizer.cpp:1354-1375 | the box holds every point and each side touches one |
| Polyline.BuildLines | src/Field/optimizer.cpp:1280-1290 | addLine's loop builds exactly the segments and the bounding box of the points |
| Polyline.BakeLine | src/Field/optimizer.cpp:1313-1352 | the baked polyline has the same segment count, stays chained, and its vertices are the placed vertices |
| Polyline.MoveVertexChained | src/Field/optimizer.cpp:1381-1394 | moving a vertex updates both segments that share it and no other vertex |
| Polyline.SplitSegmentChained | src/Field/optimizer.cpp:1402-1408 | splitting a segment at a point adds one segment, keeps the chain, and inserts the point among the vertices |
| Polyline.RecreateLineAABB | src/Field/optimizer.cpp:1354-1375 | refits to the vertices' bounding box, with non-negative line extents |
| Polyline.LineBox | src/Field/optimizer.cpp:1356-1366 | the min/max loop finds the bounding box of the vertices |
| Polyline.FittedPlacementIsIdentity | src/Field/optimizer.cpp:1367-1374 | after a refit the record's transform places every point where it is |
| Scheduler.InitPass | src/Field/optimizer.cpp:1099-1103 | the solve starts from the texture exactly when there are no constraints and a backup exists |
| Scheduler.RunVCycle | src/Field/optimizer.cpp:1099-1114 | the pass loop issues exactly the V-cycle |
| Scheduler.VCycleAt | src/Field/optimizer.cpp:1099-1114 | the V-cycle has 3N+3 passes: init, restrict 1..N, then smooth N and prolong N-1 down to smooth 0, then finalize |
| Scheduler.VCycleSmoothsEveryLevelOnce | src/Field/optimizer.cpp:1105-1113 | every level from N down to 0 is smoothed exactly once, coarse to fine |
| Scheduler.VCycleBudget | src/Field/optimizer.cpp:1109-1113 | every smoothing pass uses the requested iteration count on a level of the pyramid |
| Scheduler.SmoothSlot | src/Field/optimizer.cpp:821-827 | a smoothing slot writes parity, method, height/4, angle offset and phase flag into floats 6 to 10 and keeps the rest |
| Scheduler.PackSmooth | src/Field/optimizer.cpp:821-851 | the smoothing loop fills exactly the first `iterations` slots and issues one step per iteration whose two barriers cover both buffers, starting on the other buffer from the step before |
| Scheduler.LayoutMarker | src/Field/optimizer.cpp:1598-1653 | a slot holds -1 at float 14 exactly for an area record; every slot starts with the shared fields and ends with aspect, level of detail and phase flag |
| Scheduler.PacksOf | src/Field/optimizer.cpp:1598-1650 | an area record is one draw; a polyline is one draw per segment |
| Scheduler.PacksFromList | src/Field/optimizer.cpp:1598-1650 | every packed slot comes from a listed record, and its segment from that record's segments |
| Scheduler.PacksCount | src/Field/optimizer.cpp:1598-1650 | at least one draw per record, exactly one when no record has segments |
| Scheduler.PackInit | src/Field/optimizer.cpp:1598-1653 | the init loop fills slot 1 onward with every draw in list order and issues 8-vertex area draws and 2-vertex segment draws |
| Scheduler.PackConstraint | src/Field/optimizer.cpp:1599-1650 | one record advances the draw counter by its draw count and writes exactly its slots |
| Window.AlignedRoundsUp | src/UI/vulkanwindow.cpp:431-433 | for a power-of-two alignment the aligned size is a multiple of it, at least the size and less than one alignment more, and aligning twice changes nothing |
| Window.FindMemoryType | src/UI/vulkanwindow.cpp:418-429 | the found index is the first memory type allowed by the filter and having all the flags; not found means none is |
| Window.TryPick | src/UI/vulkanwindow.cpp:37-83 | a hit in the box picks rotate in the corners, move away from the edges, and the matching side drag on the edges; a miss picks nothing |
| Window.FindHandle | src/UI/vulkanwindow.cpp:109-135 | the found segment is the first whose handle is hit; not found means none is |
| Window.GetConstraint | src/UI/vulkanwindow.cpp:85-152 | picking returns the pick the hit-test rules define |
| Window.PickedUnique | src/UI/vulkanwindow.cpp:85-152 | the hit-test rules allow exactly one pick |
| Window.VulkanWindow.constructor | src/UI/vulkanwindow.h:61-98 | the window starts in select mode with nothing selected, no points, no keys and optimise-on-move on |
| Window.VulkanWindow.SwitchTool | src/UI/vulkanwindow.cpp:154-165 | switching clears the selection and the point list, unless the tool is none and the switch is not forced |
| Window.VulkanWindow.AddLinePoint | src/UI/vulkanwindow.cpp:208-214 | a point is appended only when it is the first or more than 0.0005 from the last |
| Window.VulkanWindow.SelectAt | src/UI/vulkanwindow.cpp:204-207 | select mode stores the pick of the hit test |
| Window.VulkanWindow.PressLeft | src/UI/vulkanwindow.cpp:198-217 | a left press records position, time and key, and selects or adds a point unless panning |
| Window.VulkanWindow.MousePress | src/UI/vulkanwindow.cpp:197-225 | left press as above; right and middle presses only add their key |
| Window.VulkanWindow.FinishLine | src/UI/vulkanwindow.cpp:254-257 | a polyline of two or more points is sent to the editor and the list cleared |
| Window.VulkanWindow.ReleaseLeft | src/UI/vulkanwindow.cpp:228-251 | a left release adds the dragged rectangle or ellipse, or ends a selection drag with a solve-and-commit when it moved |
| Window.VulkanWindow.ReleaseRight | src/UI/vulkanwindow.cpp:252-258 | a right release finishes a polyline of two or more points |
| Window.VulkanWindow.MouseRelease | src/UI/vulkanwindow.cpp:227-267 | dispatches left and right releases; middle releases only drop their key |
| Window.VulkanWindow.KeyPress | src/UI/vulkanwindow.cpp:269-282 | control and shift set their key; escape or return finishes a polyline of two or more points |
| Window.VulkanWindow.KeyRelease | src/UI/vulkanwindow.cpp:175-182 | control and shift clear their key; other keys change nothing |
| Window.VulkanWindow.ClearDownKeys | src/UI/vulkanwindow.cpp:184-187 | all held keys are dropped and nothing else changes |
| Window.VulkanWindow.SetOptimizeOnMove | src/UI/vulkanwindow.cpp:383-385 | only the flag changes |
| Window.FinishedLinesWellFormed | src/UI/vulkanwindow.cpp:208-214 | every polyline the window sends has two or more points, each more than 0.0005 from the one before |
| ObjLoader.LessIsStrictTotal | src/Render/objloader.cpp:240-244 | the vertex key order is a strict total order, lexicographic on vertex, normal and texture indices |
| ObjLoader.NextBreak | src/Render/objloader.cpp:38 | the next line break after a position, or none |
| ObjLoader.GetLine | src/Render/objloader.cpp:37-39 | one `getline` returns the text up to the next break and moves past it; at the end there are no more lines |
| ObjLoader.UnendedLineIgnored | src/Render/objloader.cpp:37-39 | text after the last line break yields no line |
| ObjLoader.LinesHaveNoBreak | src/Render/objloader.cpp:38 | no returned line contains a break |
| ObjLoader.ReadAt | src/Render/objloader.cpp:62-80 | a decimal number in the text is read as its value |
| ObjLoader.NoIntAtSlash | src/Render/objloader.cpp:62-80 | no integer starts at a slash |
| ObjLoader.FullForm | src/Render/objloader.cpp:66-69 | `v/t/n` gives the three indices, each minus one |
| ObjLoader.NormalForm | src/Render/objloader.cpp:70-72 | `v//n` gives the vertex and normal indices minus one |
| ObjLoader.CoordForm | src/Render/objloader.cpp:73-75 | `v/t` gives the vertex and texture indices minus one |
| ObjLoader.PlainForm | src/Render/objloader.cpp:76-77 | `v` gives the vertex index minus one |
| ObjLoader.NoForm | src/Render/objloader.cpp:62-80 | a token without a leading number gives no reference |
| ObjLoader.ScanFace | src/Render/objloader.cpp:62-80 | the token loop collects the vertex, normal and texture indices of every reference in order |
| ObjLoader.FanTriangles | src/Render/objloader.cpp:82-94 | an n-gon gives n-2 triangles, each (corner 0, corner t+1, corner t+2) |
| ObjLoader.DistinctFacts | src/Render/objloader.cpp:86-91 | the de-duplicated corners hold every corner once, in first-seen order |
| ObjLoader.FirstSeenNumber | src/Render/objloader.cpp:86-91 | a new corner gets the next number |
| ObjLoader.Number | src/Render/objloader.cpp:86-91 | the map lookup gives a known corner its number and a new corner the next one |
| ObjLoader.AddFan | src/Render/objloader.cpp:82-94 | the fan loop numbers every corner of the fan and appends one indexed triangle per fan triangle |
| ObjLoader.ScanText | src/Render/objloader.cpp:41-56 | sscanf at `line+k` sees the text from offset `k`, cut at the terminator strtok wrote after the keyword: the rest of the line when the keyword starts it, nothing when the terminator falls at `k` |
| ObjLoader.ReadLine | src/Render/objloader.cpp:41-95 | one line updates the vertex, normal, coordinate or face tables as its kind says, each value scanned from the text sscanf sees |
| ObjLoader.ReadText | src/Render/objloader.cpp:37-96 | the line loop parses exactly the lines of the file, and the numbering stays consistent |
| ObjLoader.Loader.constructor | src/Render/objloader.h:62-66 | a new loader holds no mesh |
| ObjLoader.Loader.Load | src/Render/objloader.cpp:11-157 | a readable file yields one triangle per fan triangle indexing the de-duplicated vertices, with their positions, normals, coordinates and handedness; an unreadable one changes nothing |
| ObjLoader.Gather | src/Render/objloader.cpp:99-118 | every numbered vertex gets its position, and its normal and texture coordinate when the file has them |
| ObjLoader.NumberingCount | src/Render/objloader.cpp:99 | the vertex count is the number of distinct corners |
| ObjLoader.Handedness | src/Render/objloader.cpp:149-155 | each tangent's w is -1 when the frame is flipped and 1 otherwise |
| MonteCarlo.CountSaturates | src/Render/montecarlo.cpp:831-914 | after `k` renders the batch count is the smaller of count + k and 65536 |
| MonteCarlo.Accumulator.constructor | src/Render/montecarlo.h:55 | a new accumulator has no samples |
| MonteCarlo.Accumulator.Clear | src/Render/montecarlo.cpp:826-829 | clearing drops every sample |
| MonteCarlo.Accumulator.Render | src/Render/montecarlo.cpp:831-914 | a render draws exactly when fewer than 65536 batches are done, and counts it |
| MonteCarlo.Accumulator.Rebuild | src/Render/montecarlo.cpp:743-755 | rebuilding the targets drops every sample |
| MonteCarlo.Accumulator.SampleCount | src/Render/montecarlo.cpp:981-983 | the sample count is 16 per batch and always fits a uint32 |

## Left out

- Vulkan objects, command buffers, pipelines, shaders and image layout
  transitions: each is an abstract `Pass` event or a blit record. The
  shaders' arithmetic is not modelled.
- Float32 rounding: float fields are reals. The project format takes a float
  codec pair instead of reinterpreting bits.
- `cos`, `sin`, `sqrt`, `atan2` and `sscanf("%f")` are function parameters.
- File and stream I/O: save returns bytes, load takes bytes, the OBJ loader
  takes the file text, or none when it cannot be opened.
- Qt widgets, list labels, cursors, `grab()` and timers. The double-click test
  is a boolean parameter. Label choice is modelled only as the two kind
  functions.
- `mouseMoveEvent` drag arithmetic, `wheelEvent` and zoom are not modelled.
  The editor operations they call are.
- `uvToAngle`, the Monte-Carlo render passes, the texture copy, PNG import and
  export are not modelled.
- ObjLoader.ReadText: `getline`'s 1024-byte limit is not modelled. Lines are
  unbounded.
- ObjLoader.ScanText: a line that is only the keyword ("v" with nothing
  after it) makes the source's sscanf read whatever an earlier, longer line
  left in the 1024-byte buffer. The model gives it the empty text.
- ObjLoader.Loader.Load: the tangent float math is not modelled. Only the
  handedness sign is modelled, from a `flipped` parameter.
- ObjLoader.Loader.Load requires that every face line is well-formed and every
  index is in range. The source reads out of bounds otherwise.
- ProjectFormat.Load requires that the stream decodes. The source reads past
  the buffer on a short file.
- FieldOptimizer.Optimizer.Load has the same requirement as ProjectFormat.Load.
- FieldOptimizer.Optimizer.RemoveRectangle requires a valid index when the list
  is non-empty, which `std::vector::erase` assumes.
- FieldOptimizer.Optimizer.DuplicateRectangle, SetField, RotateRectangle,
  SetAlignPhase, FillRectangle, MovePoint and AddPoint require a valid index,
  as the source's `operator[]` does.
- Window.FindMemoryType: when no type is suitable, the source calls `crash`.
  The model returns `found == false`.
- Scheduler.PackInit and Scheduler.PackSmooth require that the draws fit the
  65536-slot uniform buffer. The source does not check this.
- FieldOptimizer.Depth: for an empty buffer (no levels), the source's N is -1.
  The model uses 0, which issues the same passes.
- `getWidth` and `getHeight` are the class fields themselves.
- Concurrency and GPU synchronisation are not modelled beyond the pass order.
