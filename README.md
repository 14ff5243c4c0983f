# Door-triggered clip recorder of the vending vision pipeline, in Dafny

This project models the core of a video pipeline for a vending machine. For
each frame the pipeline decides whether the door is open, detects objects,
annotates the frame, and records video clips that cover the intervals during
which the door is open.

- `recorder.dfy` (module `Recorder`) models the event-driven recorder inside
  `run_pipeline`. It is a two-state machine, idle or recording, driven by the
  per-frame door flag. Its state is the `recording` flag, the open writer,
  the released clips and `clip_index`. The `Recorder` class holds that state
  as fields. `Step` is the per-frame body. `Finish` is the release done after
  the loop. The same behaviour is written as the pure function `StepState`.
  A second, independent definition, `Segments`, describes the clips by
  maximal runs of open frames. The lemmas prove the two agree.
- `clip_naming.dfy` (module `ClipNaming`) models the clip path template
  `door_open_clip_{:03d}.mp4`. It proves that the index can be read back from
  the file name, so no two clips share a path.
- `detector.dfy` (module `Detector`) models `YoloDetector` and `Detection`:
  - the colour table with its fallback;
  - the clamped label anchor;
  - the door-status overlay;
  - the `detect` guard against a missing model, and the list `detect` builds;
  - `annotate` as a list of draw commands recorded on a fresh copy of the frame;
  - `to_dict`.
- `pipeline.dfy` (module `Pipeline`) models the frame loop of `run_pipeline`.
  Each frame is detected, annotated and recorded. The loop ends at stream end
  or on the 'q' key, and then it releases any open writer.
- `common.dfy` holds the `Option` and `Result` types.

Behaviour fixed by the code that the model reproduces:

- Per frame, the start test runs before the write, and the write runs before
  the stop test. So the frame that opens a clip is written to it. The closed
  frame that ends an open run is written too, before the writer is released.
  `[F,F,T,T,T,F,F]` gives one clip with frames 2..5. `[T,F,T,F]` gives clips
  0 and 1 with two frames each. Because the closing frame is written, a clip
  ended by a closed frame holds its run plus one frame.
- There is no error path for a failed writer open or a failed write: the code
  sets `recording` without checking the writer and never checks a write.
- The stop message carries no path, so the model's `Stopped` event has none.
- `Detection` fields are not validated.

## Model

| member | source | states |
|---|---|---|
| `ClipNaming.Decimal` | main.py:28 | the decimal rendering of an index is non-empty and all digits, has no leading zero unless the index is 0, and is one digit exactly when the index is below 10 |
| `ClipNaming.ParseDecimalOfDecimal` | main.py:28 | reading the rendered digits back gives the index |
| `ClipNaming.ZeroPad` | main.py:28 | padding to width w gives exactly max(w, length) characters |
| `ClipNaming.ZeroPadShape` | main.py:28 | padding only puts '0' characters in front of the unchanged digits |
| `ClipNaming.ParseDecimalLeadingZero` | main.py:28 | a leading zero does not change the value of a digit string |
| `ClipNaming.ParseDecimalOfZeroPad` | main.py:28 | zero-padding keeps the string all digits and keeps its value |
| `ClipNaming.DecimalLength` | main.py:28 | an index below 1000 has at most three digits |
| `ClipNaming.IndexFieldShape` | main.py:28 | the `{:03d}` field is all digits, has at least 3 of them, has exactly 3 below 1000, and reads back as the index |
| `ClipNaming.FileNameRoundTrip` | main.py:66 | the clip index can be recovered from the clip's file name |
| `ClipNaming.ClipPathInjective` | main.py:66 | two clip indices in one directory share a path only if they are equal, so no clip file is reused |
| `ClipNaming.FileNameExampleZero` | main.py:28 | index 0 gives `door_open_clip_000.mp4` |
| `ClipNaming.FileNameExampleTwoDigits` | main.py:28 | index 42 gives `door_open_clip_042.mp4` |
| `ClipNaming.FileNameExampleFourDigits` | main.py:28 | index 1234 gives `door_open_clip_1234.mp4`, not truncated |
| `Recorder.StartBranch` | main.py:64-70 | the start branch keeps "a writer is open exactly while recording" |
| `Recorder.WriteBranch` | main.py:72-73 | the write branch keeps "a writer is open exactly while recording" |
| `Recorder.StopBranch` | main.py:75-80 | the stop branch keeps "a writer is open exactly while recording" |
| `Recorder.StepState` | main.py:64-80 | a frame, with its three branches in the source's order, keeps "a writer is open exactly while recording" |
| `Recorder.Run` | main.py:45-85 | processing frames in arrival order keeps "a writer is open exactly while recording" |
| `Recorder.OpenPrefix` | main.py:64-80 | the leading run of open frames is maximal: every frame in it is open, and the frame after it is closed |
| `Recorder.StepKeepsCoherent` | main.py:64-80 | a frame keeps the invariant: at most one writer is open, and only while recording; released clips are numbered 0, 1, 2, ... and are non-empty; `clip_index` counts them; the open clip carries `clip_index` and is non-empty |
| `Recorder.StepFacts` | main.py:64-80 | after a frame, `recording` equals the door flag. A start uses the current index and writes the triggering frame. An open frame while recording is appended. A closed frame while recording is written, then its clip is released. Only a stop increments the index. A closed frame while idle changes nothing |
| `Recorder.FinishFacts` | main.py:88-89 | the release after the loop closes the open clip, if any, and leaves `clip_index` unchanged |
| `Recorder.RunSnoc` | main.py:45-85 | processing one more frame after a sequence is one more step |
| `Recorder.RunWhileOpen` | main.py:72-73 | while the door stays open, each frame is appended to the open clip exactly once, in arrival order |
| `Recorder.OpenRunFromIdle` | main.py:64-73 | from idle, a run of open frames opens clip `clip_index` and writes the whole run to it, the first frame included |
| `Recorder.CloseAfterRun` | main.py:72-80 | the closed frame that ends a run is written before the clip is released, and the index then increments |
| `Recorder.NumberedCons` | main.py:79 | numbering a list of clips from k gives clip k first, then the rest numbered from k+1 |
| `Recorder.RecordFromIdle` | main.py:64-89 | from any idle state, a session releases exactly the numbered segments after the clips already released |
| `Recorder.RecordIsNumberedSegments` | main.py:45-89 | the clips of a session are its maximal open runs numbered 0, 1, 2, .... Each clip holds its run plus the closing frame. A run still open at stream end holds exactly its run |
| `Recorder.SegmentsNonEmpty` | main.py:64-73 | no clip is empty |
| `Recorder.OpenRunsThroughRun` | main.py:64 | no new run starts inside a run of open frames |
| `Recorder.SegmentsCount` | main.py:64-70 | there is exactly one clip per maximal run of open frames |
| `Recorder.WrittenThroughRun` | main.py:72-73 | inside an open run, every frame is written, in order |
| `Recorder.WrittenOpenRun` | main.py:64-73 | a run of open frames after a closed frame is written in full |
| `Recorder.WrittenClosing` | main.py:72-80 | the closed frame after an open frame is written |
| `Recorder.SegmentsConcat` | main.py:72-73 | laid end to end, the clips hold exactly the frames that are open or follow an open frame, each once and in arrival order |
| `Recorder.RecordFacts` | main.py:45-89 | over a whole session: clip indices are 0, 1, 2, ... and never reused; every clip is non-empty; the clip count is the number of open runs; the released clips' frames, laid end to end, are exactly the written frames |
| `Recorder.ClosedHasNoRuns` | main.py:64 | an all-closed door signal has no open run |
| `Recorder.RecordAllClosed` | main.py:64-80 | if the door is never open, no clip is recorded |
| `Recorder.ScenarioOneRun` | main.py:64-89 | `[F,F,T,T,T,F,F]` gives one clip, index 0, with frames 2, 3, 4, 5 |
| `Recorder.ScenarioOpenAtEnd` | main.py:87-89 | `[T]` gives one clip, index 0, with one frame, saved by the release after the loop |
| `Recorder.ScenarioAlternating` | main.py:64-80 | `[T,F,T,F]` gives clips 0 and 1, with frames 0,1 and 2,3 |
| `Recorder.Recorder.constructor` | main.py:40-42 | the recorder starts idle: no writer, no clips, index 0 |
| `Recorder.Recorder.Step` | main.py:64-80 | the fields become `StepState` of the old ones, and the invariant is kept. The message is "started" with the clip path `ClipPath(outDir, clip_index)` on a start, "stopped" on a stop, and nothing otherwise |
| `Recorder.Recorder.Finish` | main.py:87-89 | an open writer is released, its clip is appended, and the index and `recording` are unchanged |
| `Detector.ToDict` | detector.py:12-13 | the dictionary has exactly the keys `label`, `confidence` and `bbox` |
| `Detector.ToDictRoundTrip` | detector.py:12-13 | `to_dict` keeps all three fields unchanged, since the detection reads back from it |
| `Detector.ToDictExample` | tests/test_detector.py:9-14 | the test's detection dumps to label "hand", confidence 0.95 and bbox (10, 20, 30, 40) |
| `Detector.Lower` | detector.py:50 | lower-casing keeps the length and lower-cases each character |
| `Detector.LowerIdempotent` | detector.py:50 | lower-casing twice is the same as lower-casing once |
| `Detector.ColorForCases` | detector.py:22-27 | a label gets red exactly when it lower-cases to "hand", blue for "box", yellow for "product", and green (the fallback) for anything else |
| `Detector.ColorForIgnoresCase` | detector.py:50 | the colour lookup is case-insensitive |
| `Detector.ColorForMixedCase` | detector.py:50 | "Hand" gets red |
| `Detector.ColorForUpperCase` | detector.py:50 | "BOX" gets blue |
| `Detector.ColorForUnknown` | detector.py:50 | "person" gets the green fallback |
| `Detector.LabelAnchor` | detector.py:54 | the label's anchor is at x = x1 and y = max(y1 - 5, 20), so it is never above y = 20 |
| `Detector.DetectionsOps` | detector.py:49-55 | every detection contributes two draw commands |
| `Detector.DetectionsOpsSnoc` | detector.py:49 | one more detection appends its two commands at the end |
| `Detector.DetectionsOpsAt` | detector.py:49-55 | the commands for the i-th detection are at positions 2i and 2i+1 |
| `Detector.AnnotationLayout` | detector.py:49-61 | `annotate` draws, per detection in list order, a rectangle in the label's colour and then the scored label at the clamped anchor, and then exactly one status overlay |
| `Detector.StatusOpFacts` | detector.py:58-61 | the overlay depends only on the door flag: "DOOR: OPEN" in (0,0,255) or "DOOR: CLOSED" in (0,200,0), always at (30, 60), and the two differ |
| `Detector.AnnotatePictureFacts` | detector.py:46-63 | the annotated frame has the input's shape and pixels and keeps the marks already on it. It gains two marks per detection, and always ends with the status overlay, even with no detections. Whether pixels change depends on the overlay's colour against the frame |
| `Detector.Image.FromPicture` | main.py:46 | a frame read from the capture holds the decoded picture |
| `Detector.Image.Copy` | detector.py:46 | `frame.copy()` has the same contents as the frame |
| `Detector.Image.Rectangle` | detector.py:52 | `cv2.rectangle` appends one rectangle command to the image |
| `Detector.Image.PutText` | detector.py:54-55 | `cv2.putText` appends one text command to the image |
| `Detector.LoadedModel` | detector.py:19 | a model is loaded exactly when a non-empty path is given and loading is requested |
| `Detector.YoloDetector.constructor` | detector.py:17-27 | the detector keeps the threshold, and holds a model only as `LoadedModel` says |
| `Detector.YoloDetector.Detect` | detector.py:29-43 | `detect` fails with "model not loaded" exactly when there is no model. Otherwise it returns one detection per box, in box order, with the box's class name, confidence and corners |
| `Detector.YoloDetector.DrawDetection` | detector.py:50-55 | one loop iteration draws the detection's rectangle and its label |
| `Detector.YoloDetector.DrawStatus` | detector.py:58-61 | the status overlay is one text command |
| `Detector.YoloDetector.Annotate` | detector.py:45-63 | the result is a fresh image. It holds the frame's contents plus exactly the annotation commands, and the input frame is not modified |
| `Pipeline.Processed` | main.py:82-83 | the loop processes frames up to and including the first one after which 'q' is pressed, or all frames |
| `Pipeline.FramesSnoc` | main.py:45-85 | the frames handed to the recorder grow by one annotated frame per iteration |
| `Pipeline.ExtendPrefix` | main.py:53-80 | recording the next annotated frame is one more recorder step |
| `Pipeline.QuitEndsLoop` | main.py:82-83 | a 'q' after a processed frame ends the loop right after that frame |
| `Pipeline.ProcessFrame` | main.py:51-80 | one iteration detects, annotates and records. It fails, leaving the recorder untouched, exactly when no model is loaded |
| `Pipeline.RunPipeline` | main.py:30-89 | a run fails exactly when frames arrive and no model is loaded. Otherwise it yields `Record` of the annotated frames processed before stream end or 'q', the clip still open at that point included |

## Left out

- Video capture, decoding and encoding (`cv2.VideoCapture`, `cv2.VideoWriter`, fourcc, fps, frame size) are I/O over a library not shown. A frame is an abstract `Picture` value. A writer is the clip it is writing, and releasing it adds the clip to a log.
- `cap.release()` and `cv2.destroyAllWindows()` are window and capture teardown with nothing to verify.
- The `waitKey(delay)` timing, `delay = int(1000 / fps)` and the `fps or 30` default are float timing. Whether 'q' was pressed after each frame is an input flag.
- `DoorStateTracker.is_open` is a grey-scale mean compared with a threshold. The door flag of each frame is an input.
- `model.predict`, loading the YOLO weights, and the tensor-to-int conversions in `detect` are a foreign neural-net call over float tensors. The prediction (its boxes and class-name table) is an input, and `conf_threshold` is only stored.
- Logging configuration, directory creation, and the per-frame structured log record are side-effecting infrastructure. The `frame_id` counter is used only in that record.
- The confidence text `f"{det.confidence:.2f}"` is float formatting, and pixel rendering is library drawing. A label's text is the scored label, kept as a value.
- `Detector.Lower` lower-cases ASCII letters only. Python's `str.lower` also lower-cases non-ASCII letters, which only matters for labels outside the model's class names.
- `Detector.YoloDetector.Detect` requires every box's class id to have an entry in the prediction's name table. The source would raise `KeyError` otherwise, but the detection model always provides a name for each of its classes.
- `Recorder.Recorder.Finish` drops the writer once it is released. The source keeps the released writer object in `video_writer`, but nothing uses it afterwards.
- The output directory is assumed to contain no `{` or `}`. The source builds the template with `str.format`, which would treat such characters as format fields.
- An exception raised mid-run by `detect` ends the source's loop without releasing a writer. In the model the only `detect` failure (no model) happens at the first frame, before any writer is open.
