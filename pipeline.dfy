/**
 * The frame loop of `run_pipeline` (main.py lines 30-89): read a frame,
 * classify the door, detect, annotate, record, and stop at stream end or on
 * the 'q' key; then release any open writer.
 *
 * What the collaborators return for each frame (the decoded picture, the
 * door flag, the model's prediction and whether 'q' was pressed after it)
 * is given as input.
 */
module Pipeline {
  import opened Common
  import opened Recorder
  import opened Detector

  /** What the loop learns about one frame from its collaborators. */
  datatype FrameInput = FrameInput(frame: Picture, doorOpen: bool, prediction: Prediction, quitKey: bool)

  /**
   * The number of frames the loop processes: up to and including the first
   * one after which 'q' is pressed, or all of them.
   */
  function Processed(inputs: seq<FrameInput>): (n: nat)
    ensures n <= |inputs|
    ensures |inputs| > 0 ==> n > 0
    ensures forall i :: 0 <= i < n - 1 ==> !inputs[i].quitKey
    ensures n < |inputs| ==> inputs[n - 1].quitKey
  {
    if inputs == [] then 0
    else if inputs[0].quitKey then 1
    else 1 + Processed(inputs[1..])
  }

  predicate WellFormed(inputs: seq<FrameInput>) {
    forall i :: 0 <= i < |inputs| ==> NamesCover(inputs[i].prediction)
  }

  /** The annotated frame handed to the recorder for one input. */
  function AnnotatedFrame(input: FrameInput): Picture
    requires NamesCover(input.prediction)
  {
    AnnotatePicture(input.frame, Detections(input.prediction), input.doorOpen)
  }

  /** The annotated frames handed to the recorder for the first `n` inputs. */
  function AnnotatedFrames(inputs: seq<FrameInput>, n: nat): seq<Picture>
    requires WellFormed(inputs) && n <= |inputs|
  {
    seq(n, i requires 0 <= i < n => AnnotatedFrame(inputs[i]))
  }

  /** The door flags of the first `n` inputs. */
  function DoorSignal(inputs: seq<FrameInput>, n: nat): seq<bool>
    requires n <= |inputs|
  {
    seq(n, i requires 0 <= i < n => inputs[i].doorOpen)
  }

  lemma FramesSnoc(inputs: seq<FrameInput>, i: nat)
    requires WellFormed(inputs) && i < |inputs|
    ensures AnnotatedFrames(inputs, i + 1) == AnnotatedFrames(inputs, i) + [AnnotatedFrame(inputs[i])]
    ensures DoorSignal(inputs, i + 1) == DoorSignal(inputs, i) + [inputs[i].doorOpen]
  {
  }

  /** Processing frame `i` extends the recorder's run over the frames before it. */
  lemma ExtendPrefix(inputs: seq<FrameInput>, i: nat)
    requires WellFormed(inputs) && i < |inputs|
    ensures Run(Initial(), AnnotatedFrames(inputs, i + 1), DoorSignal(inputs, i + 1))
         == StepState(Run(Initial(), AnnotatedFrames(inputs, i), DoorSignal(inputs, i)),
                      AnnotatedFrame(inputs[i]), inputs[i].doorOpen)
  {
    FramesSnoc(inputs, i);
    RunSnoc(Initial(), AnnotatedFrames(inputs, i), DoorSignal(inputs, i), AnnotatedFrame(inputs[i]), inputs[i].doorOpen);
  }

  /** A 'q' pressed after a frame the loop processes ends the loop there. */
  lemma QuitEndsLoop(inputs: seq<FrameInput>, i: nat)
    requires i < Processed(inputs) && inputs[i].quitKey
    ensures Processed(inputs) == i + 1
  {
  }

  /**
   * One iteration of the loop after a frame was read (main.py lines 51-80):
   * detect, annotate, then let the recorder process the annotated frame. It
   * fails, leaving the recorder as it was, when no model is loaded.
   */
  method ProcessFrame(detector: YoloDetector, recorder: Recorder<Picture>, input: FrameInput) returns (ok: bool)
    requires recorder.Valid() && NamesCover(input.prediction)
    modifies recorder
    ensures recorder.Valid()
    ensures ok <==> detector.model.Some?
    ensures recorder.State()
         == if ok then StepState(old(recorder.State()), AnnotatedFrame(input), input.doorOpen) else old(recorder.State())
  {
    var frame := new Image.FromPicture(input.frame);
    var detected := detector.Detect(input.prediction);
    if detected.Failure? {
      return false;
    }
    assert detected.value == Detections(input.prediction);
    var annotated := detector.Annotate(frame, detected.value, input.doorOpen);
    var _ := recorder.Step(annotated.Snapshot(), input.doorOpen);
    return true;
  }

  /**
   * A run fails exactly when frames arrive and no model is loaded (the first
   * `detect` raises, before anything is recorded); otherwise its clips are
   * those the recorder makes from the annotated frames processed before the
   * stream ended or 'q' was pressed, the open one included.
   */
  method RunPipeline(outDir: string, detector: YoloDetector, inputs: seq<FrameInput>)
    returns (r: Result<seq<Clip<Picture>>, DetectError>)
    requires WellFormed(inputs)
    ensures r.Failure? <==> detector.model.None? && |inputs| > 0
    ensures r.Success? ==>
      var n := Processed(inputs);
      r.value == Record(AnnotatedFrames(inputs, n), DoorSignal(inputs, n))
  {
    var recorder := new Recorder<Picture>(outDir);
    var i := 0;
    var quit := false;
    while i < |inputs| && !quit
      invariant 0 <= i <= |inputs|
      invariant i <= Processed(inputs)
      invariant quit ==> i == Processed(inputs)
      invariant !quit && i < |inputs| ==> i < Processed(inputs)
      invariant i > 0 ==> detector.model.Some?
      invariant recorder.Valid()
      invariant recorder.State() == Run(Initial(), AnnotatedFrames(inputs, i), DoorSignal(inputs, i))
    {
      var ok := ProcessFrame(detector, recorder, inputs[i]);
      if !ok {
        return Failure(ModelNotLoaded);
      }
      ExtendPrefix(inputs, i);
      if inputs[i].quitKey {
        QuitEndsLoop(inputs, i);
      }
      quit := inputs[i].quitKey;
      i := i + 1;
    }
    recorder.Finish();
    return Success(recorder.clips);
  }
}
