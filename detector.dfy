/**
 * The decision logic of `YoloDetector` and `Detection` (detector.py): the
 * per-label colour table with its fallback, the clamped label anchor, the
 * door-status overlay, the "model not loaded" guard of `detect`, and
 * `to_dict`.
 *
 * Drawing is modelled as a list of draw commands recorded on an image, on top
 * of the pixels it was decoded with; pixel rendering is not modelled.
 */
module Detector {
  import opened Common

  /** An OpenCV colour, in blue-green-red order. */
  datatype Color = Color(b: int, g: int, r: int)

  datatype Point = Point(x: int, y: int)

  /** A bounding box `(x1, y1, x2, y2)` in pixels; no ordering of corners is enforced. */
  datatype Bbox = Bbox(x1: int, y1: int, x2: int, y2: int)

  /** detector.py lines 7-10: a label (`name`), a confidence and a box, none of them validated. */
  datatype Detection = Detection(name: string, confidence: real, bbox: Bbox)

  // ---------------------------------------------------------------------------
  // Detection.to_dict

  /** A field value of the dictionary that `model_dump` produces. */
  datatype Value = Str(s: string) | Float(x: real) | IntQuad(a: int, b: int, c: int, d: int)

  /** detector.py lines 12-13: the fields `label`, `confidence` and `bbox`, unchanged. */
  function ToDict(d: Detection): (m: map<string, Value>)
    ensures m.Keys == {"label", "confidence", "bbox"}
  {
    map["label" := Str(d.name),
        "confidence" := Float(d.confidence),
        "bbox" := IntQuad(d.bbox.x1, d.bbox.y1, d.bbox.x2, d.bbox.y2)]
  }

  /** Reads a dictionary with the three fields back as a detection. */
  function FromDict(m: map<string, Value>): Option<Detection> {
    if "label" in m && "confidence" in m && "bbox" in m
       && m["label"].Str? && m["confidence"].Float? && m["bbox"].IntQuad?
    then
      var q := m["bbox"];
      Some(Detection(m["label"].s, m["confidence"].x, Bbox(q.a, q.b, q.c, q.d)))
    else None
  }

  /** `to_dict` loses nothing: the detection can be read back from it. */
  lemma ToDictRoundTrip(d: Detection)
    ensures FromDict(ToDict(d)) == Some(d)
  {
  }

  /** The example of tests/test_detector.py lines 9-14. */
  lemma ToDictExample()
    ensures var m := ToDict(Detection("hand", 0.95, Bbox(10, 20, 30, 40)));
      m["label"] == Str("hand") && m["confidence"] == Float(0.95) && m["bbox"] == IntQuad(10, 20, 30, 40)
  {
  }

  // ---------------------------------------------------------------------------
  // Colours

  const Red: Color := Color(0, 0, 255)
  const Blue: Color := Color(255, 0, 0)
  const Yellow: Color := Color(0, 255, 255)
  const Green: Color := Color(0, 255, 0)

  /** detector.py lines 22-26: the colour of each known class. */
  const ClassColors: map<string, Color> := map["hand" := Red, "box" := Blue, "product" := Yellow]
  /** detector.py line 27: the colour of every other label. */
  const DefaultColor: Color := Green

  /** Lower-casing of one character (ASCII letters only). */
  function LowerChar(c: char): char {
    if 'A' <= c <= 'Z' then (c as int - 'A' as int + 'a' as int) as char else c
  }

  /** `str.lower`, on ASCII letters. */
  function Lower(s: string): (r: string)
    ensures |r| == |s|
    ensures forall i :: 0 <= i < |s| ==> r[i] == LowerChar(s[i])
  {
    if s == [] then [] else [LowerChar(s[0])] + Lower(s[1..])
  }

  /** detector.py line 50: `class_colors.get(label.lower(), default_color)`. */
  function ColorFor(name: string): Color {
    var key := Lower(name);
    if key in ClassColors then ClassColors[key] else DefaultColor
  }

  lemma LowerIdempotent(s: string)
    ensures Lower(Lower(s)) == Lower(s)
  {
  }

  /**
   * Each of the four colours is chosen for exactly one kind of label: "hand",
   * "box" and "product" in any letter case, and every other label.
   */
  lemma ColorForCases(name: string)
    ensures ColorFor(name) == Red <==> Lower(name) == "hand"
    ensures ColorFor(name) == Blue <==> Lower(name) == "box"
    ensures ColorFor(name) == Yellow <==> Lower(name) == "product"
    ensures ColorFor(name) == DefaultColor <==> Lower(name) !in {"hand", "box", "product"}
  {
  }

  /** The lookup ignores letter case. */
  lemma ColorForIgnoresCase(name: string)
    ensures ColorFor(Lower(name)) == ColorFor(name)
  {
    LowerIdempotent(name);
  }

  lemma ColorForMixedCase()
    ensures ColorFor("Hand") == Red
  {
    assert Lower("Hand") == [LowerChar('H')] + Lower("and");
    assert Lower("Hand") == "hand";
  }

  lemma ColorForUpperCase()
    ensures ColorFor("BOX") == Blue
  {
    assert Lower("BOX") == [LowerChar('B')] + Lower("OX");
    assert Lower("BOX") == "box";
  }

  lemma ColorForUnknown()
    ensures ColorFor("person") == Green
  {
    assert Lower("person") == "person";
  }

  // ---------------------------------------------------------------------------
  // Draw commands

  /** The text of a `putText`: a literal, or a label with its confidence (formatted to two decimals). */
  datatype Caption = Literal(text: string) | Scored(name: string, confidence: real)

  /** One OpenCV drawing call; every text uses the Hershey simplex font. */
  datatype DrawCmd =
    | RectangleOp(p1: Point, p2: Point, color: Color, thickness: nat)
    | TextOp(caption: Caption, org: Point, scale: real, color: Color, thickness: nat, antialiased: bool)

  /** detector.py line 54: the label is drawn 5 pixels above the box, but never above y = 20. */
  function LabelAnchor(b: Bbox): (p: Point)
    ensures p.x == b.x1
    ensures p.y >= 20 && p.y >= b.y1 - 5
    ensures p.y == 20 || p.y == b.y1 - 5
  {
    Point(b.x1, if b.y1 - 5 >= 20 then b.y1 - 5 else 20)
  }

  /** detector.py lines 50-55: the box and its label, both in the label's colour. */
  function DetectionOps(d: Detection): seq<DrawCmd> {
    var color := ColorFor(d.name);
    [RectangleOp(Point(d.bbox.x1, d.bbox.y1), Point(d.bbox.x2, d.bbox.y2), color, 2),
     TextOp(Scored(d.name, d.confidence), LabelAnchor(d.bbox), 0.6, color, 2, false)]
  }

  const StatusOrigin: Point := Point(30, 60)

  /** detector.py lines 58-61: the door-status overlay. */
  function StatusOp(doorOpen: bool): DrawCmd {
    TextOp(Literal(if doorOpen then "DOOR: OPEN" else "DOOR: CLOSED"), StatusOrigin, 1.2,
           if doorOpen then Color(0, 0, 255) else Color(0, 200, 0), 3, true)
  }

  /** The commands drawn for a list of detections, in list order. */
  function DetectionsOps(dets: seq<Detection>): (ops: seq<DrawCmd>)
    ensures |ops| == 2 * |dets|
    decreases |dets|
  {
    if dets == [] then [] else DetectionsOps(dets[..|dets| - 1]) + DetectionOps(dets[|dets| - 1])
  }

  /** Everything `annotate` draws. */
  function AnnotationOps(dets: seq<Detection>, doorOpen: bool): seq<DrawCmd> {
    DetectionsOps(dets) + [StatusOp(doorOpen)]
  }

  lemma DetectionsOpsSnoc(dets: seq<Detection>, k: nat)
    requires k < |dets|
    ensures DetectionsOps(dets[..k + 1]) == DetectionsOps(dets[..k]) + DetectionOps(dets[k])
  {
    assert dets[..k + 1][..k] == dets[..k];
  }

  lemma {:induction false} DetectionsOpsAt(dets: seq<Detection>, i: nat)
    requires i < |dets|
    ensures DetectionsOps(dets)[2 * i] == DetectionOps(dets[i])[0]
    ensures DetectionsOps(dets)[2 * i + 1] == DetectionOps(dets[i])[1]
    decreases |dets|
  {
    if i < |dets| - 1 {
      DetectionsOpsAt(dets[..|dets| - 1], i);
    }
  }

  /**
   * `annotate` draws, for each detection in list order, its rectangle in its
   * label's colour and then its scored label at the clamped anchor, and ends
   * with exactly one status overlay.
   */
  lemma AnnotationLayout(dets: seq<Detection>, doorOpen: bool)
    ensures var ops := AnnotationOps(dets, doorOpen);
      && |ops| == 2 * |dets| + 1
      && ops[2 * |dets|] == StatusOp(doorOpen)
      && (forall i :: 0 <= i < |dets| ==>
            var d := dets[i];
            && ops[2 * i] == RectangleOp(Point(d.bbox.x1, d.bbox.y1), Point(d.bbox.x2, d.bbox.y2), ColorFor(d.name), 2)
            && ops[2 * i + 1] == TextOp(Scored(d.name, d.confidence), LabelAnchor(d.bbox), 0.6, ColorFor(d.name), 2, false))
  {
    var ops := AnnotationOps(dets, doorOpen);
    forall i | 0 <= i < |dets|
      ensures ops[2 * i] == DetectionOps(dets[i])[0] && ops[2 * i + 1] == DetectionOps(dets[i])[1]
    {
      DetectionsOpsAt(dets, i);
    }
  }

  /**
   * The overlay depends on the door flag alone: always at (30, 60), "DOOR:
   * OPEN" in red or "DOOR: CLOSED" in green, and the two differ.
   */
  lemma StatusOpFacts(doorOpen: bool)
    ensures StatusOp(doorOpen).TextOp? && StatusOp(doorOpen).org == Point(30, 60)
    ensures StatusOp(doorOpen).caption == Literal(if doorOpen then "DOOR: OPEN" else "DOOR: CLOSED")
    ensures StatusOp(doorOpen).color == if doorOpen then Color(0, 0, 255) else Color(0, 200, 0)
    ensures StatusOp(true) != StatusOp(false)
  {
  }

  // ---------------------------------------------------------------------------
  // Images

  /** The dimensions of a frame array: rows, columns, channels. */
  datatype Shape = Shape(height: nat, width: nat, channels: nat)

  /** The value of an image: its shape, its decoded pixels and what has been drawn on it since. */
  datatype Picture = Picture(shape: Shape, pixels: seq<int>, marks: seq<DrawCmd>)

  /** The picture `annotate` returns for `p`. */
  function AnnotatePicture(p: Picture, dets: seq<Detection>, doorOpen: bool): Picture {
    p.(marks := p.marks + AnnotationOps(dets, doorOpen))
  }

  /**
   * The annotated picture has the input's shape and pixels, keeps the marks
   * already on it, and always gains the status overlay as its last mark, even
   * when there are no detections (tests/test_detector.py lines 25 and 31-38).
   * Whether pixels change is a matter of rendering: the overlay shows only
   * where its colour differs from the frame's.
   */
  lemma AnnotatePictureFacts(p: Picture, dets: seq<Detection>, doorOpen: bool)
    ensures var q := AnnotatePicture(p, dets, doorOpen);
      && q.shape == p.shape
      && q.pixels == p.pixels
      && |q.marks| == |p.marks| + 2 * |dets| + 1
      && q.marks[..|p.marks|] == p.marks
      && q.marks[|q.marks| - 1] == StatusOp(doorOpen)
  {
  }

  /** A frame that OpenCV draws on in place. */
  class Image {
    const shape: Shape
    const pixels: seq<int>
    var marks: seq<DrawCmd>

    function Snapshot(): Picture
      reads this
    {
      Picture(shape, pixels, marks)
    }

    /** A frame as read from the capture. */
    constructor FromPicture(p: Picture)
      ensures Snapshot() == p
    {
      shape, pixels, marks := p.shape, p.pixels, p.marks;
    }

    /** `frame.copy()`: a new image with the same contents. */
    constructor Copy(src: Image)
      ensures Snapshot() == src.Snapshot()
    {
      shape, pixels, marks := src.shape, src.pixels, src.marks;
    }

    /** `cv2.rectangle` on this image. */
    method Rectangle(p1: Point, p2: Point, color: Color, thickness: nat)
      modifies this
      ensures marks == old(marks) + [RectangleOp(p1, p2, color, thickness)]
    {
      marks := marks + [RectangleOp(p1, p2, color, thickness)];
    }

    /** `cv2.putText` on this image. */
    method PutText(caption: Caption, org: Point, scale: real, color: Color, thickness: nat, antialiased: bool)
      modifies this
      ensures marks == old(marks) + [TextOp(caption, org, scale, color, thickness, antialiased)]
    {
      marks := marks + [TextOp(caption, org, scale, color, thickness, antialiased)];
    }
  }

  // ---------------------------------------------------------------------------
  // The detector

  /** One box of a prediction: its corners, its confidence and its class id. */
  datatype Box = Box(xyxy: Bbox, conf: real, cls: nat)

  /** The first result of `model.predict`: its boxes, in order, and the model's class-name table. */
  datatype Prediction = Prediction(boxes: seq<Box>, names: map<nat, string>)

  /** Every box's class id has a name. */
  predicate NamesCover(p: Prediction) {
    forall i :: 0 <= i < |p.boxes| ==> p.boxes[i].cls in p.names
  }

  /** detector.py lines 36-41: the detection made from one box. */
  function BoxDetection(b: Box, names: map<nat, string>): Detection
    requires b.cls in names
  {
    Detection(names[b.cls], b.conf, b.xyxy)
  }

  /** The detections of a prediction, one per box, in box order. */
  function Detections(p: Prediction): seq<Detection>
    requires NamesCover(p)
  {
    seq(|p.boxes|, i requires 0 <= i < |p.boxes| => BoxDetection(p.boxes[i], p.names))
  }

  datatype DetectError = ModelNotLoaded

  /**
   * detector.py line 19: a model is loaded only when a non-empty path is
   * given and loading is asked for; the loaded model is named by its path.
   */
  function LoadedModel(modelPath: Option<string>, loadModel: bool): (m: Option<string>)
    ensures m.Some? <==> modelPath.Some? && modelPath.value != "" && loadModel
    ensures m.Some? ==> m == modelPath
  {
    if modelPath.Some? && modelPath.value != "" && loadModel then modelPath else None
  }

  class YoloDetector {
    const confThreshold: real
    /** The loaded model, named by its weights path, or None. */
    const model: Option<string>
    const classColors: map<string, Color> := ClassColors
    const defaultColor: Color := DefaultColor

    /** detector.py lines 17-27, with the same defaults. */
    constructor (modelPath: Option<string> := None, confThreshold: real := 0.3, loadModel: bool := true)
      ensures this.confThreshold == confThreshold
      ensures model == LoadedModel(modelPath, loadModel)
    {
      this.confThreshold := confThreshold;
      model := LoadedModel(modelPath, loadModel);
    }

    /**
     * detector.py lines 29-43: fails when no model is loaded; otherwise one
     * detection per box of the prediction, in box order.
     */
    method Detect(prediction: Prediction) returns (r: Result<seq<Detection>, DetectError>)
      requires NamesCover(prediction)
      ensures r.Failure? <==> model.None?
      ensures r.Failure? ==> r.error == ModelNotLoaded
      ensures r.Success? ==>
        && |r.value| == |prediction.boxes|
        && forall i :: 0 <= i < |prediction.boxes| ==> r.value[i] == BoxDetection(prediction.boxes[i], prediction.names)
    {
      if model.None? {
        return Failure(ModelNotLoaded);
      }
      var detections: seq<Detection> := [];
      var k := 0;
      while k < |prediction.boxes|
        invariant 0 <= k <= |prediction.boxes|
        invariant |detections| == k
        invariant forall i :: 0 <= i < k ==> detections[i] == BoxDetection(prediction.boxes[i], prediction.names)
      {
        var box := prediction.boxes[k];
        var name := prediction.names[box.cls];
        detections := detections + [Detection(name, box.conf, box.xyxy)];
        k := k + 1;
      }
      return Success(detections);
    }

    /** The body of the loop of `annotate` (detector.py lines 50-55): one detection's box and label. */
    method DrawDetection(annotated: Image, det: Detection)
      modifies annotated
      ensures annotated.marks == old(annotated.marks) + DetectionOps(det)
    {
      var key := Lower(det.name);
      var color := if key in classColors then classColors[key] else defaultColor;
      var Bbox(x1, y1, x2, y2) := det.bbox;
      annotated.Rectangle(Point(x1, y1), Point(x2, y2), color, 2);
      annotated.PutText(Scored(det.name, det.confidence), LabelAnchor(det.bbox),
                        0.6, color, 2, false);
    }

    /** detector.py lines 58-61: the door-status overlay. */
    method DrawStatus(annotated: Image, doorOpen: bool)
      modifies annotated
      ensures annotated.marks == old(annotated.marks) + [StatusOp(doorOpen)]
    {
      var text := if doorOpen then "DOOR: OPEN" else "DOOR: CLOSED";
      var color := if doorOpen then Color(0, 0, 255) else Color(0, 200, 0);
      annotated.PutText(Literal(text), StatusOrigin, 1.2, color, 3, true);
    }

    /**
     * detector.py lines 45-63: draws on a copy of the frame, leaving the frame
     * itself untouched, and returns the copy.
     */
    method Annotate(frame: Image, detections: seq<Detection>, doorOpen: bool) returns (annotated: Image)
      ensures fresh(annotated)
      ensures annotated.Snapshot() == AnnotatePicture(frame.Snapshot(), detections, doorOpen)
    {
      annotated := new Image.Copy(frame);
      var k := 0;
      while k < |detections|
        invariant 0 <= k <= |detections|
        invariant annotated.shape == frame.shape && annotated.pixels == frame.pixels
        invariant annotated.marks == frame.marks + DetectionsOps(detections[..k])
      {
        DrawDetection(annotated, detections[k]);
        DetectionsOpsSnoc(detections, k);
        k := k + 1;
      }
      assert detections[..k] == detections;
      DrawStatus(annotated, doorOpen);
    }
  }
}
