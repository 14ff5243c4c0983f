/**
 * The event-driven clip recorder of `run_pipeline` (main.py): a two-state
 * machine (idle or recording) driven by one `door_open` flag per frame.
 *
 * The video writer is abstract: an open writer is the clip it is writing
 * (the index it was opened with and the frames written so far), and releasing it
 * appends that clip to the log of finished clips.
 *
 * Per frame the three branches of main.py run in this order: start a clip
 * when the door is open and nothing is recording; write the frame when
 * recording; stop (release and count) when the door is closed and recording.
 * Because the write comes before the stop, the closed frame that ends an open
 * run is still written into the clip.
 */
module Recorder {
  import opened Common
  import opened ClipNaming

  /**
   * One clip: the index it was opened with and its frames in order. Its file
   * is `ClipPath(outDir, index)`, a function of the index alone.
   */
  datatype Clip<F> = Clip(index: nat, frames: seq<F>)

  /** What a frame's processing announces: "Started recording: <path>", "Stopped recording" or nothing. */
  datatype Event = Started(path: string) | Stopped | NoEvent

  /**
   * The recorder's state: the `recording` flag, the writer currently open,
   * the clips released so far (in release order) and `clip_index`.
   */
  datatype RecState<F> = RecState(recording: bool, openClip: Option<Clip<F>>, clips: seq<Clip<F>>, clipIndex: nat)

  /** The state before the first frame (main.py lines 40-42). */
  function Initial<F>(): RecState<F> {
    RecState(false, None, [], 0)
  }

  /** A writer is open exactly while recording. */
  predicate Attached<F>(s: RecState<F>) {
    s.recording <==> s.openClip.Some?
  }

  /**
   * The invariant the recorder keeps between frames: at most one writer is
   * open and only while recording, released clips are numbered 0, 1, 2, ...
   * and are never empty, `clip_index` counts them, and the open clip (if
   * any) carries `clip_index` and is not empty.
   */
  ghost predicate Coherent<F>(s: RecState<F>) {
    && Attached(s)
    && |s.clips| == s.clipIndex
    && (forall j :: 0 <= j < |s.clips| ==>
          s.clips[j].index == j && s.clips[j].frames != [])
    && (s.openClip.Some? ==>
          && s.openClip.value.index == s.clipIndex
          && s.openClip.value.frames != [])
  }

  /** main.py lines 64-70: with the door open and nothing recording, open a writer for clip `clip_index`. */
  function StartBranch<F>(s: RecState<F>, doorOpen: bool): (r: RecState<F>)
    requires Attached(s)
    ensures Attached(r)
  {
    if doorOpen && !s.recording
    then s.(recording := true, openClip := Some(Clip(s.clipIndex, [])))
    else s
  }

  /** main.py lines 72-73: while recording, write the frame to the open writer. */
  function WriteBranch<F>(s: RecState<F>, frame: F): (r: RecState<F>)
    requires Attached(s)
    ensures Attached(r)
  {
    if s.recording
    then s.(openClip := Some(s.openClip.value.(frames := s.openClip.value.frames + [frame])))
    else s
  }

  /** main.py lines 75-80: with the door closed while recording, release the writer and count the clip. */
  function StopBranch<F>(s: RecState<F>, doorOpen: bool): (r: RecState<F>)
    requires Attached(s)
    ensures Attached(r)
  {
    if !doorOpen && s.recording
    then s.(recording := false, openClip := None, clips := s.clips + [s.openClip.value], clipIndex := s.clipIndex + 1)
    else s
  }

  /** Processing of one frame (main.py lines 64-80): the three branches, in the source's order. */
  function StepState<F>(s: RecState<F>, frame: F, doorOpen: bool): (r: RecState<F>)
    requires Attached(s)
    ensures Attached(r)
  {
    StopBranch(WriteBranch(StartBranch(s, doorOpen), frame), doorOpen)
  }

  /** The message logged while processing a frame from state `s`. */
  function StepEvent<F>(outDir: string, s: RecState<F>, doorOpen: bool): Event {
    if doorOpen && !s.recording then Started(ClipPath(outDir, s.clipIndex))
    else if !doorOpen && s.recording then Stopped
    else NoEvent
  }

  /**
   * The tail of `run_pipeline` (main.py lines 88-89): an open writer is
   * released; `clip_index` is not incremented and `recording` is not reset.
   */
  function FinishState<F>(s: RecState<F>): RecState<F>
    requires Attached(s)
  {
    if s.recording && s.openClip.Some? then s.(openClip := None, clips := s.clips + [s.openClip.value]) else s
  }

  /** Processing the frames `fs` with door flags `ds`, one at a time and in order, from state `s`. */
  function Run<F>(s: RecState<F>, fs: seq<F>, ds: seq<bool>): (r: RecState<F>)
    requires |fs| == |ds|
    requires Attached(s)
    ensures Attached(r)
    decreases |ds|
  {
    if ds == [] then s else Run(StepState(s, fs[0], ds[0]), fs[1..], ds[1..])
  }

  /** The released clips of a whole session: every frame processed, then the tail release. */
  function Record<F>(fs: seq<F>, ds: seq<bool>): seq<Clip<F>>
    requires |fs| == |ds|
  {
    FinishState(Run(Initial(), fs, ds)).clips
  }

  // ---------------------------------------------------------------------------
  // An independent description of the clips, by maximal runs of open frames.

  /** The length of the run of open frames at the front of `ds`. */
  function OpenPrefix(ds: seq<bool>): (n: nat)
    ensures n <= |ds|
    ensures forall i :: 0 <= i < n ==> ds[i]
    ensures n < |ds| ==> !ds[n]
  {
    if ds == [] || !ds[0] then 0 else 1 + OpenPrefix(ds[1..])
  }

  /**
   * The frames of each clip: a maximal run of open frames followed by the
   * closed frame that ends it, or the run alone when the stream ends during it.
   * Closed frames outside a run belong to no clip.
   */
  function Segments<F>(ds: seq<bool>, fs: seq<F>): seq<seq<F>>
    requires |ds| == |fs|
    decreases |ds|
  {
    if ds == [] then []
    else if !ds[0] then Segments(ds[1..], fs[1..])
    else
      var n := OpenPrefix(ds);
      if n == |ds| then [fs]
      else [fs[..n + 1]] + Segments(ds[n + 1..], fs[n + 1..])
  }

  /** Numbers a list of frame lists as clips `k`, `k+1`, ... */
  function Numbered<F>(segs: seq<seq<F>>, k: nat): seq<Clip<F>> {
    seq(|segs|, j requires 0 <= j < |segs| => Clip(k + j, segs[j]))
  }

  lemma NumberedCons<F>(seg: seq<F>, segs: seq<seq<F>>, k: nat)
    ensures Numbered([seg] + segs, k) == [Clip(k, seg)] + Numbered(segs, k + 1)
  {
    var l, r := Numbered([seg] + segs, k), [Clip(k, seg)] + Numbered(segs, k + 1);
    assert |l| == |r|;
    forall j | 0 <= j < |l| ensures l[j] == r[j] {
      if j > 0 { assert ([seg] + segs)[j] == segs[j - 1]; }
    }
  }

  /** The number of maximal runs of open frames in `ds`, when the frame before `ds` had flag `prev`. */
  function OpenRuns(prev: bool, ds: seq<bool>): nat
    decreases |ds|
  {
    if ds == [] then 0
    else (if ds[0] && !prev then 1 else 0) + OpenRuns(ds[0], ds[1..])
  }

  /** The frames the recorder writes, when the frame before `ds` had flag `prev`: a frame is written when it or its predecessor is open. */
  function WrittenFrames<F>(prev: bool, ds: seq<bool>, fs: seq<F>): seq<F>
    requires |ds| == |fs|
    decreases |ds|
  {
    if ds == [] then []
    else (if ds[0] || prev then [fs[0]] else []) + WrittenFrames(ds[0], ds[1..], fs[1..])
  }

  /** The frame lists of a sequence of clips, in order. */
  function FramesOf<F>(clips: seq<Clip<F>>): seq<seq<F>> {
    seq(|clips|, j requires 0 <= j < |clips| => clips[j].frames)
  }

  function Concat<F>(segs: seq<seq<F>>): seq<F> {
    if segs == [] then [] else segs[0] + Concat(segs[1..])
  }

  // ---------------------------------------------------------------------------
  // One frame.

  /** Processing a frame keeps the recorder's invariant. */
  lemma StepKeepsCoherent<F>(s: RecState<F>, frame: F, doorOpen: bool)
    requires Coherent(s)
    ensures Coherent(StepState(s, frame, doorOpen))
  {
    var r := StepState(s, frame, doorOpen);
    if s.recording && !doorOpen {
      assert r.clips == s.clips + [r.clips[|s.clips|]];
    }
  }

  /**
   * What one frame does: afterwards the recorder records exactly when the door
   * is open; a start uses the current index and writes the triggering frame; a
   * frame seen while recording is appended to the open clip; a stop releases
   * the clip with the closing frame written, and is the only thing that
   * increments the index.
   */
  lemma StepFacts<F>(s: RecState<F>, frame: F, doorOpen: bool)
    requires Attached(s)
    ensures var r := StepState(s, frame, doorOpen);
      && r.recording == doorOpen
      && r.clipIndex == s.clipIndex + (if s.recording && !doorOpen then 1 else 0)
      && (doorOpen && !s.recording ==>
            r.openClip == Some(Clip(s.clipIndex, [frame])) && r.clips == s.clips)
      && (doorOpen && s.recording ==>
            r.openClip == Some(s.openClip.value.(frames := s.openClip.value.frames + [frame])) && r.clips == s.clips)
      && (!doorOpen && s.recording ==>
            r.openClip == None && r.clips == s.clips + [s.openClip.value.(frames := s.openClip.value.frames + [frame])])
      && (!doorOpen && !s.recording ==> r == s)
  {
    assert [] + [frame] == [frame];
  }

  /** The tail release closes any open clip without touching the index. */
  lemma FinishFacts<F>(s: RecState<F>)
    requires Attached(s)
    ensures FinishState(s).clipIndex == s.clipIndex
    ensures FinishState(s).openClip == None
    ensures FinishState(s).clips == s.clips + (if s.recording then [s.openClip.value] else [])
  {
  }

  /** Processing one more frame after a run extends the run. */
  lemma {:induction false} RunSnoc<F>(s: RecState<F>, fs: seq<F>, ds: seq<bool>, f: F, d: bool)
    requires |fs| == |ds|
    requires Attached(s)
    ensures Run(s, fs + [f], ds + [d]) == StepState(Run(s, fs, ds), f, d)
    decreases |ds|
  {
    if ds == [] {
      assert Run(StepState(s, f, d), [], []) == StepState(s, f, d);
      assert (fs + [f])[1..] == [] && (ds + [d])[1..] == [];
    } else {
      var s1 := StepState(s, fs[0], ds[0]);
      RunSnoc(s1, fs[1..], ds[1..], f, d);
      assert (fs + [f])[1..] == fs[1..] + [f];
      assert (ds + [d])[1..] == ds[1..] + [d];
    }
  }

  // ---------------------------------------------------------------------------
  // A whole session.

  /** While the door stays open, every frame is appended to the open clip, in order. */
  lemma {:induction false} RunWhileOpen<F>(c: Clip<F>, clips: seq<Clip<F>>, k: nat,
                                           fs: seq<F>, ds: seq<bool>, m: nat)
    requires |fs| == |ds| && m <= |ds|
    requires forall i :: 0 <= i < m ==> ds[i]
    ensures Run(RecState(true, Some(c), clips, k), fs, ds)
         == Run(RecState(true, Some(c.(frames := c.frames + fs[..m])), clips, k), fs[m..], ds[m..])
    decreases m
  {
    if m == 0 {
      assert c.(frames := c.frames + fs[..0]) == c;
    } else {
      var c1 := c.(frames := c.frames + [fs[0]]);
      RunWhileOpen(c1, clips, k, fs[1..], ds[1..], m - 1);
      assert fs[1..][m - 1..] == fs[m..];
      assert ds[1..][m - 1..] == ds[m..];
      assert c.frames + [fs[0]] + fs[1..][..m - 1] == c.frames + fs[..m];
    }
  }

  /** From an idle state, a run of `n` open frames opens clip `k` and writes those frames to it. */
  lemma OpenRunFromIdle<F>(clips: seq<Clip<F>>, k: nat, fs: seq<F>, ds: seq<bool>, n: nat)
    requires |fs| == |ds| && 0 < n <= |ds|
    requires forall i :: 0 <= i < n ==> ds[i]
    ensures Run(RecState(false, None, clips, k), fs, ds)
         == Run(RecState(true, Some(Clip(k, fs[..n])), clips, k), fs[n..], ds[n..])
  {
    var s := RecState(false, None, clips, k);
    var c := Clip(k, [fs[0]]);
    assert [] + [fs[0]] == [fs[0]];
    assert StepState(s, fs[0], ds[0]) == RecState(true, Some(c), clips, k);
    RunWhileOpen(c, clips, k, fs[1..], ds[1..], n - 1);
    assert [fs[0]] + fs[1..][..n - 1] == fs[..n];
    assert fs[1..][n - 1..] == fs[n..] && ds[1..][n - 1..] == ds[n..];
  }

  /** The closed frame that ends a run is written to the clip, which is then released as clip `k`. */
  lemma CloseAfterRun<F>(clips: seq<Clip<F>>, k: nat, fs: seq<F>, ds: seq<bool>, n: nat)
    requires |fs| == |ds| && n < |ds| && !ds[n]
    ensures Run(RecState(true, Some(Clip(k, fs[..n])), clips, k), fs[n..], ds[n..])
         == Run(RecState(false, None, clips + [Clip(k, fs[..n + 1])], k + 1), fs[n + 1..], ds[n + 1..])
  {
    assert fs[..n] + [fs[n]] == fs[..n + 1];
    assert fs[n..][1..] == fs[n + 1..] && ds[n..][1..] == ds[n + 1..];
  }

  /** From an idle state, a session releases exactly the numbered segments, after the clips already released. */
  lemma {:induction false} RecordFromIdle<F>(clips: seq<Clip<F>>, k: nat, fs: seq<F>, ds: seq<bool>)
    requires |fs| == |ds|
    ensures FinishState(Run(RecState(false, None, clips, k), fs, ds)).clips
         == clips + Numbered(Segments(ds, fs), k)
    decreases |ds|
  {
    var s := RecState(false, None, clips, k);
    if ds == [] {
    } else if !ds[0] {
      assert StepState(s, fs[0], ds[0]) == s;
      RecordFromIdle(clips, k, fs[1..], ds[1..]);
    } else {
      var n := OpenPrefix(ds);
      OpenRunFromIdle(clips, k, fs, ds, n);
      if n == |ds| {
        assert fs[..n] == fs;
        assert Numbered([fs], k) == [Clip(k, fs)];
      } else {
        CloseAfterRun(clips, k, fs, ds, n);
        RecordFromIdle(clips + [Clip(k, fs[..n + 1])], k + 1, fs[n + 1..], ds[n + 1..]);
        NumberedCons(fs[..n + 1], Segments(ds[n + 1..], fs[n + 1..]), k);
      }
    }
  }

  /**
   * The clips of a session are its maximal runs of open frames, in order,
   * numbered 0, 1, 2, ...: each holds its run plus the closed frame that ends
   * it, or just the run when the stream ends while the door is open.
   */
  lemma RecordIsNumberedSegments<F>(fs: seq<F>, ds: seq<bool>)
    requires |fs| == |ds|
    ensures Record(fs, ds) == Numbered(Segments(ds, fs), 0)
  {
    RecordFromIdle([], 0, fs, ds);
  }

  lemma {:induction false} SegmentsNonEmpty<F>(ds: seq<bool>, fs: seq<F>)
    requires |ds| == |fs|
    ensures forall j :: 0 <= j < |Segments(ds, fs)| ==> Segments(ds, fs)[j] != []
    decreases |ds|
  {
    if ds == [] {
    } else if !ds[0] {
      SegmentsNonEmpty(ds[1..], fs[1..]);
    } else {
      var n := OpenPrefix(ds);
      if n < |ds| {
        SegmentsNonEmpty(ds[n + 1..], fs[n + 1..]);
      }
    }
  }

  /** Inside a run of open frames no new run begins. */
  lemma {:induction false} OpenRunsThroughRun(ds: seq<bool>, m: nat)
    requires m <= |ds| && forall i :: 0 <= i < m ==> ds[i]
    ensures OpenRuns(true, ds) == OpenRuns(true, ds[m..])
    decreases m
  {
    if m > 0 {
      OpenRunsThroughRun(ds[1..], m - 1);
      assert ds[1..][m - 1..] == ds[m..];
    }
  }

  /** There is one clip per maximal run of open frames. */
  lemma {:induction false} SegmentsCount<F>(ds: seq<bool>, fs: seq<F>)
    requires |ds| == |fs|
    ensures |Segments(ds, fs)| == OpenRuns(false, ds)
    decreases |ds|
  {
    if ds == [] {
    } else if !ds[0] {
      SegmentsCount(ds[1..], fs[1..]);
    } else {
      var n := OpenPrefix(ds);
      OpenRunsThroughRun(ds[1..], n - 1);
      assert ds[1..][n - 1..] == ds[n..];
      if n < |ds| {
        assert ds[n..][1..] == ds[n + 1..];
        SegmentsCount(ds[n + 1..], fs[n + 1..]);
      }
    }
  }

  /** Inside a run of open frames (after an open frame) every frame is written. */
  lemma {:induction false} WrittenThroughRun<F>(ds: seq<bool>, fs: seq<F>, m: nat)
    requires |ds| == |fs| && m <= |ds| && forall i :: 0 <= i < m ==> ds[i]
    ensures WrittenFrames(true, ds, fs) == fs[..m] + WrittenFrames(true, ds[m..], fs[m..])
    decreases m
  {
    if m > 0 {
      WrittenThroughRun(ds[1..], fs[1..], m - 1);
      assert ds[1..][m - 1..] == ds[m..] && fs[1..][m - 1..] == fs[m..];
      assert [fs[0]] + fs[1..][..m - 1] == fs[..m];
    }
  }

  /** A run of `n` open frames is written in full, and what follows is written as after an open frame. */
  lemma {:induction false} WrittenOpenRun<F>(ds: seq<bool>, fs: seq<F>, n: nat)
    requires |ds| == |fs| && 0 < n <= |ds| && forall i :: 0 <= i < n ==> ds[i]
    ensures WrittenFrames(false, ds, fs) == fs[..n] + WrittenFrames(true, ds[n..], fs[n..])
  {
    var ds1, fs1 := ds[1..], fs[1..];
    var tail := WrittenFrames(true, ds[n..], fs[n..]);
    assert ds[0];
    calc {
      WrittenFrames(false, ds, fs);
      [fs[0]] + WrittenFrames(ds[0], ds1, fs1);
      [fs[0]] + WrittenFrames(true, ds1, fs1);
      { WrittenThroughRun(ds1, fs1, n - 1);
        assert ds1[n - 1..] == ds[n..] && fs1[n - 1..] == fs[n..]; }
      [fs[0]] + (fs1[..n - 1] + tail);
      { assert [fs[0]] + fs1[..n - 1] == fs[..n]; }
      fs[..n] + tail;
    }
  }

  /** The closed frame right after an open one is written; what follows is written as after a closed frame. */
  lemma WrittenClosing<F>(ds: seq<bool>, fs: seq<F>, n: nat)
    requires |ds| == |fs| && n < |ds| && !ds[n]
    ensures WrittenFrames(true, ds[n..], fs[n..]) == [fs[n]] + WrittenFrames(false, ds[n + 1..], fs[n + 1..])
  {
    assert ds[n..][1..] == ds[n + 1..] && fs[n..][1..] == fs[n + 1..];
  }

  /**
   * Laid end to end, the clips hold exactly the frames the recorder writes,
   * each once and in arrival order.
   */
  lemma {:induction false} SegmentsConcat<F>(ds: seq<bool>, fs: seq<F>)
    requires |ds| == |fs|
    ensures Concat(Segments(ds, fs)) == WrittenFrames(false, ds, fs)
    decreases |ds|
  {
    if ds == [] {
    } else if !ds[0] {
      SegmentsConcat(ds[1..], fs[1..]);
    } else {
      var n := OpenPrefix(ds);
      WrittenOpenRun(ds, fs, n);
      if n == |ds| {
        assert fs[..n] == fs;
        assert Concat([fs]) == fs + Concat([]);
      } else {
        WrittenClosing(ds, fs, n);
        SegmentsConcat(ds[n + 1..], fs[n + 1..]);
        var rest := Segments(ds[n + 1..], fs[n + 1..]);
        assert ([fs[..n + 1]] + rest)[1..] == rest;
        assert fs[..n] + [fs[n]] == fs[..n + 1];
      }
    }
  }

  /**
   * Clip indices are 0, 1, 2, ... in release order, so none is reused; every
   * clip has at least one frame; there is one clip per
   * maximal run of open frames; and together the clips hold exactly the
   * written frames, in order.
   */
  lemma RecordFacts<F>(fs: seq<F>, ds: seq<bool>)
    requires |fs| == |ds|
    ensures var clips := Record(fs, ds);
      && |clips| == OpenRuns(false, ds)
      && (forall j :: 0 <= j < |clips| ==>
            clips[j].index == j && clips[j].frames != [])
      && Concat(FramesOf(clips)) == WrittenFrames(false, ds, fs)
  {
    RecordIsNumberedSegments(fs, ds);
    assert FramesOf(Record(fs, ds)) == Segments(ds, fs);
    SegmentsNonEmpty(ds, fs);
    SegmentsCount(ds, fs);
    SegmentsConcat(ds, fs);
  }

  /** A session whose door is never open records nothing. */
  lemma {:induction false} RecordAllClosed<F>(fs: seq<F>, ds: seq<bool>)
    requires |fs| == |ds| && forall i :: 0 <= i < |ds| ==> !ds[i]
    ensures Record(fs, ds) == []
  {
    RecordIsNumberedSegments(fs, ds);
    SegmentsCount(ds, fs);
    ClosedHasNoRuns(ds);
  }

  lemma {:induction false} ClosedHasNoRuns(ds: seq<bool>)
    requires forall i :: 0 <= i < |ds| ==> !ds[i]
    ensures OpenRuns(false, ds) == 0
    decreases |ds|
  {
    if ds != [] {
      ClosedHasNoRuns(ds[1..]);
    }
  }

  // ---------------------------------------------------------------------------
  // Example sessions: frame values stand for frame numbers.

  /** [F,F,T,T,T,F,F]: one clip, index 0, frames 2..5 (the closing frame 5 included). */
  lemma ScenarioOneRun()
    ensures Record([0, 1, 2, 3, 4, 5, 6], [false, false, true, true, true, false, false])
         == [Clip(0, [2, 3, 4, 5])]
  {
    var fs, ds := [0, 1, 2, 3, 4, 5, 6], [false, false, true, true, true, false, false];
    RecordIsNumberedSegments(fs, ds);
    var ds2, fs2 := [true, true, true, false, false], [2, 3, 4, 5, 6];
    assert ds[1..][1..] == ds2 && fs[1..][1..] == fs2;
    assert OpenPrefix([false, false]) == 0;
    assert OpenPrefix([true, false, false]) == 1;
    assert OpenPrefix([true, true, false, false]) == 2;
    assert OpenPrefix(ds2) == 3 by { assert ds2[1..] == [true, true, false, false]; }
    assert fs2[..4] == [2, 3, 4, 5] && ds2[4..] == [false] && fs2[4..] == [6];
    assert Segments([false], [6]) == [];
    assert Segments(ds2, fs2) == [[2, 3, 4, 5]];
    assert Segments(ds, fs) == [[2, 3, 4, 5]];
  }

  /** [T]: the stream ends while the door is open, and the forced release saves a one-frame clip. */
  lemma ScenarioOpenAtEnd()
    ensures Record([0], [true]) == [Clip(0, [0])]
  {
    RecordIsNumberedSegments([0], [true]);
    assert OpenPrefix([true]) == 1;
    assert Segments([true], [0]) == [[0]];
  }

  /** [T,F,T,F]: two clips, indices 0 and 1, of two frames each. */
  lemma ScenarioAlternating()
    ensures Record([0, 1, 2, 3], [true, false, true, false])
         == [Clip(0, [0, 1]), Clip(1, [2, 3])]
  {
    var fs, ds := [0, 1, 2, 3], [true, false, true, false];
    RecordIsNumberedSegments(fs, ds);
    assert OpenPrefix([false]) == 0;
    assert OpenPrefix([false, true, false]) == 0;
    assert OpenPrefix(ds) == 1 by { assert ds[1..] == [false, true, false]; }
    assert OpenPrefix([true, false]) == 1 by { assert [true, false][1..] == [false]; }
    assert fs[..2] == [0, 1] && ds[2..] == [true, false] && fs[2..] == [2, 3];
    assert [2, 3][..2] == [2, 3] && [true, false][2..] == [];
    assert Segments([true, false], [2, 3]) == [[2, 3]];
    assert Segments(ds, fs) == [[0, 1], [2, 3]];
  }

  // ---------------------------------------------------------------------------
  // The recorder as the loop of run_pipeline keeps it: local variables updated in place.

  class Recorder<F> {
    /** The directory the clip path template points into. */
    const outDir: string
    var recording: bool
    /** The writer currently open, with what has been written to it. */
    var openClip: Option<Clip<F>>
    /** The writers released so far, in release order. */
    var clips: seq<Clip<F>>
    var clipIndex: nat

    ghost function State(): RecState<F>
      reads this
    {
      RecState(recording, openClip, clips, clipIndex)
    }

    ghost predicate Valid()
      reads this
    {
      Coherent(State())
    }

    /** main.py lines 40-42: not recording, no writer, index 0. */
    constructor (outDir: string)
      ensures this.outDir == outDir
      ensures State() == Initial()
      ensures Valid()
    {
      this.outDir := outDir;
      recording := false;
      openClip := None;
      clips := [];
      clipIndex := 0;
    }

    /** The per-frame body of the loop (main.py lines 64-80). */
    method Step(frame: F, doorOpen: bool) returns (ev: Event)
      requires Valid()
      modifies this
      ensures Valid()
      ensures State() == StepState(old(State()), frame, doorOpen)
      ensures ev == StepEvent(outDir, old(State()), doorOpen)
    {
      ghost var before := State();
      ev := NoEvent;
      if doorOpen && !recording {
        var clipPath := ClipPath(outDir, clipIndex);
        openClip := Some(Clip(clipIndex, []));
        recording := true;
        ev := Started(clipPath);
      }
      assert State() == StartBranch(before, doorOpen);
      ghost var started := State();
      if recording {
        openClip := Some(openClip.value.(frames := openClip.value.frames + [frame]));
      }
      assert State() == WriteBranch(started, frame);
      if !doorOpen && recording {
        clips := clips + [openClip.value];
        openClip := None;
        recording := false;
        clipIndex := clipIndex + 1;
        ev := Stopped;
      }
      StepKeepsCoherent(before, frame, doorOpen);
    }

    /** The tail of `run_pipeline` (main.py lines 88-89): release the open writer, if any. */
    method Finish()
      requires Valid()
      modifies this
      ensures State() == FinishState(old(State()))
      ensures openClip == None && clipIndex == old(clipIndex) && recording == old(recording)
      ensures clips == old(clips) + (if old(recording) then [old(openClip).value] else [])
    {
      if recording && openClip.Some? {
        clips := clips + [openClip.value];
        openClip := None;
      }
    }
  }
}
