/**
 * The hand-gesture debouncer of the solar-system viewer: each camera frame
 * either shows no hand or a hand whose four fingers are tested for being
 * extended. The number of extended fingers classifies the frame as an open
 * palm, a fist or neither, and a zoom gesture is emitted once the same
 * classification has been seen on MIN_STABLE_FRAMES consecutive frames.
 */
module GestureControl {
  import opened Options

  /** The classification of one frame ('open' | 'closed' | 'none'). */
  datatype ZoomPose = Open | Closed | NoPose

  /** The gesture event types ('zoom-in' | 'zoom-out' | 'none'). */
  datatype GestureType = ZoomIn | ZoomOut | NoGesture

  /** Consecutive equally classified frames needed before a gesture fires. */
  const MIN_STABLE_FRAMES: nat := 4

  /**
   * The outcome of the tip-above-middle-joint test for the index, middle,
   * ring and pinky finger, in the order the source tests them.
   */
  datatype Fingers = Fingers(index: bool, middle: bool, ring: bool, pinky: bool)

  /** What the hand tracker reports for one frame. */
  datatype Frame = NoHand | Hand(fingers: Fingers)

  /** The four finger tests as a sequence, in testing order. */
  function Tests(f: Fingers): seq<bool> {
    [f.index, f.middle, f.ring, f.pinky]
  }

  /** The number of true entries of `s`. */
  function CountTrue(s: seq<bool>): (n: nat)
    ensures n <= |s|
    ensures n == 0 <==> forall i :: 0 <= i < |s| ==> !s[i]
    ensures n == |s| <==> forall i :: 0 <= i < |s| ==> s[i]
  {
    if s == [] then 0 else CountTrue(s[..|s| - 1]) + (if s[|s| - 1] then 1 else 0)
  }

  /** The number of extended fingers of a tracked hand. */
  function ExtendedCount(f: Fingers): nat {
    CountTrue(Tests(f))
  }

  /** Three or more extended fingers is an open palm, one or none a fist. */
  function Classify(count: int): (p: ZoomPose)
    ensures p == Open <==> count >= 3
    ensures p == Closed <==> count <= 1
    ensures p == NoPose <==> count == 2
  {
    if count >= 3 then Open else if count <= 1 then Closed else NoPose
  }

  /** The classification of a frame; a frame without a hand counts as neither. */
  function Pose(frame: Frame): ZoomPose {
    match frame
    case NoHand => NoPose
    case Hand(f) => Classify(ExtendedCount(f))
  }

  /** The gesture an open palm or a fist stands for. */
  function GestureFor(p: ZoomPose): GestureType {
    if p == Open then ZoomIn else ZoomOut
  }

  /** The debouncer's memory: the last classification and its run length. */
  datatype GestureState = GestureState(lastZoomGesture: ZoomPose, zoomFrames: int)

  /** The state the controller starts in, and returns to on every reset. */
  const INITIAL_STATE := GestureState(NoPose, 0)

  /** A run length of zero exactly when there is no current classification. */
  predicate Consistent(s: GestureState) {
    s.zoomFrames >= 0 && (s.zoomFrames == 0 <==> s.lastZoomGesture == NoPose)
  }

  /**
   * One frame with a tracked hand: the new state and the gesture emitted,
   * if any.
   */
  function Analyze(s: GestureState, f: Fingers): (GestureState, Option<GestureType>) {
    var detected := Classify(ExtendedCount(f));
    if detected != NoPose then
      var t := if detected == s.lastZoomGesture then s.(zoomFrames := s.zoomFrames + 1)
               else GestureState(detected, 1);
      (t, if t.zoomFrames >= MIN_STABLE_FRAMES then Some(GestureFor(detected)) else None)
    else
      (INITIAL_STATE, None)
  }

  /** One frame of tracker output: analysis with a hand, a reset without. */
  function Next(s: GestureState, frame: Frame): (GestureState, Option<GestureType>) {
    match frame
    case NoHand => (INITIAL_STATE, None)
    case Hand(f) => Analyze(s, f)
  }

  /** The state after feeding `frames`, in order, to a fresh controller. */
  function StateAfter(frames: seq<Frame>): GestureState {
    if frames == [] then INITIAL_STATE
    else Next(StateAfter(frames[..|frames| - 1]), frames[|frames| - 1]).0
  }

  /** The gesture emitted on the last of `frames`, fed to a fresh controller. */
  function EmittedLast(frames: seq<Frame>): Option<GestureType>
    requires frames != []
  {
    Next(StateAfter(frames[..|frames| - 1]), frames[|frames| - 1]).1
  }

  /**
   * An independent description of the run length: how many frames at the
   * end of `frames` carry the last frame's classification, or 0 when that
   * classification is neither.
   */
  function Streak(frames: seq<Frame>): nat {
    if frames == [] then 0
    else
      var init, p := frames[..|frames| - 1], Pose(frames[|frames| - 1]);
      if p == NoPose then 0
      else if init != [] && Pose(init[|init| - 1]) == p then Streak(init) + 1
      else 1
  }

  /** The last `k` frames all exist and share one classification other than neither. */
  predicate StableTail(frames: seq<Frame>, k: nat)
    requires 1 <= k
  {
    k <= |frames| && Pose(frames[|frames| - 1]) != NoPose
    && forall i :: |frames| - k <= i < |frames| ==> Pose(frames[i]) == Pose(frames[|frames| - 1])
  }

  /** Counts the extended fingers, one finger test at a time. */
  method CountExtended(f: Fingers) returns (extendedCount: nat)
    ensures extendedCount == ExtendedCount(f)
  {
    var tests := Tests(f);
    extendedCount := 0;
    for i := 0 to |tests|
      invariant extendedCount == CountTrue(tests[..i])
    {
      assert tests[..i + 1][..i] == tests[..i];
      if tests[i] {
        extendedCount := extendedCount + 1;
      }
    }
    assert tests[..|tests|] == tests;
  }

  /** The gesture debouncer, holding the two fields the source mutates. */
  class GestureController {
    var lastZoomGesture: ZoomPose
    var zoomFrames: int

    function State(): GestureState
      reads this
    {
      GestureState(lastZoomGesture, zoomFrames)
    }

    ghost predicate Valid()
      reads this
    {
      Consistent(State())
    }

    constructor ()
      ensures State() == INITIAL_STATE && Valid()
    {
      lastZoomGesture := NoPose;
      zoomFrames := 0;
    }

    /**
     * Classifies a frame with a tracked hand, updates the run length and
     * returns the gesture to dispatch, if any.
     */
    method AnalyzeGestures(fingers: Fingers) returns (emitted: Option<GestureType>)
      modifies this
      ensures (State(), emitted) == Analyze(old(State()), fingers)
      ensures old(Valid()) ==> Valid()
    {
      var extendedCount := CountExtended(fingers);
      var detectedZoom := NoPose;
      if extendedCount >= 3 {
        detectedZoom := Open;
      } else if extendedCount <= 1 {
        detectedZoom := Closed;
      }

      emitted := None;
      if detectedZoom != NoPose {
        if detectedZoom == lastZoomGesture {
          zoomFrames := zoomFrames + 1;
        } else {
          lastZoomGesture := detectedZoom;
          zoomFrames := 1;
        }
        if zoomFrames >= MIN_STABLE_FRAMES {
          emitted := Some(if detectedZoom == Open then ZoomIn else ZoomOut);
        }
      } else {
        lastZoomGesture := NoPose;
        zoomFrames := 0;
      }
    }

    /** Handles one frame of tracker output; without a hand the state is reset. */
    method OnResults(frame: Frame) returns (emitted: Option<GestureType>)
      modifies this
      ensures (State(), emitted) == Next(old(State()), frame)
      ensures old(Valid()) ==> Valid()
    {
      match frame
      case Hand(fingers) =>
        emitted := AnalyzeGestures(fingers);
      case NoHand =>
        lastZoomGesture := NoPose;
        zoomFrames := 0;
        emitted := None;
    }
  }

  // ---------------------------------------------------------------------
  // Properties of the debouncer
  // ---------------------------------------------------------------------

  /** Exactly four fingers are tested, so the count lies in [0, 4]. */
  lemma ExtendedCountBounds(f: Fingers)
    ensures 0 <= ExtendedCount(f) <= 4
    ensures ExtendedCount(f) == (if f.index then 1 else 0) + (if f.middle then 1 else 0)
                                + (if f.ring then 1 else 0) + (if f.pinky then 1 else 0)
  {
    var s := Tests(f);
    assert s[..3] == [f.index, f.middle, f.ring];
    assert [f.index, f.middle, f.ring][..2] == [f.index, f.middle];
    assert [f.index, f.middle][..1] == [f.index];
    assert [f.index][..0] == [];
    assert CountTrue([f.index]) == (if f.index then 1 else 0);
    assert CountTrue([f.index, f.middle]) == CountTrue([f.index]) + (if f.middle then 1 else 0);
    assert CountTrue([f.index, f.middle, f.ring])
        == CountTrue([f.index, f.middle]) + (if f.ring then 1 else 0);
    assert CountTrue(s) == CountTrue(s[..3]) + (if f.pinky then 1 else 0);
  }

  /** The initial state satisfies the invariant. */
  lemma InitialConsistent()
    ensures Consistent(INITIAL_STATE)
  {
  }

  /** Every frame keeps `zoomFrames == 0` exactly when the classification is neither. */
  lemma NextPreservesConsistent(s: GestureState, frame: Frame)
    requires Consistent(s)
    ensures Consistent(Next(s, frame).0)
  {
  }

  /**
   * The counter rules: the same classification again adds one to the run,
   * a different one starts a run of one, and neither (or no hand) resets.
   */
  lemma NextRules(s: GestureState, frame: Frame)
    ensures var t := Next(s, frame).0;
            && (Pose(frame) != NoPose && Pose(frame) == s.lastZoomGesture ==>
                  t == GestureState(s.lastZoomGesture, s.zoomFrames + 1))
            && (Pose(frame) != NoPose && Pose(frame) != s.lastZoomGesture ==>
                  t == GestureState(Pose(frame), 1))
            && (Pose(frame) == NoPose ==> t == INITIAL_STATE)
  {
  }

  /**
   * A gesture is emitted exactly when the updated run length reaches
   * MIN_STABLE_FRAMES; an open palm zooms in, a fist zooms out, and the
   * type 'none' is never dispatched.
   */
  lemma EmitRules(s: GestureState, frame: Frame)
    ensures var (t, e) := Next(s, frame);
            && (e.Some? <==> Pose(frame) != NoPose && t.zoomFrames >= MIN_STABLE_FRAMES)
            && (e.Some? ==> e.value == GestureFor(Pose(frame)) && e.value != NoGesture)
            && (e == Some(ZoomIn) ==> Pose(frame) == Open)
            && (e == Some(ZoomOut) ==> Pose(frame) == Closed)
  {
  }

  /**
   * After any sequence of frames the state records the classification of
   * the last frame and the length of its run at the end of the sequence.
   */
  lemma {:induction false} StateAfterIsStreak(frames: seq<Frame>)
    ensures StateAfter(frames).zoomFrames == Streak(frames)
    ensures StateAfter(frames).lastZoomGesture
            == (if frames == [] || Streak(frames) == 0 then NoPose else Pose(frames[|frames| - 1]))
  {
    if frames != [] {
      var init := frames[..|frames| - 1];
      StateAfterIsStreak(init);
      if init != [] {
        var pre := init[..|init| - 1];
        assert StateAfter(init) == Next(StateAfter(pre), init[|init| - 1]).0;
        StreakIsPoseRun(init);
      }
    }
  }

  /** A positive run always belongs to a classification other than neither. */
  lemma StreakIsPoseRun(frames: seq<Frame>)
    requires frames != []
    ensures Streak(frames) == 0 <==> Pose(frames[|frames| - 1]) == NoPose
  {
  }

  /**
   * The run is at least `k` long exactly when the last `k` frames share one
   * classification other than neither.
   */
  lemma {:induction false} StreakAtLeast(frames: seq<Frame>, k: nat)
    requires 1 <= k
    ensures Streak(frames) >= k <==> StableTail(frames, k)
  {
    if frames == [] {
    } else {
      var n := |frames|;
      var init, p := frames[..n - 1], Pose(frames[n - 1]);
      if p == NoPose {
      } else if k == 1 {
        assert Streak(frames) >= 1;
      } else if init != [] && Pose(init[|init| - 1]) == p {
        StreakAtLeast(init, k - 1);
        assert Streak(frames) == Streak(init) + 1;
        if StableTail(init, k - 1) {
          forall i | n - k <= i < n
            ensures Pose(frames[i]) == p
          {
            if i < n - 1 {
              assert frames[i] == init[i];
            }
          }
        }
        if StableTail(frames, k) {
          forall i | |init| - (k - 1) <= i < |init|
            ensures Pose(init[i]) == Pose(init[|init| - 1])
          {
            assert init[i] == frames[i];
          }
        }
      } else {
        assert Streak(frames) == 1;
        if init != [] {
          assert Pose(frames[n - 2]) != Pose(frames[n - 1]);
        }
      }
    }
  }

  /**
   * Fed to a fresh controller, the last of `frames` emits a gesture exactly
   * when the last MIN_STABLE_FRAMES frames all classify alike and not as
   * neither; the gesture is zoom-in for an open palm and zoom-out for a fist.
   */
  lemma EmissionIffStable(frames: seq<Frame>)
    requires frames != []
    ensures EmittedLast(frames).Some? <==> StableTail(frames, MIN_STABLE_FRAMES)
    ensures EmittedLast(frames).Some? ==>
              EmittedLast(frames).value == GestureFor(Pose(frames[|frames| - 1]))
  {
    var init := frames[..|frames| - 1];
    assert StateAfter(frames) == Next(StateAfter(init), frames[|frames| - 1]).0;
    StateAfterIsStreak(frames);
    StreakAtLeast(frames, MIN_STABLE_FRAMES);
    EmitRules(StateAfter(init), frames[|frames| - 1]);
  }

  /** Three open palms in a row are not yet enough; the fourth zooms in. */
  lemma FourOpenPalmsZoomIn()
    ensures var palm := Hand(Fingers(true, true, true, true));
            && EmittedLast([palm, palm, palm]) == None
            && EmittedLast([palm, palm, palm, palm]) == Some(ZoomIn)
  {
    var palm := Hand(Fingers(true, true, true, true));
    ExtendedCountBounds(palm.fingers);
    assert StateAfter([palm]) == GestureState(Open, 1) by {
      assert [palm][..0] == [];
    }
    assert StateAfter([palm, palm]) == GestureState(Open, 2) by {
      assert [palm, palm][..1] == [palm];
    }
    assert StateAfter([palm, palm, palm]) == GestureState(Open, 3) by {
      assert [palm, palm, palm][..2] == [palm, palm];
    }
    assert [palm, palm, palm][..2] == [palm, palm];
    assert [palm, palm, palm, palm][..3] == [palm, palm, palm];
  }

  /** A hand that leaves the frame breaks the run: the count starts again. */
  lemma LostHandRestartsRun()
    ensures var fist := Hand(Fingers(false, false, false, false));
            && EmittedLast([fist, fist, fist, NoHand, fist]) == None
            && StateAfter([fist, fist, fist, NoHand, fist]) == GestureState(Closed, 1)
  {
    var fist := Hand(Fingers(false, false, false, false));
    var fs := [fist, fist, fist, NoHand, fist];
    ExtendedCountBounds(fist.fingers);
    assert fs[..4][..3][..2][..1][..0] == [];
    assert StateAfter(fs[..4]) == INITIAL_STATE;
  }
}
