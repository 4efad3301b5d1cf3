/** The per-tick capture step: read a frame, mirror it, run detection on
    its RGB conversion and replace the shared frame and landmark cells,
    then ask for a repaint. */
module Capture {
  import opened Common
  import opened Video
  import opened Landmarks

  /** The state a tick writes and a paint reads: the current frame, the
      current landmark set and how many repaints have been requested. */
  datatype Shared = Shared(frame: Option<Frame>, landmarks: Option<seq<Landmark>>, redraws: nat)

  /** What one tick receives from its collaborators: the capture read (no
      frame when the read fails) and the detector as it behaves on that
      tick. */
  datatype TickInput = TickInput(read: Option<Frame>, detect: Frame -> Detection)

  /** The state the widget starts with: no frame, no landmarks. */
  const INITIAL: Shared := Shared(None, None, 0)

  /** One tick. A failed read returns at once and changes nothing;
      otherwise the mirrored frame is stored, the landmark set becomes the
      first face detected in its RGB conversion (or none) and one repaint
      is requested. */
  function Tick(s: Shared, input: TickInput): (t: Shared)
    ensures input.read.None? ==> t == s
    ensures input.read.Some? ==>
      && t.frame == Some(Mirror(input.read.value))
      && t.landmarks == FirstFace(input.detect(ToRgb(Mirror(input.read.value))))
      && t.redraws == s.redraws + 1
  {
    match input.read
    case None => s
    case Some(raw) =>
      var mirrored := Mirror(raw);
      Shared(Some(mirrored), FirstFace(input.detect(ToRgb(mirrored))), s.redraws + 1)
  }

  /** A run of ticks, first to last. */
  function Ticks(s: Shared, inputs: seq<TickInput>): Shared {
    if inputs == [] then s else Tick(Ticks(s, inputs[..|inputs| - 1]), inputs[|inputs| - 1])
  }

  /** The number of ticks whose read delivered a frame. */
  function SuccessfulReads(inputs: seq<TickInput>): nat {
    if inputs == [] then 0
    else SuccessfulReads(inputs[..|inputs| - 1]) + (if inputs[|inputs| - 1].read.Some? then 1 else 0)
  }

  /** A successful tick keeps nothing of the previous frame or landmark
      set: two widgets in any states end up showing the same thing. */
  lemma NoStaleState(s1: Shared, s2: Shared, input: TickInput)
    requires input.read.Some?
    ensures Tick(s1, input).frame == Tick(s2, input).frame
    ensures Tick(s1, input).landmarks == Tick(s2, input).landmarks
  {
  }

  /** A tick on which no face is found clears the landmarks, so nothing is
      drawn with an earlier anchor. */
  lemma NoFaceClearsLandmarks(s: Shared, input: TickInput)
    requires input.read.Some?
    requires var d := input.detect(ToRgb(Mirror(input.read.value))); d.None? || d.value == []
    ensures Tick(s, input).landmarks == None
  {
  }

  /** Any number of failed reads in a row change no state and request no
      repaint. */
  lemma {:induction false} FailedReadsChangeNothing(s: Shared, inputs: seq<TickInput>)
    requires forall k :: 0 <= k < |inputs| ==> inputs[k].read.None?
    ensures Ticks(s, inputs) == s
  {
    if inputs != [] {
      FailedReadsChangeNothing(s, inputs[..|inputs| - 1]);
    }
  }

  /** One repaint is requested per successful read, and none otherwise. */
  lemma {:induction false} RedrawsCountReads(s: Shared, inputs: seq<TickInput>)
    ensures Ticks(s, inputs).redraws == s.redraws + SuccessfulReads(inputs)
  {
    if inputs != [] {
      RedrawsCountReads(s, inputs[..|inputs| - 1]);
    }
  }

  /** The frame and landmarks shown after a run of ticks are those of its
      last successful read: whatever ticks with failed reads follow it do
      not matter, and neither does anything before it. */
  lemma {:induction false} LastReadWins(s: Shared, before: seq<TickInput>, last: TickInput, after: seq<TickInput>)
    requires last.read.Some?
    requires forall k :: 0 <= k < |after| ==> after[k].read.None?
    ensures Ticks(s, before + [last] + after).frame == Tick(s, last).frame
    ensures Ticks(s, before + [last] + after).landmarks == Tick(s, last).landmarks
  {
    if after == [] {
      assert (before + [last] + after)[..|before|] == before;
    } else {
      var init := after[..|after| - 1];
      assert (before + [last] + after)[..|before + [last] + after| - 1] == before + [last] + init;
      LastReadWins(s, before, last, init);
    }
  }
}
