/**
 * The timed frame sampler of the learning and sign-quiz pages. Each tick of
 * the timer draws the live video onto a canvas, appends the encoded still
 * to `frames` and increments `collected`; the next tick is scheduled while
 * `collected < 90`, and at 90 the batch is handed to the submission step.
 * Timer cadence is not modelled: one loop iteration is one tick, and the
 * still captured at tick `i` is `grab(i)`.
 */
module Capture {

  /** Number of frames in one capture session (the backend's FRAME_TARGET). */
  const FrameTarget: nat := 90

  /**
   * One capture session. `submitted` lists every batch handed to the
   * submission step and `shown` every value of `collected` written to the
   * progress display, in order.
   */
  method CaptureSession(grab: nat -> string) returns (submitted: seq<seq<string>>, shown: seq<nat>)
    ensures |submitted| == 1
    ensures |submitted[0]| == FrameTarget
    ensures forall i :: 0 <= i < FrameTarget ==> submitted[0][i] == grab(i)
    ensures |shown| == FrameTarget
    ensures forall i :: 0 <= i < |shown| ==> shown[i] == i + 1
  {
    var collected: nat := 0;
    var frames: seq<string> := [];
    submitted, shown := [], [];
    while collected < FrameTarget
      invariant collected <= FrameTarget
      invariant |frames| == collected
      invariant forall i :: 0 <= i < collected ==> frames[i] == grab(i)
      invariant |shown| == collected
      invariant forall i :: 0 <= i < collected ==> shown[i] == i + 1
      invariant submitted == if collected == FrameTarget then [frames] else []
    {
      frames := frames + [grab(collected)];
      collected := collected + 1;
      shown := shown + [collected];
      if collected >= FrameTarget {
        submitted := submitted + [frames];
      }
    }
  }

  /** The sign-quiz page's progress bar width: `(collected / 90) * 100` percent. */
  function Percent(collected: nat): (p: real)
    ensures collected <= FrameTarget ==> 0.0 <= p <= 100.0
    ensures p == 100.0 <==> collected == FrameTarget
  {
    (collected as real / FrameTarget as real) * 100.0
  }

  /** The progress bar only grows while frames are collected. */
  lemma PercentIncreasing(a: nat, b: nat)
    requires a < b
    ensures Percent(a) < Percent(b)
  {
  }
}
