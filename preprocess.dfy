/**
 * Audio preprocessing (demo.py:87-102): optional noise reduction, then peak
 * normalisation to 0.9 of full scale. The noise-reduction routine is an
 * external library and appears here only as a function parameter.
 */
module Preprocess {
  import opened Wrappers
  import opened Assembly

  /** The peak amplitude a non-silent window is scaled to (demo.py:100). */
  const TargetPeak: real := 0.9

  function Abs(x: real): real
  {
    if x < 0.0 then -x else x
  }

  /** `np.max(np.abs(audio))`, which is undefined on an empty window. */
  function Peak(audio: seq<Sample>): (p: real)
    requires |audio| > 0
    ensures forall i :: 0 <= i < |audio| ==> Abs(audio[i]) <= p
    ensures exists i :: 0 <= i < |audio| && Abs(audio[i]) == p
  {
    if |audio| == 1 then Abs(audio[0])
    else
      var q := Peak(audio[1..]);
      assert forall i :: 1 <= i < |audio| ==> audio[i] == audio[1..][i - 1];
      if Abs(audio[0]) >= q then Abs(audio[0]) else q
  }

  /** One sample of `0.9 * audio / max_amp` (demo.py:100). */
  function Scaled(x: Sample, peak: real): Sample
    requires peak > 0.0
  {
    TargetPeak * x / peak
  }

  /** Every sample scaled by `0.9 / peak`. */
  function Scale(audio: seq<Sample>, peak: real): (r: seq<Sample>)
    requires peak > 0.0
    ensures |r| == |audio|
  {
    seq(|audio|, i requires 0 <= i < |audio| => Scaled(audio[i], peak))
  }

  /**
   * Peak normalisation (demo.py:98-100). `None` stands for the error NumPy
   * raises when taking the maximum of an empty window.
   */
  function Normalize(audio: seq<Sample>): (r: Option<seq<Sample>>)
    ensures r.None? <==> |audio| == 0
    ensures r.Some? ==> |r.value| == |audio|
    ensures r.Some? && Peak(audio) == 0.0 ==> r.value == audio
  {
    if |audio| == 0 then None
    else
      var p := Peak(audio);
      if p > 0.0 then Some(Scale(audio, p)) else Some(audio)
  }

  /** Division by a positive peak, stated as the product it stands for. */
  lemma QuotientBound(q: real, peak: real, amp: real)
    requires 0.0 < peak && q * peak == TargetPeak * amp && amp <= peak
    ensures q <= TargetPeak
    ensures amp == peak ==> q == TargetPeak
  {

  }

  /** Scaling one sample by `0.9 / peak` keeps it within 0.9, and a peak sample lands on 0.9. */
  lemma ScaledSample(x: real, peak: real)
    requires 0.0 < peak && Abs(x) <= peak
    ensures Abs(Scaled(x, peak)) <= TargetPeak
    ensures Abs(x) == peak ==> Abs(Scaled(x, peak)) == TargetPeak
  {
    var y := Scaled(x, peak);
    assert y * peak == TargetPeak * x;
    assert Abs(y) * peak == TargetPeak * Abs(x) by {
      if x < 0.0 { assert (-y) * peak == TargetPeak * (-x); }
    }
    QuotientBound(Abs(y), peak, Abs(x));
  }

  /** Scaling by the window's own peak keeps every sample within 0.9. */
  lemma ScaleWithinTarget(audio: seq<Sample>, p: real)
    requires |audio| > 0 && p == Peak(audio) && p > 0.0
    ensures forall i :: 0 <= i < |audio| ==> Abs(Scale(audio, p)[i]) <= TargetPeak
  {
    var r := Scale(audio, p);
    forall i | 0 <= i < |r|
      ensures Abs(r[i]) <= TargetPeak
    {
      var x := audio[i];
      assert Abs(x) <= p;
      assert r[i] == Scaled(x, p);
      ScaledSample(x, p);
    }
  }

  /** The sample that set the peak is scaled to exactly 0.9. */
  lemma ScalePeakSample(audio: seq<Sample>, p: real, j: nat)
    requires j < |audio| && p > 0.0 && Abs(audio[j]) == p
    ensures Abs(Scale(audio, p)[j]) == TargetPeak
  {
    assert Scale(audio, p)[j] == Scaled(audio[j], p);
    ScaledSample(audio[j], p);
  }

  /** A window that is not silent comes out with peak amplitude exactly 0.9. */
  lemma NormalizedPeak(audio: seq<Sample>)
    requires |audio| > 0 && Peak(audio) != 0.0
    ensures Normalize(audio).Some? && Peak(Normalize(audio).value) == TargetPeak
  {
    var p := Peak(audio);
    assert p > 0.0 by { assert Abs(audio[0]) <= p; }
    var j :| 0 <= j < |audio| && Abs(audio[j]) == p;
    ScaleWithinTarget(audio, p);
    ScalePeakSample(audio, p, j);
    PeakIsMaximum(Scale(audio, p), j);
  }

  /** A sample that reaches every other sample's amplitude is the peak. */
  lemma PeakIsMaximum(audio: seq<Sample>, j: nat)
    requires j < |audio|
    requires forall i :: 0 <= i < |audio| ==> Abs(audio[i]) <= Abs(audio[j])
    ensures Peak(audio) == Abs(audio[j])
  {

  }

  /**
   * The window handed to recognition (demo.py:87-102): noise-reduced against
   * the profile when one was captured, then normalised.
   */
  function ProcessAudio(audio: seq<Sample>, noiseProfile: Option<seq<Sample>>,
                        reduceNoise: (seq<Sample>, seq<Sample>) -> seq<Sample>): (r: Option<seq<Sample>>)
    ensures noiseProfile.None? ==> (r.None? <==> |audio| == 0)
    ensures noiseProfile.Some? ==> (r.None? <==> |reduceNoise(audio, noiseProfile.value)| == 0)
    ensures noiseProfile.None? && r.Some? ==> |r.value| == |audio|
  {
    var cleaned := if noiseProfile.Some? then reduceNoise(audio, noiseProfile.value) else audio;
    Normalize(cleaned)
  }
}
