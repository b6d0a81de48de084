/**
 The four per-sensor scorers and their weighted combination.

 Each scorer applies a threshold test and, above the threshold, a ratio
 clamped to a ceiling and rescaled so that the confidence is at most 1.
 Scores are real numbers; floating-point rounding is not modelled.
 */
module Scoring {

  const AccelerationThreshold: real := 15.0   // m/s²
  const GyroscopeThreshold: real := 5.0       // rad/s
  const SpeedChangeThreshold: real := 30.0    // km/h
  const CrashAudioLevel: real := 80.0         // dB
  const FullScaleAudioLevel: real := 100.0    // dB

  const AccelerationWeight: real := 0.4
  const GyroscopeWeight: real := 0.3
  const SpeedWeight: real := 0.2
  const AudioWeight: real := 0.1

  /** How many of the most recent speeds the speed scorer averages. */
  const SpeedWindow: nat := 3

  /** What a scorer concluded, standing for its human-readable description. */
  datatype Pattern = Normal | Detected | InsufficientData

  datatype Analysis = Analysis(confidence: real, pattern: Pattern)

  function Min(a: real, b: real): real
  {
    if b < a then b else a
  }

  function Abs(x: real): real
  {
    if x < 0.0 then -x else x
  }

  /** A confidence is meaningful when it lies in [0, 1]. */
  predicate InUnit(c: real)
  {
    0.0 <= c <= 1.0
  }

  /**
   Scores the magnitude of the acceleration vector: above the threshold the
   ratio to the threshold is clamped at 3 and divided by 3.
   */
  function AnalyzeAcceleration(magnitude: real): (r: Analysis)
    ensures r.pattern == Detected <==> magnitude > AccelerationThreshold
    ensures r.pattern != Detected ==> r.pattern == Normal && r.confidence == 0.0
    ensures r.pattern == Detected ==> 1.0 / 3.0 < r.confidence <= 1.0
    ensures AccelerationThreshold < magnitude <= 3.0 * AccelerationThreshold ==> r.confidence == magnitude / 45.0
    ensures magnitude >= 3.0 * AccelerationThreshold ==> r.confidence == 1.0
  {
    if magnitude > AccelerationThreshold then
      Analysis(Min(magnitude / AccelerationThreshold, 3.0) / 3.0, Detected)
    else
      Analysis(0.0, Normal)
  }

  /**
   Scores the magnitude of the rotation vector: above the threshold the
   ratio to the threshold is clamped at 2 and halved.
   */
  function AnalyzeGyroscope(magnitude: real): (r: Analysis)
    ensures r.pattern == Detected <==> magnitude > GyroscopeThreshold
    ensures r.pattern != Detected ==> r.pattern == Normal && r.confidence == 0.0
    ensures r.pattern == Detected ==> 0.5 < r.confidence <= 1.0
    ensures GyroscopeThreshold < magnitude <= 2.0 * GyroscopeThreshold ==> r.confidence == magnitude / 10.0
    ensures magnitude >= 2.0 * GyroscopeThreshold ==> r.confidence == 1.0
  {
    if magnitude > GyroscopeThreshold then
      Analysis(Min(magnitude / GyroscopeThreshold, 2.0) / 2.0, Detected)
    else
      Analysis(0.0, Normal)
  }

  function Sum(s: seq<real>): real
  {
    if |s| == 0 then 0.0 else s[0] + Sum(s[1..])
  }

  /** The arithmetic mean of a non-empty sequence. */
  function Mean(s: seq<real>): (r: real)
    requires |s| > 0
    ensures r * (|s| as real) == Sum(s)
    ensures (forall i :: 0 <= i < |s| ==> s[i] == s[0]) ==> r == s[0]
  {
    SumOfEqual(s);
    Sum(s) / (|s| as real)
  }

  /** Equal readings sum to the reading times their count. */
  lemma SumOfEqual(s: seq<real>)
    requires |s| > 0
    ensures (forall i :: 0 <= i < |s| ==> s[i] == s[0]) ==> Sum(s) == s[0] * (|s| as real)
  {
    if forall i :: 0 <= i < |s| ==> s[i] == s[0] {
      SumBounds(s, s[0], s[0]);
    }
  }

  /** The most recent readings the speed scorer looks at: the last three, or all of them if fewer. */
  function Window(history: seq<real>): (w: seq<real>)
    ensures |w| == if |history| < SpeedWindow then |history| else SpeedWindow
    ensures w == history[|history| - |w|..]
  {
    if |history| < SpeedWindow then history else history[|history| - SpeedWindow..]
  }

  /**
   Scores the current speed against the mean of the recent history: with
   fewer than two earlier speeds there is nothing to compare against;
   otherwise a change above the threshold is clamped at twice the threshold
   and halved.
   */
  function AnalyzeSpeed(current: real, history: seq<real>): (r: Analysis)
    ensures r.pattern == InsufficientData <==> |history| < 2
    ensures r.pattern == Detected <==> |history| >= 2 && Abs(Mean(Window(history)) - current) > SpeedChangeThreshold
    ensures r.pattern != Detected ==> r.confidence == 0.0
    ensures r.pattern == Detected ==> 0.5 < r.confidence <= 1.0
    ensures |history| >= 2 && SpeedChangeThreshold < Abs(Mean(Window(history)) - current) <= 2.0 * SpeedChangeThreshold
      ==> r.confidence == Abs(Mean(Window(history)) - current) / 60.0
    ensures |history| >= 2 && Abs(Mean(Window(history)) - current) >= 2.0 * SpeedChangeThreshold ==> r.confidence == 1.0
  {
    if |history| < 2 then
      Analysis(0.0, InsufficientData)
    else
      var change := Abs(Mean(Window(history)) - current);
      if change > SpeedChangeThreshold then
        Analysis(Min(change / SpeedChangeThreshold, 2.0) / 2.0, Detected)
      else
        Analysis(0.0, Normal)
  }

  /** Scores the sound level: above the crash level the level is read as a fraction of 100 dB, capped at 1. */
  function AnalyzeAudio(level: real): (r: Analysis)
    ensures r.pattern == Detected <==> level > CrashAudioLevel
    ensures r.pattern != Detected ==> r.pattern == Normal && r.confidence == 0.0
    ensures r.pattern == Detected ==> 0.8 < r.confidence <= 1.0
    ensures CrashAudioLevel < level <= FullScaleAudioLevel ==> r.confidence == level / 100.0
    ensures level >= FullScaleAudioLevel ==> r.confidence == 1.0
  {
    if level > CrashAudioLevel then
      Analysis(Min(level / FullScaleAudioLevel, 1.0), Detected)
    else
      Analysis(0.0, Normal)
  }

  /**
   The overall confidence: a weighted sum of the four sensor confidences.
   The weights sum to 1, so the result is a convex combination.
   */
  function WeightedConfidence(acceleration: real, gyroscope: real, speed: real, audio: real): (total: real)
    ensures InUnit(acceleration) && InUnit(gyroscope) && InUnit(speed) && InUnit(audio) ==> InUnit(total)
    ensures acceleration == gyroscope == speed == audio ==> total == acceleration
  {
    acceleration * AccelerationWeight
    + gyroscope * GyroscopeWeight
    + speed * SpeedWeight
    + audio * AudioWeight
  }

  /** Every scorer's confidence lies in [0, 1]. */
  lemma AnalysesInUnit(m: real, g: real, current: real, history: seq<real>, level: real)
    ensures InUnit(AnalyzeAcceleration(m).confidence)
    ensures InUnit(AnalyzeGyroscope(g).confidence)
    ensures InUnit(AnalyzeSpeed(current, history).confidence)
    ensures InUnit(AnalyzeAudio(level).confidence)
  {
  }

  /** A stronger impact never yields a lower acceleration confidence. */
  lemma AccelerationMonotone(m1: real, m2: real)
    requires m1 <= m2
    ensures AnalyzeAcceleration(m1).confidence <= AnalyzeAcceleration(m2).confidence
  {
  }

  /** A faster rotation never yields a lower gyroscope confidence. */
  lemma GyroscopeMonotone(g1: real, g2: real)
    requires g1 <= g2
    ensures AnalyzeGyroscope(g1).confidence <= AnalyzeGyroscope(g2).confidence
  {
  }

  /** A louder sound never yields a lower audio confidence. */
  lemma AudioMonotone(l1: real, l2: real)
    requires l1 <= l2
    ensures AnalyzeAudio(l1).confidence <= AnalyzeAudio(l2).confidence
  {
  }

  /** Bounding every element bounds the sum. */
  lemma {:induction false} SumBounds(s: seq<real>, lo: real, hi: real)
    requires forall i :: 0 <= i < |s| ==> lo <= s[i] <= hi
    ensures lo * (|s| as real) <= Sum(s) <= hi * (|s| as real)
  {
    if |s| > 0 {
      SumBounds(s[1..], lo, hi);
      assert lo * (|s| as real) == lo + lo * ((|s| - 1) as real);
      assert hi * (|s| as real) == hi + hi * ((|s| - 1) as real);
    }
  }

  /** The mean of readings that all lie in [lo, hi] lies in [lo, hi]. */
  lemma MeanBounds(s: seq<real>, lo: real, hi: real)
    requires |s| > 0
    requires forall i :: 0 <= i < |s| ==> lo <= s[i] <= hi
    ensures lo <= Mean(s) <= hi
  {
    SumBounds(s, lo, hi);
    assert Mean(s) * (|s| as real) == Sum(s);
  }

  /** Readings that all lie strictly above `lo` sum to more than `lo` times their count. */
  lemma {:induction false} SumAbove(s: seq<real>, lo: real)
    requires |s| > 0
    requires forall i :: 0 <= i < |s| ==> lo < s[i]
    ensures lo * (|s| as real) < Sum(s)
  {
    if |s| > 1 {
      SumAbove(s[1..], lo);
      assert lo * (|s| as real) == lo + lo * ((|s| - 1) as real);
    }
  }

  /** Readings that all lie strictly below `hi` sum to less than `hi` times their count. */
  lemma {:induction false} SumBelow(s: seq<real>, hi: real)
    requires |s| > 0
    requires forall i :: 0 <= i < |s| ==> s[i] < hi
    ensures Sum(s) < hi * (|s| as real)
  {
    if |s| > 1 {
      SumBelow(s[1..], hi);
      assert hi * (|s| as real) == hi + hi * ((|s| - 1) as real);
    }
  }

  /** The mean of readings that all lie strictly below `hi` lies strictly below `hi`. */
  lemma MeanBelow(s: seq<real>, hi: real)
    requires |s| > 0
    requires forall i :: 0 <= i < |s| ==> s[i] < hi
    ensures Mean(s) < hi
  {
    SumBelow(s, hi);
  }

  /** The mean of readings that all lie strictly above `lo` lies strictly above `lo`. */
  lemma MeanAbove(s: seq<real>, lo: real)
    requires |s| > 0
    requires forall i :: 0 <= i < |s| ==> lo < s[i]
    ensures lo < Mean(s)
  {
    SumAbove(s, lo);
    assert Mean(s) * (|s| as real) == Sum(s);
  }

  /**
   If every recent speed is within the threshold of the current speed, the
   speed scorer sees no sudden change.
   */
  lemma SteadySpeedIsNormal(current: real, history: seq<real>)
    requires |history| >= 2
    requires forall i :: 0 <= i < |Window(history)| ==> Abs(Window(history)[i] - current) <= SpeedChangeThreshold
    ensures AnalyzeSpeed(current, history) == Analysis(0.0, Normal)
  {
    var w := Window(history);
    MeanBounds(w, current - SpeedChangeThreshold, current + SpeedChangeThreshold);
  }

  /**
   If every recent speed is more than the threshold above the current speed
   (a sudden stop), the speed scorer detects it.
   */
  lemma SuddenStopIsDetected(current: real, history: seq<real>)
    requires |history| >= 2
    requires forall i :: 0 <= i < |Window(history)| ==> Window(history)[i] > current + SpeedChangeThreshold
    ensures AnalyzeSpeed(current, history).pattern == Detected
  {
    MeanAbove(Window(history), current + SpeedChangeThreshold);
  }

  /**
   If every recent speed is more than the threshold below the current speed
   (a sudden speed-up), the speed scorer detects it too.
   */
  lemma SuddenSpeedUpIsDetected(current: real, history: seq<real>)
    requires |history| >= 2
    requires forall i :: 0 <= i < |Window(history)| ==> Window(history)[i] < current - SpeedChangeThreshold
    ensures AnalyzeSpeed(current, history).pattern == Detected
  {
    MeanBelow(Window(history), current - SpeedChangeThreshold);
  }

  /** Only the last three readings of the speed history matter. */
  lemma OnlyRecentSpeedsMatter(current: real, older: seq<real>, recent: seq<real>)
    requires |recent| >= SpeedWindow
    ensures AnalyzeSpeed(current, older + recent) == AnalyzeSpeed(current, recent)
  {
    var h := older + recent;
    assert Window(h) == Window(recent) by {
      assert h[|h| - SpeedWindow..] == recent[|recent| - SpeedWindow..];
    }
  }
}
