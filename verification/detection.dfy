/**
 The crash scorer's top-level prediction: score every sensor, combine the
 scores with fixed weights, band the total into a severity, and attach the
 location and the recommendations for that severity.
 */
module Detection {
  import opened Sensors
  import opened Scoring
  import opened Banding
  import Options

  datatype Location = Location(latitude: real, longitude: real)

  datatype SensorAnalysis = SensorAnalysis(
    acceleration: Analysis,
    gyroscope: Analysis,
    speed: Analysis,
    audio: Analysis)

  datatype Prediction = Prediction(
    isAccident: bool,
    confidenceScore: real,
    severity: Severity,
    timestamp: Timestamp,
    location: Location,
    analysis: SensorAnalysis,
    recommendations: seq<string>)

  function SquaredNorm(v: Axes): real
  {
    v.x * v.x + v.y * v.y + v.z * v.z
  }

  /**
   `m` is the Euclidean length of `v`: the non-negative square root of its
   squared norm. Square roots are not computed; the length is supplied.
   */
  predicate IsNorm(v: Axes, m: real)
  {
    0.0 <= m && m * m == SquaredNorm(v)
  }

  /** Squaring is strictly increasing on the non-negative reals. */
  lemma SquareStrictlyIncreasing(a: real, b: real)
    requires 0.0 <= a < b
    ensures a * a < b * b
  {
    var aa, ab, bb := a * a, a * b, b * b;
    assert aa <= ab;
    assert ab < bb;
  }

  /** Comparing a length with a non-negative threshold is comparing squares. */
  lemma NormExceeds(v: Axes, m: real, t: real)
    requires IsNorm(v, m)
    requires 0.0 <= t
    ensures m > t <==> SquaredNorm(v) > t * t
    ensures m >= t <==> SquaredNorm(v) >= t * t
  {
    if m > t {
      SquareStrictlyIncreasing(t, m);
    } else if m < t {
      SquareStrictlyIncreasing(m, t);
    }
  }

  /** An impact is detected exactly when the acceleration's squared norm exceeds 15². */
  lemma ImpactDetectedIff(v: Axes, m: real)
    requires IsNorm(v, m)
    ensures AnalyzeAcceleration(m).pattern == Detected <==> SquaredNorm(v) > 225.0
  {
    NormExceeds(v, m, AccelerationThreshold);
  }

  /** A rotation is detected exactly when the rotation's squared norm exceeds 5². */
  lemma RotationDetectedIff(v: Axes, m: real)
    requires IsNorm(v, m)
    ensures AnalyzeGyroscope(m).pattern == Detected <==> SquaredNorm(v) > 25.0
  {
    NormExceeds(v, m, GyroscopeThreshold);
  }

  /**
   Predicts whether the processed reading shows an accident. The two
   magnitudes are the lengths of the acceleration and rotation vectors; a
   missing speed history counts as an empty one.
   */
  function PredictAccident(data: SensorData, speedHistory: Options.Option<seq<real>>, accelMagnitude: real, gyroMagnitude: real): (p: Prediction)
    requires IsNorm(data.acceleration, accelMagnitude)
    requires IsNorm(data.gyroscope, gyroMagnitude)
    ensures p.analysis == SensorAnalysis(
      AnalyzeAcceleration(accelMagnitude),
      AnalyzeGyroscope(gyroMagnitude),
      AnalyzeSpeed(data.gps.speed, speedHistory.GetOr([])),
      AnalyzeAudio(data.audioLevel))
    ensures p.confidenceScore == WeightedConfidence(
      p.analysis.acceleration.confidence, p.analysis.gyroscope.confidence,
      p.analysis.speed.confidence, p.analysis.audio.confidence)
    ensures p.severity == Band(p.confidenceScore)
    ensures p.recommendations == Recommendations(Label(p.severity), p.confidenceScore)
    ensures InUnit(p.confidenceScore)
    ensures p.isAccident <==> p.confidenceScore >= MinorFloor
    ensures p.isAccident <==> IsAccident(p.severity)
    ensures InBand(p.severity, p.confidenceScore)
    ensures p.timestamp == data.timestamp
    ensures p.location == Location(data.gps.latitude, data.gps.longitude)
    ensures p.isAccident ==> |p.recommendations| == 5
    ensures !p.isAccident ==> p.recommendations == []
    ensures speedHistory.None? ==> p.analysis.speed == Analysis(0.0, InsufficientData)
    ensures p.isAccident ==> SquaredNorm(data.acceleration) > 225.0 || SquaredNorm(data.gyroscope) > 25.0
  {
    var history := speedHistory.GetOr([]);
    var accel := AnalyzeAcceleration(accelMagnitude);
    var gyro := AnalyzeGyroscope(gyroMagnitude);
    var speed := AnalyzeSpeed(data.gps.speed, history);
    var audio := AnalyzeAudio(data.audioLevel);
    var total := WeightedConfidence(accel.confidence, gyro.confidence, speed.confidence, audio.confidence);
    var severity := Band(total);
    ImpactDetectedIff(data.acceleration, accelMagnitude);
    RotationDetectedIff(data.gyroscope, gyroMagnitude);
    RecommendationsFollowSeverity(severity, severity, total);
    Prediction(
      IsAccident(severity),
      total,
      severity,
      data.timestamp,
      Location(data.gps.latitude, data.gps.longitude),
      SensorAnalysis(accel, gyro, speed, audio),
      Recommendations(Label(severity), total))
  }

  /** The overall confidence is the weighted sum of the four sensor confidences reported in the analysis. */
  lemma ScoreIsWeightedAnalysis(data: SensorData, h: Options.Option<seq<real>>, am: real, gm: real)
    requires IsNorm(data.acceleration, am)
    requires IsNorm(data.gyroscope, gm)
    ensures var p := PredictAccident(data, h, am, gm);
      p.confidenceScore == 0.4 * p.analysis.acceleration.confidence + 0.3 * p.analysis.gyroscope.confidence
        + 0.2 * p.analysis.speed.confidence + 0.1 * p.analysis.audio.confidence
  {
  }

  /**
   Speed and sound alone never make an accident: with no impact and no
   rotation detected, they contribute at most 0.3.
   */
  lemma NoAccidentWithoutImpactOrRotation(data: SensorData, h: Options.Option<seq<real>>, am: real, gm: real)
    requires IsNorm(data.acceleration, am)
    requires IsNorm(data.gyroscope, gm)
    requires SquaredNorm(data.acceleration) <= 225.0
    requires SquaredNorm(data.gyroscope) <= 25.0
    ensures !PredictAccident(data, h, am, gm).isAccident
    ensures PredictAccident(data, h, am, gm).confidenceScore <= 0.3
  {
    ImpactDetectedIff(data.acceleration, am);
    RotationDetectedIff(data.gyroscope, gm);
  }

  /**
   A SEVERE prediction needs both an impact and a rotation: without either
   one the remaining weights add up to less than 0.8.
   */
  lemma SevereNeedsImpactAndRotation(data: SensorData, h: Options.Option<seq<real>>, am: real, gm: real)
    requires IsNorm(data.acceleration, am)
    requires IsNorm(data.gyroscope, gm)
    requires PredictAccident(data, h, am, gm).severity == Severe
    ensures SquaredNorm(data.acceleration) > 225.0
    ensures SquaredNorm(data.gyroscope) > 25.0
  {
    ImpactDetectedIff(data.acceleration, am);
    RotationDetectedIff(data.gyroscope, gm);
    AnalysesInUnit(am, gm, data.gps.speed, h.GetOr([]), data.audioLevel);
  }

  /**
   A full-scale impact alone, at three times the threshold or more, is
   enough to report at least a MINOR accident.
   */
  lemma FullImpactIsAccident(data: SensorData, h: Options.Option<seq<real>>, am: real, gm: real)
    requires IsNorm(data.acceleration, am)
    requires IsNorm(data.gyroscope, gm)
    requires SquaredNorm(data.acceleration) >= 2025.0
    ensures PredictAccident(data, h, am, gm).isAccident
  {
    NormExceeds(data.acceleration, am, 45.0);
    AnalysesInUnit(am, gm, data.gps.speed, h.GetOr([]), data.audioLevel);
  }

  /**
   Strengthening the impact, all else equal, never lowers the reported
   severity.
   */
  lemma StrongerImpactNeverLowersSeverity(data1: SensorData, data2: SensorData, h: Options.Option<seq<real>>, am1: real, am2: real, gm: real)
    requires IsNorm(data1.acceleration, am1) && IsNorm(data2.acceleration, am2)
    requires IsNorm(data1.gyroscope, gm) && data2.gyroscope == data1.gyroscope
    requires data2.gps == data1.gps && data2.audioLevel == data1.audioLevel
    requires am1 <= am2
    ensures PredictAccident(data1, h, am1, gm).confidenceScore <= PredictAccident(data2, h, am2, gm).confidenceScore
    ensures Rank(PredictAccident(data1, h, am1, gm).severity) <= Rank(PredictAccident(data2, h, am2, gm).severity)
  {
    AccelerationMonotone(am1, am2);
    var p1, p2 := PredictAccident(data1, h, am1, gm), PredictAccident(data2, h, am2, gm);
    BandMonotone(p1.confidenceScore, p2.confidenceScore);
  }

  /**
   End to end: a reading whose every sensor field is missing, with no speed
   history, is no accident, reported at the origin with no recommendations.
   */
  lemma EmptyReadingIsNoAccident(now: Timestamp)
    ensures var d := Preprocess(RawReading(Options.None, Options.None, Options.None, Options.None, Options.None), now);
      var p := PredictAccident(d, Options.None, 0.0, 0.0);
      && !p.isAccident
      && p.severity == NoAccident
      && p.confidenceScore == 0.0
      && p.location == Location(0.0, 0.0)
      && p.recommendations == []
  {
    PreprocessEmpty(now);
  }
}
