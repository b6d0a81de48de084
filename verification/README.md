# Rule-based crash scorer

A Dafny model of `AccidentDetectionModel` from `ai-model/accident_detection.py`:
the rule-based scorer that decides from one sensor reading whether a vehicle
has crashed. It is a sequential pipeline:

1. **Normalisation** (`Sensors.Preprocess`). A missing sensor group or field reads as 0.
   A missing timestamp reads as the current time, which the caller passes in.
2. **Four per-sensor scorers** (`Scoring`). Each applies a threshold test and then a clamped ratio:
   - acceleration magnitude, threshold 15 m/s², ratio capped at 3;
   - rotation magnitude, threshold 5 rad/s, ratio capped at 2;
   - change of speed against the mean of the last three earlier speeds, threshold 30 km/h, ratio capped at 2;
   - sound level, threshold 80 dB, read as a fraction of 100 dB.
3. **Weighted sum** (`Scoring.WeightedConfidence`), with weights 0.4 / 0.3 / 0.2 / 0.1.
4. **Severity banding** (`Banding.Band`). The total becomes SEVERE (≥ 0.8), MODERATE (≥ 0.6),
   MINOR (≥ 0.4) or NONE. Every band except NONE reports an accident.
5. **Recommendations** (`Banding.Recommendations`). A fixed table gives five actions for each
   accident severity and none for anything else.

`Detection.PredictAccident` assembles the prediction. It holds the accident flag, the
confidence score, the severity, the timestamp, the location, the four sensor analyses and
the recommendations.

Modules: `Options` (optional values), `Sensors` (raw and processed readings), `Scoring`
(thresholds, weights, scorers, mean), `Banding` (severities and the recommendation table),
`Detection` (vector length, prediction, end-to-end properties).

Scores are Dafny `real`s. The vector length (`np.sqrt`) is not computed. The caller supplies
it, and `Detection.IsNorm` pins it down as the non-negative number whose square is the
squared norm. Each per-sensor description string is modelled as a tag:
`Normal`, `Detected` or `InsufficientData`.

## Model

| member | source | states |
|---|---|---|
| `Sensors.NormalizeAxes` | ai-model/accident_detection.py:45-54 | each axis of a present group is copied when present and reads as 0 when missing; a missing group reads as (0, 0, 0) |
| `Sensors.NormalizeGps` | ai-model/accident_detection.py:55-59 | latitude, longitude and speed are copied when present and read as 0 when missing; a missing group reads as all zeros |
| `Sensors.Preprocess` | ai-model/accident_detection.py:43-61 | every present field is copied; every missing group or field reads as 0; a missing timestamp reads as the supplied current time |
| `Sensors.PreprocessComplete` | ai-model/accident_detection.py:43-61 | a reading with every field present comes through unchanged |
| `Sensors.ReprocessingDropsAcceleration` | ai-model/accident_detection.py:43-61 | a processed reading normalised again keeps its timestamp, gyroscope, GPS and audio level; its acceleration reads as (0, 0, 0), because it is stored under `acceleration` but read from `accelerometer` |
| `Sensors.PreprocessEmpty` | ai-model/accident_detection.py:43-61 | a reading with nothing in it becomes all zeros, stamped with the current time |
| `Scoring.AnalyzeAcceleration` | ai-model/accident_detection.py:87-93 | an impact is detected exactly when the magnitude exceeds 15; below that the confidence is 0; above it the confidence lies in (1/3, 1], equals magnitude/45 up to 45, and is 1 from magnitude 45 on |
| `Scoring.AnalyzeGyroscope` | ai-model/accident_detection.py:102-108 | a rotation is detected exactly when the magnitude exceeds 5; below that the confidence is 0; above it the confidence lies in (1/2, 1], equals magnitude/10 up to 10, and is 1 from magnitude 10 on |
| `Scoring.Window` | ai-model/accident_detection.py:120 | the averaged window is the suffix of the history of length min(len, 3) |
| `Scoring.Mean` | ai-model/accident_detection.py:120 | the mean times the count is the sum, and the mean of equal readings is that reading |
| `Scoring.SumOfEqual` | ai-model/accident_detection.py:120 | n equal readings sum to n times the reading |
| `Scoring.AnalyzeSpeed` | ai-model/accident_detection.py:117-127 | fewer than two earlier speeds gives "insufficient data" with confidence 0; otherwise a change is detected exactly when the current speed differs from the window mean by more than 30, with confidence in (1/2, 1] that equals change/60 up to a change of 60 and is 1 from 60 on; all other outcomes have confidence 0 |
| `Scoring.AnalyzeAudio` | ai-model/accident_detection.py:138-144 | a crash sound is detected exactly when the level exceeds 80; below that the confidence is 0; above it the confidence lies in (0.8, 1], equals level/100 up to 100 dB, and is 1 from 100 dB on |
| `Scoring.WeightedConfidence` | ai-model/accident_detection.py:169-174 | the weights sum to 1: four equal confidences combine to that same value, and confidences in [0, 1] combine to a total in [0, 1] |
| `Scoring.AnalysesInUnit` | ai-model/accident_detection.py:87-144 | every scorer's confidence lies in [0, 1] for every input |
| `Scoring.AccelerationMonotone` | ai-model/accident_detection.py:89-90 | a larger acceleration magnitude never gives a lower confidence |
| `Scoring.GyroscopeMonotone` | ai-model/accident_detection.py:104-105 | a larger rotation magnitude never gives a lower confidence |
| `Scoring.AudioMonotone` | ai-model/accident_detection.py:140-141 | a louder sound never gives a lower confidence |
| `Scoring.SumBounds` | ai-model/accident_detection.py:120 | readings that all lie in [lo, hi] sum to between lo·n and hi·n |
| `Scoring.MeanBounds` | ai-model/accident_detection.py:120 | the mean of readings that all lie in [lo, hi] lies in [lo, hi] |
| `Scoring.SumAbove` | ai-model/accident_detection.py:120 | readings that all lie strictly above lo sum to more than lo·n |
| `Scoring.MeanAbove` | ai-model/accident_detection.py:120 | the mean of readings that all lie strictly above lo lies strictly above lo |
| `Scoring.SumBelow` | ai-model/accident_detection.py:120 | readings that all lie strictly below hi sum to less than hi·n |
| `Scoring.MeanBelow` | ai-model/accident_detection.py:120 | the mean of readings that all lie strictly below hi lies strictly below hi |
| `Scoring.SteadySpeedIsNormal` | ai-model/accident_detection.py:120-127 | if every speed in the window is within 30 of the current speed, the speed scorer reports a normal pattern with confidence 0 |
| `Scoring.SuddenStopIsDetected` | ai-model/accident_detection.py:120-125 | if every speed in the window exceeds the current speed by more than 30, the speed scorer detects a sudden change |
| `Scoring.SuddenSpeedUpIsDetected` | ai-model/accident_detection.py:120-125 | because the change is an absolute difference, a window whose every speed is more than 30 below the current speed is detected as well |
| `Scoring.OnlyRecentSpeedsMatter` | ai-model/accident_detection.py:120 | readings older than the last three never change the speed analysis |
| `Banding.Band` | ai-model/accident_detection.py:177-188 | the severity reports an accident exactly when the score is at least 0.4, and the score lies in the interval of the chosen band |
| `Banding.Label` | ai-model/accident_detection.py:177-188 | NONE, MINOR, MODERATE and SEVERE are named "NONE", "MINOR", "MODERATE" and "SEVERE" in rank order; a severity's name has an entry in the recommendation table exactly when it reports an accident, and it is "NONE" exactly when it does not |
| `Banding.BandIsUnique` | ai-model/accident_detection.py:177-188 | a score lies in exactly one band's interval, and banding returns that band |
| `Banding.BandMonotone` | ai-model/accident_detection.py:177-188 | a higher score never yields a lower severity |
| `Banding.LabelInjective` | ai-model/accident_detection.py:177-188 | the four severities are reported under four different names |
| `Banding.Recommendations` | ai-model/accident_detection.py:208-237 | "SEVERE", "MODERATE" and "MINOR" each get their own list of five different recommendations, the lists of lines 213-235; every other name gets an empty list |
| `Banding.RecommendationsIgnoreConfidence` | ai-model/accident_detection.py:208-237 | the confidence argument does not affect the recommendations |
| `Banding.RecommendationsFollowSeverity` | ai-model/accident_detection.py:177-237 | a banded severity gets five recommendations exactly when it reports an accident and none otherwise; the three accident severities get different lists |
| `Detection.NormExceeds` | ai-model/accident_detection.py:64-78 | comparing a vector's length with a non-negative threshold is the same as comparing its squared norm with the threshold squared, strict or not |
| `Detection.ImpactDetectedIff` | ai-model/accident_detection.py:87-89 | an impact is detected exactly when x² + y² + z² of the acceleration exceeds 225 |
| `Detection.RotationDetectedIff` | ai-model/accident_detection.py:102-104 | a rotation is detected exactly when x² + y² + z² of the rotation exceeds 25 |
| `Detection.PredictAccident` | ai-model/accident_detection.py:146-206 | the analysis holds the four scorers' results on the reading (acceleration and rotation lengths, current speed against the history, sound level); the score is their weighted sum and the severity its band; the recommendations are the table entry for the severity's name; the score lies in [0, 1]; the accident flag holds exactly when the score is at least 0.4 and exactly when the severity is not NONE; the severity is the score's band; timestamp and latitude/longitude are copied unchanged; an accident has five recommendations and a non-accident none; a missing speed history gives "insufficient data"; an accident needs an impact or a rotation above threshold |
| `Detection.ScoreIsWeightedAnalysis` | ai-model/accident_detection.py:169-204 | the reported score is the 0.4/0.3/0.2/0.1-weighted sum of the four confidences reported in the analysis |
| `Detection.NoAccidentWithoutImpactOrRotation` | ai-model/accident_detection.py:169-188 | with no impact and no rotation above threshold the score is at most 0.3, so there is no accident whatever the speed and sound |
| `Detection.SevereNeedsImpactAndRotation` | ai-model/accident_detection.py:169-179 | a SEVERE prediction implies both an impact above 15 and a rotation above 5 |
| `Detection.FullImpactIsAccident` | ai-model/accident_detection.py:161-185 | an acceleration of length at least 45 alone makes the prediction an accident |
| `Detection.StrongerImpactNeverLowersSeverity` | ai-model/accident_detection.py:161-188 | with all else equal, a stronger impact never lowers the score or the severity |
| `Detection.EmptyReadingIsNoAccident` | ai-model/accident_detection.py:43-206 | a normalised empty reading with no speed history is no accident: score 0, at (0, 0), no recommendations |

## Left out

- `ai-model/train_model.py` is not part of this model. It builds and trains a neural network, generates random synthetic data and writes files, none of which is sequential logic.
- Floating-point behaviour: scores are exact reals, and NaN or infinite readings are not modelled. In IEEE-754 double arithmetic the weighted sum can fall just below a band floor. For confidences 1, 1, 0, 1, the sum `1.0*0.4 + 1.0*0.3 + 0.0*0.2 + 1.0*0.1` is `0.7999999999999999`, which lines 169-180 band as MODERATE. `Detection.PredictAccident` computes exactly 0.8 and bands it as SEVERE. Such a reading has acceleration length at least 45, rotation at least 10, sound at least 100 dB, and no speed history.
- `calculate_acceleration_magnitude` and `calculate_gyroscope_magnitude` (`np.sqrt`): the length is an input constrained by `Detection.IsNorm`, not computed.
- `float()` conversion in normalisation: raw values are already reals. Parse failures of non-numeric values are not modelled.
- The `datetime.now()` default timestamp: the current time is a parameter, and timestamps are opaque strings.
- The formatted description strings (magnitudes printed with two decimals and so on): modelled as the tags `Normal`, `Detected` and `InsufficientData`.
- `simulate_accident_scenario` and the `__main__` block: they only print demonstration output.
- The event lifecycle, escalation scheduler, notification dispatch and live feed of the wider system: their source is not among the modelled files.
