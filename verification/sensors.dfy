/**
 Sensor readings before and after normalisation.

 A raw reading is a loosely-structured record: whole groups (accelerometer,
 gyroscope, GPS) and single fields may be missing. Normalisation fills every
 missing number with 0 and a missing timestamp with the current time, which
 the caller passes in.
 */
module Sensors {
  import opened Options

  /** A timestamp is carried through untouched; its format is not interpreted. */
  type Timestamp = string

  datatype RawAxes = RawAxes(x: Option<real>, y: Option<real>, z: Option<real>)

  datatype RawGps = RawGps(latitude: Option<real>, longitude: Option<real>, speed: Option<real>)

  datatype RawReading = RawReading(
    timestamp: Option<Timestamp>,
    accelerometer: Option<RawAxes>,
    gyroscope: Option<RawAxes>,
    gps: Option<RawGps>,
    audioLevel: Option<real>)

  datatype Axes = Axes(x: real, y: real, z: real)

  datatype Gps = Gps(latitude: real, longitude: real, speed: real)

  datatype SensorData = SensorData(
    timestamp: Timestamp,
    acceleration: Axes,
    gyroscope: Axes,
    gps: Gps,
    audioLevel: real)

  /** The value a missing numeric field reads as. */
  const Missing: real := 0.0

  /** `v` is what the optional field `o` reads as: its value, or 0 when absent. */
  predicate ReadsAs(o: Option<real>, v: real)
  {
    match o
    case Some(x) => v == x
    case None => v == Missing
  }

  /** `a` is what the optional group `g` reads as, field by field. */
  predicate AxesReadAs(g: Option<RawAxes>, a: Axes)
  {
    match g
    case Some(r) => ReadsAs(r.x, a.x) && ReadsAs(r.y, a.y) && ReadsAs(r.z, a.z)
    case None => a == Axes(Missing, Missing, Missing)
  }

  predicate GpsReadsAs(g: Option<RawGps>, p: Gps)
  {
    match g
    case Some(r) => ReadsAs(r.latitude, p.latitude) && ReadsAs(r.longitude, p.longitude) && ReadsAs(r.speed, p.speed)
    case None => p == Gps(Missing, Missing, Missing)
  }

  function NormalizeAxes(g: Option<RawAxes>): (a: Axes)
    ensures AxesReadAs(g, a)
  {
    var r := g.GetOr(RawAxes(None, None, None));
    Axes(r.x.GetOr(Missing), r.y.GetOr(Missing), r.z.GetOr(Missing))
  }

  function NormalizeGps(g: Option<RawGps>): (p: Gps)
    ensures GpsReadsAs(g, p)
  {
    var r := g.GetOr(RawGps(None, None, None));
    Gps(r.latitude.GetOr(Missing), r.longitude.GetOr(Missing), r.speed.GetOr(Missing))
  }

  /**
   Normalises a raw reading: every present value is copied, every missing
   number reads as 0, and a missing timestamp reads as `now`.
   */
  function Preprocess(raw: RawReading, now: Timestamp): (d: SensorData)
    ensures d.timestamp == raw.timestamp.GetOr(now)
    ensures AxesReadAs(raw.accelerometer, d.acceleration)
    ensures AxesReadAs(raw.gyroscope, d.gyroscope)
    ensures GpsReadsAs(raw.gps, d.gps)
    ensures ReadsAs(raw.audioLevel, d.audioLevel)
  {
    SensorData(
      raw.timestamp.GetOr(now),
      NormalizeAxes(raw.accelerometer),
      NormalizeAxes(raw.gyroscope),
      NormalizeGps(raw.gps),
      raw.audioLevel.GetOr(Missing))
  }

  /** The raw reading in which every field of `d` is present. */
  function Complete(d: SensorData): RawReading
  {
    RawReading(
      Some(d.timestamp),
      Some(RawAxes(Some(d.acceleration.x), Some(d.acceleration.y), Some(d.acceleration.z))),
      Some(RawAxes(Some(d.gyroscope.x), Some(d.gyroscope.y), Some(d.gyroscope.z))),
      Some(RawGps(Some(d.gps.latitude), Some(d.gps.longitude), Some(d.gps.speed))),
      Some(d.audioLevel))
  }

  /** A reading with every field present is passed through unchanged. */
  lemma PreprocessComplete(d: SensorData, now: Timestamp)
    ensures Preprocess(Complete(d), now) == d
  {
  }

  /**
   A processed reading seen again as a raw one. The processed record keeps
   the timestamp, gyroscope, GPS and audio level under the keys the raw
   reading uses, but stores acceleration under a different key from the
   raw accelerometer key, so that group reads as missing.
   */
  function Reread(d: SensorData): RawReading
  {
    var c := Complete(d);
    RawReading(c.timestamp, None, c.gyroscope, c.gps, c.audioLevel)
  }

  /**
   Normalising a processed reading again keeps its timestamp, gyroscope,
   GPS and audio level, but its acceleration reads as (0, 0, 0).
   */
  lemma ReprocessingDropsAcceleration(raw: RawReading, now: Timestamp, later: Timestamp)
    ensures var d := Preprocess(raw, now);
      var e := Preprocess(Reread(d), later);
      && e.timestamp == d.timestamp
      && e.gyroscope == d.gyroscope
      && e.gps == d.gps
      && e.audioLevel == d.audioLevel
      && e.acceleration == Axes(Missing, Missing, Missing)
  {
  }

  /** A reading that carries nothing normalises to all zeros at time `now`. */
  lemma PreprocessEmpty(now: Timestamp)
    ensures var d := Preprocess(RawReading(None, None, None, None, None), now);
      && d.timestamp == now
      && d.acceleration == Axes(0.0, 0.0, 0.0)
      && d.gyroscope == Axes(0.0, 0.0, 0.0)
      && d.gps == Gps(0.0, 0.0, 0.0)
      && d.audioLevel == 0.0
  {
  }
}
