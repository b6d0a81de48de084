/**
 Severity bands over the overall confidence, and the fixed table of
 emergency-response recommendations for each band.
 */
module Banding {

  /** The four severity levels, from none to severe. */
  datatype Severity = NoAccident | Minor | Moderate | Severe

  const SevereFloor: real := 0.8
  const ModerateFloor: real := 0.6
  const MinorFloor: real := 0.4

  /** The name under which a severity is reported. */
  function Label(s: Severity): (name: string)
    ensures HasActions(name) <==> IsAccident(s)
    ensures name == "NONE" <==> !IsAccident(s)
    ensures name == ["NONE", "MINOR", "MODERATE", "SEVERE"][Rank(s)]
  {
    match s
    case Severe => "SEVERE"
    case Moderate => "MODERATE"
    case Minor => "MINOR"
    case NoAccident => "NONE"
  }

  /** The position of a severity in the order NONE < MINOR < MODERATE < SEVERE. */
  function Rank(s: Severity): nat
  {
    match s
    case NoAccident => 0
    case Minor => 1
    case Moderate => 2
    case Severe => 3
  }

  /** Every severity except NONE reports an accident. */
  predicate IsAccident(s: Severity)
  {
    s != NoAccident
  }

  /** The half-open interval of confidences each severity stands for. */
  predicate InBand(s: Severity, score: real)
  {
    match s
    case Severe => SevereFloor <= score
    case Moderate => ModerateFloor <= score < SevereFloor
    case Minor => MinorFloor <= score < ModerateFloor
    case NoAccident => score < MinorFloor
  }

  /** Bands a confidence: the first floor it reaches, checked from the highest down. */
  function Band(score: real): (s: Severity)
    ensures IsAccident(s) <==> score >= MinorFloor
    ensures InBand(s, score)
  {
    if score >= SevereFloor then Severe
    else if score >= ModerateFloor then Moderate
    else if score >= MinorFloor then Minor
    else NoAccident
  }

  /** The bands partition the reals: a confidence lies in exactly one band, and banding finds it. */
  lemma BandIsUnique(score: real, s: Severity)
    ensures InBand(s, score) <==> Band(score) == s
  {
  }

  /** A higher confidence never yields a lower severity. */
  lemma BandMonotone(a: real, b: real)
    requires a <= b
    ensures Rank(Band(a)) <= Rank(Band(b))
  {
  }

  /** Different severities are reported under different names. */
  lemma LabelInjective(s: Severity, t: Severity)
    ensures Label(s) == Label(t) <==> s == t
  {
  }

  const SevereActions: seq<string> := [
    "Immediately contact emergency services (911/108)",
    "Dispatch ambulance and fire rescue",
    "Alert nearby hospitals",
    "Notify traffic control for road clearance",
    "Send high-priority alerts to emergency contacts"
  ]

  const ModerateActions: seq<string> := [
    "Contact emergency services",
    "Dispatch ambulance",
    "Alert nearby medical facilities",
    "Notify emergency contacts",
    "Monitor situation closely"
  ]

  const MinorActions: seq<string> := [
    "Check for injuries",
    "Contact emergency services if needed",
    "Notify emergency contacts",
    "Document incident details",
    "Seek medical attention if required"
  ]

  /** The names that have an entry in the recommendation table. */
  predicate HasActions(severity: string)
  {
    severity == "SEVERE" || severity == "MODERATE" || severity == "MINOR"
  }

  /** No recommendation is listed twice for the same severity. */
  predicate Distinct(actions: seq<string>)
  {
    forall i, j :: 0 <= i < j < |actions| ==> actions[i] != actions[j]
  }

  /**
   Looks up the recommendations for a severity name. Any name outside the
   table, including "NONE", yields no recommendations; the confidence is
   accepted but plays no part.
   */
  function Recommendations(severity: string, confidence: real): (r: seq<string>)
    ensures HasActions(severity) ==> |r| == 5 && Distinct(r)
    ensures !HasActions(severity) ==> r == []
    ensures severity == "SEVERE" ==> r == SevereActions
    ensures severity == "MODERATE" ==> r == ModerateActions
    ensures severity == "MINOR" ==> r == MinorActions
  {
    if severity == "SEVERE" then SevereActions
    else if severity == "MODERATE" then ModerateActions
    else if severity == "MINOR" then MinorActions
    else []
  }

  /** The confidence argument does not affect the recommendations. */
  lemma RecommendationsIgnoreConfidence(severity: string, c1: real, c2: real)
    ensures Recommendations(severity, c1) == Recommendations(severity, c2)
  {
  }

  /**
   A severity gets recommendations exactly when it reports an accident,
   and the three accident severities get three different lists.
   */
  lemma RecommendationsFollowSeverity(s: Severity, t: Severity, c: real)
    ensures IsAccident(s) <==> |Recommendations(Label(s), c)| == 5
    ensures !IsAccident(s) <==> Recommendations(Label(s), c) == []
    ensures IsAccident(s) && IsAccident(t) && s != t ==> Recommendations(Label(s), c) != Recommendations(Label(t), c)
  {
    if IsAccident(s) && IsAccident(t) && s != t {
      var rs, rt := Recommendations(Label(s), c), Recommendations(Label(t), c);
      assert rs[0] != rt[0];
    }
  }
}
