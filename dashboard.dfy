/** The colour and label helpers of the patient dashboard
    (client/src/pages/Dashboard/DashboardPage.jsx): pain and fatigue levels
    fall into three bands, and a mood names a text colour. */
module Dashboard {

  const Healthy := "text-health-600"
  const Warning := "text-warning-600"
  const Danger := "text-danger-600"
  const Neutral := "text-neutral-600"

  /** `getSeverityLabel`: up to 3 is low, up to 6 moderate, above that high. */
  function SeverityLabel(severity: int): (name: string)
    ensures name == "Low" <==> severity <= 3
    ensures name == "Moderate" <==> 3 < severity <= 6
    ensures name == "High" <==> 6 < severity
  {
    if severity <= 3 then "Low"
    else if severity <= 6 then "Moderate"
    else "High"
  }

  /** `getSeverityColor`: the same thresholds, coloured health, warning and
      danger. */
  function SeverityColor(severity: int): (color: string)
    ensures color == Healthy <==> severity <= 3
    ensures color == Warning <==> 3 < severity <= 6
    ensures color == Danger <==> 6 < severity
  {
    assert Healthy[5] != Danger[5];
    if severity <= 3 then Healthy
    else if severity <= 6 then Warning
    else Danger
  }

  /** The position of a label among Low, Moderate, High. */
  function LabelRank(name: string): nat {
    if name == "Low" then 0 else if name == "Moderate" then 1 else 2
  }

  /** The label and the colour always tell the same band. */
  lemma LabelAndColorAgree(a: int, b: int)
    ensures SeverityLabel(a) == SeverityLabel(b) <==> SeverityColor(a) == SeverityColor(b)
  {
  }

  /** A higher level never shows a lower band. */
  lemma BandsMonotone(a: int, b: int)
    requires a <= b
    ensures LabelRank(SeverityLabel(a)) <= LabelRank(SeverityLabel(b))
  {
  }

  /** The lookup table of `getMoodColor`. */
  const MoodColors: map<string, string> := map[
    "excellent" := Healthy,
    "good" := "text-primary-600",
    "fair" := Warning,
    "poor" := Danger,
    "terrible" := "text-danger-700"]

  /** `colors[mood] || 'text-neutral-600'` */
  function MoodColor(mood: string): (color: string)
    ensures mood in MoodColors ==> color == MoodColors[mood]
    ensures color == Neutral <==> mood !in MoodColors
  {
    assert Neutral[5] != Healthy[5] && Neutral[5] != "text-primary-600"[5] && Neutral[5] != Danger[5];
    assert Neutral[5] != Warning[5] && Neutral[5] != "text-danger-700"[5];
    if mood in MoodColors then MoodColors[mood] else Neutral
  }

  /** The moods that share a severity band's colour use that very colour. */
  lemma MoodsShareSeverityPalette()
    ensures MoodColor("excellent") == SeverityColor(0)
    ensures MoodColor("fair") == SeverityColor(5)
    ensures MoodColor("poor") == SeverityColor(10)
  {
  }
}
