/** The climate dashboard's display rules: the colour band of a risk score, the advised
    action, the gauge's dash offset, the trend label and the rain icon. */
module ClimateDashboard {

  /** The four colour bands of a score. */
  datatype Band = Emerald | Yellow | Orange | Red

  function BandOf(score: real): (b: Band)
    ensures b == Emerald <==> score < 40.0
    ensures b == Yellow <==> 40.0 <= score < 60.0
    ensures b == Orange <==> 60.0 <= score < 80.0
    ensures b == Red <==> 80.0 <= score
  {
    if score < 40.0 then Emerald else if score < 60.0 then Yellow else if score < 80.0 then Orange else Red
  }

  function BandName(b: Band): string
  {
    match b
    case Emerald => "emerald-500"
    case Yellow => "yellow-500"
    case Orange => "orange-500"
    case Red => "red-500"
  }

  /** The text colour class of a score. */
  function RiskColor(score: real): (c: string)
    ensures c == "text-" + BandName(BandOf(score))
  {
    if score < 40.0 then "text-emerald-500"
    else if score < 60.0 then "text-yellow-500"
    else if score < 80.0 then "text-orange-500"
    else "text-red-500"
  }

  /** The background colour class of a score. */
  function RiskBg(score: real): (c: string)
    ensures c == "bg-" + BandName(BandOf(score))
  {
    if score < 40.0 then "bg-emerald-500"
    else if score < 60.0 then "bg-yellow-500"
    else if score < 80.0 then "bg-orange-500"
    else "bg-red-500"
  }

  /** Text and background always agree on the band: the classes differ only in prefix. */
  lemma ColorsAgree(score: real)
    ensures RiskColor(score)[5..] == RiskBg(score)[3..]
  {
  }

  /** A higher score never moves to a lower band. */
  lemma BandMonotone(a: real, b: real)
    requires a <= b
    ensures BandRank(BandOf(a)) <= BandRank(BandOf(b))
  {
  }

  function BandRank(b: Band): nat
  {
    match b
    case Emerald => 0
    case Yellow => 1
    case Orange => 2
    case Red => 3
  }

  const DelayPlanting := "DELAY PLANTING / CONSERVE WATER"
  const PlantingWindow := "OPTIMAL PLANTING WINDOW OPEN"

  /** The advised action: delay planting above 60, plant otherwise. */
  function ImmediateAction(score: real): (a: string)
    ensures a == DelayPlanting <==> score > 60.0
    ensures a == PlantingWindow <==> score <= 60.0
  {
    if score > 60.0 then DelayPlanting else PlantingWindow
  }

  /** The dash offset of the 440-long gauge ring. */
  function GaugeOffset(score: real): (offset: real)
    ensures 0.0 <= score <= 100.0 ==> 0.0 <= offset <= 440.0
    ensures score == 100.0 ==> offset == 0.0
    ensures score == 0.0 ==> offset == 440.0
  {
    440.0 - (440.0 * score) / 100.0
  }

  /** A higher score fills more of the gauge. */
  lemma GaugeOffsetDecreasing(a: real, b: real)
    requires a <= b
    ensures GaugeOffset(b) <= GaugeOffset(a)
  {
  }

  /** The trend line under the gauge: an arrow and a word for the direction. */
  function TrendLabel(trend: string): (shown: string)
    ensures trend == "increasing" ==> shown == "\U{2197}\U{fe0f} Worsening"
    ensures trend == "decreasing" ==> shown == "\U{2198}\U{fe0f} Improving"
    ensures trend != "increasing" && trend != "decreasing" ==> shown == "\U{2192} Stable"
  {
    if trend == "increasing" then "\U{2197}\U{fe0f} Worsening"
    else if trend == "decreasing" then "\U{2198}\U{fe0f} Improving"
    else "\U{2192} Stable"
  }

  /** The forecast day shows a rain cloud above 50 percent rain probability, a sun otherwise. */
  function ShowsRain(rainProb: real): (rain: bool)
    ensures rain <==> rainProb > 50.0
  {
    rainProb > 50.0
  }

  /** A wetter day never loses the rain cloud, and exactly 50 percent still shows the sun. */
  lemma ShowsRainMonotone(a: real, b: real)
    requires a <= b
    ensures ShowsRain(a) ==> ShowsRain(b)
    ensures !ShowsRain(50.0)
  {
  }
}
