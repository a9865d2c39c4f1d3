/** The CO2 -> temperature model of the simulation panel.

    Temperatures are integer hundredths of a degree Celsius: the panel's
    `14 + (co2 - 280) * 0.01` is exactly `1400 + (co2 - 280)` hundredths,
    which is the value `toFixed(2)` displays. CO2 levels are whole ppm. */
module Climate {

  /** Pre-industrial baseline temperature, 14 degrees C. */
  const BaseTemp: int := 1400
  /** Pre-industrial CO2 concentration in ppm. */
  const PreindustrialCo2: int := 280
  /** Slider bounds and step. */
  const SliderMin: int := 280
  const SliderMax: int := 500
  const SliderStep: int := 5

  /** Projected temperature (hundredths of a degree C) at the given CO2 level:
      0.01 degrees per ppm above the baseline. */
  function Temperature(co2: int): (t: int)
    ensures t as real / 100.0 == 14.0 + (co2 - 280) as real * 0.01
  {
    BaseTemp + (co2 - PreindustrialCo2)
  }

  /** Warming above the pre-industrial baseline, in hundredths of a degree. */
  function TempIncrease(co2: int): (r: int)
    ensures r == co2 - PreindustrialCo2
    ensures r == 0 <==> co2 == PreindustrialCo2
    ensures co2 >= PreindustrialCo2 ==> r >= 0
  {
    Temperature(co2) - BaseTemp
  }

  /** A value the slider can produce. */
  predicate SliderValue(co2: int) {
    SliderMin <= co2 <= SliderMax && (co2 - SliderMin) % SliderStep == 0
  }

  datatype Severity = Safe | Moderate | Concerning | Critical

  /** The record the panel renders for a severity class. */
  datatype SeverityStyle = SeverityStyle(color: string, bg: string, labelText: string)

  /** Ordered threshold check: the first threshold the temperature is below
      decides the class, so a boundary value belongs to the higher class. */
  function GetSeverity(temp: int): (s: Severity)
    ensures s == Safe <==> temp < 1500
    ensures s == Moderate <==> 1500 <= temp < 1600
    ensures s == Concerning <==> 1600 <= temp < 1700
    ensures s == Critical <==> 1700 <= temp
  {
    if temp < 1500 then Safe
    else if temp < 1600 then Moderate
    else if temp < 1700 then Concerning
    else Critical
  }

  function Style(s: Severity): (r: SeverityStyle)
    ensures r.labelText == "Safe" <==> s == Safe
    ensures r.labelText == "Moderate" <==> s == Moderate
    ensures r.labelText == "Concerning" <==> s == Concerning
    ensures r.labelText == "Critical" <==> s == Critical
  {
    match s
    case Safe => SeverityStyle("text-accent", "bg-accent/10", "Safe")
    case Moderate => SeverityStyle("text-yellow-600", "bg-yellow-50", "Moderate")
    case Concerning => SeverityStyle("text-orange-600", "bg-orange-50", "Concerning")
    case Critical => SeverityStyle("text-destructive", "bg-destructive/10", "Critical")
  }

  /** Position of a class in the order Safe < Moderate < Concerning < Critical. */
  function Rank(s: Severity): nat {
    match s
    case Safe => 0
    case Moderate => 1
    case Concerning => 2
    case Critical => 3
  }

  /** The severity record the panel shows for a CO2 level. */
  function PanelSeverity(co2: int): (r: SeverityStyle)
    ensures r.labelText == "Safe" <==> co2 < 380
    ensures r.labelText == "Moderate" <==> 380 <= co2 < 480
    ensures r.labelText == "Concerning" <==> 480 <= co2 < 580
    ensures r.labelText == "Critical" <==> co2 >= 580
  {
    Style(GetSeverity(Temperature(co2)))
  }

  lemma TemperatureAtBaseline()
    ensures Temperature(PreindustrialCo2) == BaseTemp
    ensures Temperature(420) == 1540 && Temperature(500) == 1620
  {
  }

  /** Higher CO2 always means a strictly higher temperature. */
  lemma TemperatureStrictlyIncreasing(a: int, b: int)
    requires a < b
    ensures Temperature(a) < Temperature(b)
  {
  }

  /** Every 100 ppm adds exactly one degree. */
  lemma TemperaturePerHundredPpm(co2: int)
    ensures Temperature(co2 + 100) == Temperature(co2) + 100
  {
  }

  /** A higher temperature never yields a lower class. */
  lemma SeverityMonotone(t1: int, t2: int)
    requires t1 <= t2
    ensures Rank(GetSeverity(t1)) <= Rank(GetSeverity(t2))
  {
  }

  /** Each class carries its own label, so the label identifies the class. */
  lemma LabelsDistinct(s1: Severity, s2: Severity)
    ensures Style(s1).labelText == Style(s2).labelText <==> s1 == s2
  {
  }

  /** Over the slider's domain the class is Safe below 380 ppm, Moderate
      from 380 up to 480 ppm and Concerning from 480 ppm; Critical is
      unreachable. */
  lemma SliderSeverity(co2: int)
    requires SliderValue(co2)
    ensures GetSeverity(Temperature(co2)) ==
      if co2 < 380 then Safe else if co2 < 480 then Moderate else Concerning
    ensures GetSeverity(Temperature(co2)) != Critical
  {
  }
}
