/** The temperature chart: a sweep of the temperature model over
    280..500 ppm in steps of 10, with the sample nearest the live CO2 level
    flagged as current. */
module Chart {
  import opened Wrappers
  import Climate

  const ChartBaseTemp: int := 1400
  const MinPpm: int := 280
  const MaxPpm: int := 500
  const PpmStep: int := 10
  /** (500 - 280) / 10 + 1 samples. */
  const SampleCount: nat := 23

  /** One chart point: CO2 in ppm, temperature in hundredths of a degree,
      and whether it is the point nearest the live CO2 level. */
  datatype Sample = Sample(co2: int, temperature: int, current: bool)

  /** The chart's own copy of the temperature formula, used for every sample
      and for the current reading. */
  function ChartTemp(ppm: int): int {
    ChartBaseTemp + (ppm - MinPpm)
  }

  /** `Math.round(co2 / 10) * 10`: the multiple of 10 nearest co2, halves
      rounded up (towards +infinity). */
  function NearestStep(co2: int): (r: int)
    ensures r % PpmStep == 0
    ensures co2 - 5 < r <= co2 + 5
  {
    ((co2 + 5) / PpmStep) * PpmStep
  }

  /** The sample the sweep produces at position i. */
  function SampleAt(i: int, co2: int): Sample {
    var ppm := MinPpm + PpmStep * i;
    Sample(ppm, ChartTemp(ppm), ppm == NearestStep(co2))
  }

  /** data is the chart data for the live level co2. */
  ghost predicate IsChartData(data: seq<Sample>, co2: int) {
    |data| == SampleCount && forall i :: 0 <= i < |data| ==> data[i] == SampleAt(i, co2)
  }

  /** Builds the chart samples by stepping ppm from 280 to 500. */
  method GenerateData(co2: int) returns (data: seq<Sample>)
    ensures |data| == SampleCount
    ensures forall i :: 0 <= i < |data| ==>
      data[i].co2 == MinPpm + PpmStep * i &&
      data[i].temperature == Climate.Temperature(data[i].co2) &&
      (data[i].current <==> data[i].co2 == NearestStep(co2))
    ensures IsChartData(data, co2)
  {
    data := [];
    var ppm := MinPpm;
    while ppm <= MaxPpm
      invariant MinPpm <= ppm <= MaxPpm + PpmStep
      invariant ppm == MinPpm + PpmStep * |data|
      invariant forall i :: 0 <= i < |data| ==> data[i] == SampleAt(i, co2)
      decreases MaxPpm - ppm
    {
      var temp := ChartTemp(ppm);
      data := data + [Sample(ppm, temp, ppm == NearestStep(co2))];
      ppm := ppm + PpmStep;
    }
  }

  /** The temperature shown as the current reading. */
  function CurrentTemp(co2: int): (r: int)
    ensures r == Climate.Temperature(co2)
    ensures r - ChartBaseTemp == Climate.TempIncrease(co2)
  {
    ChartTemp(co2)
  }

  /** The highlight line's data key: the sample's temperature when its ppm
      is the live level rounded to a step, no point otherwise. */
  function Highlight(entry: Sample, co2: int): (r: Option<int>)
    ensures r.Some? <==> entry.co2 % PpmStep == 0 && co2 - 5 < entry.co2 <= co2 + 5
    ensures r.Some? ==> r.value == entry.temperature
  {
    if entry.co2 == NearestStep(co2) then Some(entry.temperature) else None
  }

  /** The tooltip's "+x increase" for the hovered sample: its temperature
      above the baseline, which for a sample built from the shared formula
      is the panel's increase at that ppm. */
  function TooltipIncrease(entry: Sample): (r: int)
    ensures entry.temperature == Climate.Temperature(entry.co2) ==>
      r == Climate.TempIncrease(entry.co2)
    ensures r >= 0 <==> entry.temperature >= ChartBaseTemp
  {
    entry.temperature - ChartBaseTemp
  }

  /** The positions of the samples flagged as current. */
  ghost function CurrentIndices(data: seq<Sample>): set<int> {
    set i | 0 <= i < |data| && data[i].current
  }

  /** The half-way cases round up. */
  lemma HalvesRoundUp()
    ensures NearestStep(425) == 430 && NearestStep(415) == 420
    ensures NearestStep(424) == 420 && NearestStep(500) == 500
  {
  }

  /** First sample is 280 ppm at 14.00, last is 500 ppm at 16.20. */
  lemma ChartEndpoints(data: seq<Sample>, co2: int)
    requires IsChartData(data, co2)
    ensures data[0].co2 == 280 && data[0].temperature == 1400
    ensures data[|data| - 1].co2 == 500 && data[|data| - 1].temperature == 1620
  {
    assert data[0] == SampleAt(0, co2);
    assert data[22] == SampleAt(22, co2);
  }

  /** Along the array both ppm and temperature strictly increase. */
  lemma ChartStrictlyIncreasing(data: seq<Sample>, co2: int, i: int, j: int)
    requires IsChartData(data, co2)
    requires 0 <= i < j < |data|
    ensures data[i].co2 < data[j].co2
    ensures data[i].temperature < data[j].temperature
  {
    assert data[i] == SampleAt(i, co2) && data[j] == SampleAt(j, co2);
  }

  /** Every plotted temperature is at or above the baseline. */
  lemma TooltipIncreaseNonNegative(data: seq<Sample>, co2: int, i: int)
    requires IsChartData(data, co2)
    requires 0 <= i < |data|
    ensures TooltipIncrease(data[i]) == data[i].co2 - MinPpm >= 0
  {
    assert data[i] == SampleAt(i, co2);
  }

  /** The highlight line and the current flag pick the same sample. */
  lemma HighlightMatchesCurrent(data: seq<Sample>, co2: int, i: int)
    requires IsChartData(data, co2)
    requires 0 <= i < |data|
    ensures Highlight(data[i], co2).Some? <==> data[i].current
    ensures data[i].current ==> Highlight(data[i], co2) == Some(data[i].temperature)
  {
    assert data[i] == SampleAt(i, co2);
  }

  /** Exactly the sample at ppm NearestStep(co2) is flagged when that is
      inside the sweep, i.e. for 275 <= co2 <= 504; none otherwise. In
      particular every slider value flags exactly one sample. */
  lemma ExactlyOneCurrent(data: seq<Sample>, co2: int)
    requires IsChartData(data, co2)
    ensures 275 <= co2 <= 504 ==>
      CurrentIndices(data) == {(NearestStep(co2) - MinPpm) / PpmStep}
    ensures !(275 <= co2 <= 504) ==> CurrentIndices(data) == {}
    ensures |CurrentIndices(data)| == if 275 <= co2 <= 504 then 1 else 0
  {
    var n := NearestStep(co2);
    var k := (n - MinPpm) / PpmStep;
    forall i | 0 <= i < |data|
      ensures data[i].current <==> MinPpm + PpmStep * i == n
    {
      assert data[i] == SampleAt(i, co2);
    }
    if 275 <= co2 <= 504 {
      assert MinPpm <= n <= MaxPpm;
      assert MinPpm + PpmStep * k == n;
      forall i ensures i in CurrentIndices(data) <==> i == k {
        if i in CurrentIndices(data) {
          assert MinPpm + PpmStep * i == n;
        }
      }
      assert CurrentIndices(data) == {k};
    } else {
      assert n < MinPpm || n > MaxPpm;
      forall i ensures i !in CurrentIndices(data) {
        if 0 <= i < |data| {
          assert MinPpm + PpmStep * i != n;
        }
      }
      assert CurrentIndices(data) == {};
    }
  }
}
