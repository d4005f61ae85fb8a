/**
 * The frequency table of the PoorMansFFT layer: the named periods it starts
 * from, their lengths in seconds, and the check on the shape of its input.
 * The layer's weights and its computation belong to the deep-learning
 * library and are not part of this model.
 */
module PoorMansFft {
  import opened Wrappers

  /** The default `initial_frequencies`, shortest period first. */
  const DefaultFrequencies: seq<string> :=
    ["minutely", "hourly", "daily", "weekly", "monthly", "quarterly", "yearly"]

  /** The length of each named period in seconds. */
  const Conversions: map<string, nat> := map[
    "minutely" := 60,
    "hourly" := 3600,
    "daily" := 86400,
    "weekly" := 604800,
    "monthly" := 2628288,
    "quarterly" := 7883991,
    "yearly" := 31535965
  ]

  /**
   * `_convert_frequencies`: an AssertionError when any name is unknown
   * (every name is checked before any is converted), else the seconds of
   * each name, in the order given.
   */
  function ConvertFrequencies(frequencies: seq<string>): (r: Result<seq<nat>>)
    ensures r.Ok? <==> forall i :: 0 <= i < |frequencies| ==> frequencies[i] in Conversions
    ensures r.Err? ==> r.error == AssertionError
    ensures r.Ok? ==> |r.value| == |frequencies|
    ensures r.Ok? ==> forall i :: 0 <= i < |frequencies| ==> r.value[i] == Conversions[frequencies[i]]
  {
    if exists i :: 0 <= i < |frequencies| && frequencies[i] !in Conversions then Err(AssertionError)
    else Ok(seq(|frequencies|, i requires 0 <= i < |frequencies| => Conversions[frequencies[i]]))
  }

  /** The layer after `__init__`: its frequency names and their seconds. */
  datatype PoorMansFFT = PoorMansFFT(initialFrequencies: seq<string>, initialFrequenciesSeconds: seq<nat>)

  /** `__init__`: fails as the conversion fails, else stores each name's seconds in order. */
  function New(initialFrequencies: seq<string>): (r: Result<PoorMansFFT>)
    ensures r.Ok? <==> ConvertFrequencies(initialFrequencies).Ok?
    ensures r.Err? ==> r.error == AssertionError
    ensures r.Ok? ==> r.value.initialFrequencies == initialFrequencies
    ensures r.Ok? ==> |r.value.initialFrequenciesSeconds| == |initialFrequencies|
    ensures r.Ok? ==> forall i :: 0 <= i < |initialFrequencies| ==>
      r.value.initialFrequenciesSeconds[i] == Conversions[initialFrequencies[i]]
  {
    var seconds :- ConvertFrequencies(initialFrequencies);
    Ok(PoorMansFFT(initialFrequencies, seconds))
  }

  /** The default layer builds, and its periods grow strictly from minutely to yearly. */
  lemma DefaultPeriodsIncrease()
    ensures New(DefaultFrequencies).Ok?
    ensures var s := New(DefaultFrequencies).value.initialFrequenciesSeconds;
      |s| == 7 && forall i, j :: 0 <= i < j < |s| ==> s[i] < s[j]
  {
    var s := ConvertFrequencies(DefaultFrequencies).value;
    assert s == [60, 3600, 86400, 604800, 2628288, 7883991, 31535965];
  }

  /** The period of a number of seconds, when it is one of the table's. */
  function FrequencyOf(seconds: nat): (r: Option<string>)
    ensures r.Some? ==> r.value in Conversions && Conversions[r.value] == seconds
    ensures r.None? ==> forall name :: name in Conversions ==> Conversions[name] != seconds
  {
    if seconds == 60 then Some("minutely")
    else if seconds == 3600 then Some("hourly")
    else if seconds == 86400 then Some("daily")
    else if seconds == 604800 then Some("weekly")
    else if seconds == 2628288 then Some("monthly")
    else if seconds == 7883991 then Some("quarterly")
    else if seconds == 31535965 then Some("yearly")
    else None
  }

  /** No information is lost: the names are recovered from the converted seconds. */
  lemma ConvertFrequenciesRoundTrip(frequencies: seq<string>)
    requires ConvertFrequencies(frequencies).Ok?
    ensures var s := ConvertFrequencies(frequencies).value;
      forall i :: 0 <= i < |s| ==> FrequencyOf(s[i]) == Some(frequencies[i])
  {
  }

  /** Converting a concatenation converts each part: order is kept and names are independent. */
  lemma ConvertFrequenciesAppend(a: seq<string>, b: seq<string>)
    ensures ConvertFrequencies(a + b).Ok? <==> ConvertFrequencies(a).Ok? && ConvertFrequencies(b).Ok?
    ensures ConvertFrequencies(a + b).Ok? ==>
      ConvertFrequencies(a + b).value == ConvertFrequencies(a).value + ConvertFrequencies(b).value
  {
    if ConvertFrequencies(a + b).Ok? {
      forall i | 0 <= i < |a| ensures a[i] in Conversions {
        assert (a + b)[i] == a[i];
      }
      forall i | 0 <= i < |b| ensures b[i] in Conversions {
        assert (a + b)[|a| + i] == b[i];
      }
    }
  }

  /**
   * `_check_input_shape`: an AssertionError unless the shape has at least
   * two dimensions and its second is 1 (a dimension may be unknown, None).
   */
  function CheckInputShape(inputShape: seq<Option<nat>>): (r: Result<()>)
    ensures r.Ok? <==> |inputShape| >= 2 && inputShape[1] == Some(1)
    ensures r.Err? ==> r.error == AssertionError
  {
    if |inputShape| < 2 then Err(AssertionError)
    else if inputShape[1] != Some(1) then Err(AssertionError)
    else Ok(())
  }
}
