/** The `forecast` field of the calculation-template request: a comma-separated list
    of integers, turned into the list of forecast month offsets by its validator. */
module CalculationRequest {

  import opened Common
  import opened PyStr

  const ForecastMessage := "Forecast must be a comma-separated list of integers."

  /** `int()` accepts every piece. */
  predicate AllIntegers(pieces: seq<string>)
  {
    forall k :: 0 <= k < |pieces| ==> ParseInt(pieces[k]).Some?
  }

  /** `[int(x) for x in pieces]`: the integers of all pieces, or `None` when `int()`
      rejects one of them. */
  function ParseAll(pieces: seq<string>): (r: Option<seq<int>>)
    ensures r.Some? <==> AllIntegers(pieces)
    ensures r.Some? ==> |r.value| == |pieces|
    ensures r.Some? ==> forall k :: 0 <= k < |pieces| ==> ParseInt(pieces[k]) == Some(r.value[k])
    decreases |pieces|
  {
    if |pieces| == 0 then Some([])
    else
      match ParseInt(pieces[0])
      case None => None
      case Some(x) =>
        match ParseAll(pieces[1..])
        case None => None
        case Some(xs) => Some([x] + xs)
  }

  /** `validate_forecast(value)`: the integers of the comma-separated pieces, in order,
      or the validator's `ValueError`. The second check of the validator (every item
      is an `int`) holds of every list the first step produces, so it never fails. */
  function ValidateForecast(value: string): (r: Result<seq<int>>)
    ensures r.Ok? <==> AllIntegers(Split(value, ','))
    ensures r.Ok? ==> |r.value| == |Split(value, ',')|
    ensures r.Ok? ==> forall k :: 0 <= k < |r.value| ==> ParseInt(Split(value, ',')[k]) == Some(r.value[k])
    ensures r.Err? ==> r.error == ValueError(ForecastMessage)
  {
    var pieces := Split(value, ',');
    var parsed := ParseAll(pieces);
    if parsed.None? then Err(ValueError(ForecastMessage)) else Ok(parsed.value)
  }

  /** An accepted forecast has one entry more than it has commas. */
  lemma ForecastLength(value: string)
    requires ValidateForecast(value).Ok?
    ensures |ValidateForecast(value).value| == Count(value, ',') + 1
  {
    SplitCount(value, ',');
  }

  /** An empty piece is never an integer: "", "1,,2" and "1,2," are all refused. */
  lemma EmptyPieceRefused(value: string, k: nat)
    requires k < |Split(value, ',')| && Split(value, ',')[k] == ""
    ensures ValidateForecast(value) == Err(ValueError(ForecastMessage))
  {
    assert ParseInt(Split(value, ',')[k]).None?;
  }

  lemma EmptyForecastRefused()
    ensures ValidateForecast("").Err?
  {
    EmptyPieceRefused("", 0);
  }

  /** The decimal renderings of a list of integers. */
  function Render(xs: seq<int>): (r: seq<string>)
    ensures |r| == |xs|
    ensures forall k :: 0 <= k < |xs| ==> r[k] == IntToString(xs[k])
  {
    seq(|xs|, k requires 0 <= k < |xs| => IntToString(xs[k]))
  }

  /** A printed integer never contains a comma. */
  lemma NoCommaInInt(i: int)
    ensures ',' !in IntToString(i)
  {
    var s := IntToString(i);
    if i < 0 {
      assert s == "-" + NatToString(-i);
      assert forall k :: 1 <= k < |s| ==> s[k] == NatToString(-i)[k - 1];
    }
  }

  /** Round trip: joining the decimal renderings of a non-empty integer list with ","
      and validating the text gives the list back. */
  lemma {:induction false} ForecastRoundTrip(xs: seq<int>)
    requires |xs| >= 1
    ensures ValidateForecast(Join(Render(xs), ',')) == Ok(xs)
  {
    var ps := Render(xs);
    forall k | 0 <= k < |ps| ensures ',' !in ps[k] {
      NoCommaInInt(xs[k]);
    }
    SplitJoin(ps, ',');
    forall k | 0 <= k < |ps| ensures ParseInt(ps[k]) == Some(xs[k]) {
      IntToStringParses(xs[k]);
    }
    var r := ValidateForecast(Join(ps, ','));
    assert r.Ok?;
    assert r.value == xs;
  }
}
