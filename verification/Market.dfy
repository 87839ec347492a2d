/** Price bars, dates as calendar ordinals, and real-valued strategy parameters. */
module Market {
  import opened LinearAlgebra
  import opened Outcome

  type Date = int

  datatype Bar = Bar(date: Date, open: real, high: real, low: real, close: real, volume: int)

  type Params = map<string, real>

  /** A positive whole parameter, its default, or a rejection. */
  function ParamAsSize(params: Params, key: string, default: nat): Result<nat> {
    if key !in params then Success(default)
    else
      var value := params[key];
      if value <= 0.0 || value.Floor as real != value then Failure(InvalidCommand("invalid parameter value"))
      else Success(value.Floor)
  }

  function ParamOrDefault(params: Params, key: string, default: real): real {
    if key in params then params[key] else default
  }

  function Closes(series: seq<Bar>): (c: Vec)
    ensures |c| == |series|
  {
    seq(|series|, i requires 0 <= i < |series| => series[i].close)
  }

  lemma ClosesPrefix(series: seq<Bar>, k: nat)
    requires k <= |series|
    ensures Closes(series[..k]) == Closes(series)[..k]
  {
  }
}
