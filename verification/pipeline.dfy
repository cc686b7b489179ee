/**
 Pipeline: the list of server-side transform steps a read can carry. Each
 builder call appends one `{name, arguments}` step; `toJSON()` wraps the list
 as `{functions: [...]}`.
 */
module Pipelines {
  import opened JsValues

  datatype Step = Step(name: string, arguments: seq<JsValue>)

  datatype Pipeline = Pipeline(functions: seq<Step>)

  /** `new Pipeline()`. */
  function New(): (p: Pipeline)
    ensures |p.functions| == 0
  {
    Pipeline([])
  }

  /** A Date whose time value is a number, so that it has an ISO rendering. */
  predicate ValidDate(d: JsValue) {
    d.Date? && d.iso.Some?
  }

  /**
   `d.toISOString()`: the rendering of a valid Date. An invalid Date throws a
   RangeError; any other value has no such method.
   */
  function ToIsoString(d: JsValue): (r: Completion<string>)
    ensures r.Normal? <==> ValidDate(d)
    ensures r.Normal? ==> Some(r.value) == d.iso
    ensures d.Date? && d.iso.None? ==> r == Throw(RangeError("Invalid time value"))
    ensures !d.Date? ==> r == Throw(TypeError("toISOString"))
  {
    match d
    case Date(iso) =>
      (match iso
       case Some(text) => Normal(text)
       case None => Throw(RangeError("Invalid time value")))
    case _ => Throw(TypeError("toISOString"))
  }

  /** `r` is `p` with `step` appended and nothing else changed. */
  predicate AppendsStep(p: Pipeline, r: Pipeline, step: Step) {
    |r.functions| == |p.functions| + 1
    && r.functions[..|p.functions|] == p.functions
    && r.functions[|p.functions|] == step
  }

  /** `aggregate(fun)`. */
  function Aggregate(p: Pipeline, fun: JsValue): (r: Pipeline)
    ensures AppendsStep(p, r, Step("aggregation", [fun]))
  {
    Pipeline(p.functions + [Step("aggregation", [fun])])
  }

  /**
   `rollup(period, fun, start)`: the step's arguments put the function before
   the period. A `start` that is not a Date throws before anything is appended.
   */
  function Rollup(p: Pipeline, period: JsValue, fun: JsValue, start: JsValue): (r: Completion<Pipeline>)
    ensures r.Normal? <==> ValidDate(start)
    ensures r.Throw? ==> ToIsoString(start).Throw? && r.error == ToIsoString(start).error
    ensures r.Normal? ==> AppendsStep(p, r.value, Step("rollup", [fun, period, Str(start.iso.value)]))
  {
    match ToIsoString(start)
    case Throw(e) => Throw(e)
    case Normal(startIso) => Normal(Pipeline(p.functions + [Step("rollup", [fun, period, Str(startIso)])]))
  }

  /** `interpolate(period, fun, start, end)`; `start` is converted first, then `end`. */
  function Interpolate(p: Pipeline, period: JsValue, fun: JsValue, start: JsValue, end: JsValue): (r: Completion<Pipeline>)
    ensures r.Normal? <==> ValidDate(start) && ValidDate(end)
    ensures !ValidDate(start) ==> r.Throw? && r.error == ToIsoString(start).error
    ensures ValidDate(start) && !ValidDate(end) ==> r.Throw? && r.error == ToIsoString(end).error
    ensures r.Normal? ==> AppendsStep(p, r.value, Step("interpolate", [fun, period, Str(start.iso.value), Str(end.iso.value)]))
  {
    match ToIsoString(start)
    case Throw(e) => Throw(e)
    case Normal(startIso) =>
      match ToIsoString(end)
      case Throw(e) => Throw(e)
      case Normal(endIso) =>
        Normal(Pipeline(p.functions + [Step("interpolate", [fun, period, Str(startIso), Str(endIso)])]))
  }

  function StepJson(step: Step): (j: JsValue) {
    Obj(map["name" := Str(step.name), "arguments" := Arr(step.arguments)])
  }

  /** `toJSON()`: `{functions: <the step list>}`. */
  function ToJson(p: Pipeline): (j: JsValue)
    ensures j.Obj? && j.props.Keys == {"functions"}
    ensures j.props["functions"].Arr? && |j.props["functions"].elems| == |p.functions|
  {
    Obj(map["functions" := Arr(StepsJson(p.functions))])
  }

  function StepsJson(steps: seq<Step>): (js: seq<JsValue>)
    ensures |js| == |steps|
    ensures forall i :: 0 <= i < |steps| ==> js[i] == StepJson(steps[i])
  {
    seq(|steps|, i requires 0 <= i < |steps| => StepJson(steps[i]))
  }

  /** Reads one step back from its JSON value. */
  function StepFromJson(j: JsValue): (step: Option<Step>) {
    if j.Obj? && "name" in j.props && j.props["name"].Str? && "arguments" in j.props && j.props["arguments"].Arr?
    then Some(Step(j.props["name"].s, j.props["arguments"].elems))
    else None
  }

  function StepsFromJson(js: seq<JsValue>): Option<seq<Step>>
    decreases |js|
  {
    if |js| == 0 then Some([])
    else
      match StepsFromJson(js[..|js| - 1])
      case None => None
      case Some(steps) =>
        match StepFromJson(js[|js| - 1])
        case None => None
        case Some(step) => Some(steps + [step])
  }

  /** Reads a pipeline back from the JSON value `toJSON()` produces. */
  function FromJson(j: JsValue): (p: Option<Pipeline>) {
    if j.Obj? && "functions" in j.props && j.props["functions"].Arr? then
      match StepsFromJson(j.props["functions"].elems)
      case None => None
      case Some(steps) => Some(Pipeline(steps))
    else None
  }

  lemma {:induction false} StepsRoundTrip(steps: seq<Step>)
    ensures StepsFromJson(StepsJson(steps)) == Some(steps)
    decreases |steps|
  {
    if |steps| > 0 {
      var js := StepsJson(steps);
      var front := steps[..|steps| - 1];
      assert js[..|js| - 1] == StepsJson(front);
      StepsRoundTrip(front);
      assert steps == front + [steps[|steps| - 1]];
    }
  }

  /** `toJSON()` loses nothing: the step list, names and argument order, can be read back. */
  lemma RoundTrip(p: Pipeline)
    ensures FromJson(ToJson(p)) == Some(p)
  {
    StepsRoundTrip(p.functions);
  }
}
