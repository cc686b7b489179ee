/**
 DataPoint and BulkWrite: a write request, the nested object
 `deviceKey -> sensorKey -> [DataPoint]` that `push` appends to.
 */
module BulkWrites {
  import opened JsValues

  /** `new DataPoint(ts, value)`: both stored as given. */
  datatype DataPoint = DataPoint(t: JsValue, v: JsValue)

  datatype BulkWrite = BulkWrite(data: map<string, map<string, seq<DataPoint>>>)

  /** One `push(device, sensor, point)` call. */
  datatype Put = Put(device: string, sensor: string, point: DataPoint)

  /** `new BulkWrite()`. */
  function New(): (w: BulkWrite)
    ensures w.data == map[]
    ensures forall d, s :: Points(w, d, s) == []
  {
    BulkWrite(map[])
  }

  /** `data[d][s]`, reading a missing device or sensor as no points. */
  function Points(w: BulkWrite, d: string, s: string): (points: seq<DataPoint>) {
    if d in w.data && s in w.data[d] then w.data[d][s] else []
  }

  /**
   `push(d, s, p)`: creates the device and sensor entries when missing and
   appends `p` to that sensor's list; every other list stays as it was.
   */
  function Push(w: BulkWrite, d: string, s: string, p: DataPoint): (r: BulkWrite)
    ensures d in r.data && s in r.data[d]
    ensures r.data.Keys == w.data.Keys + {d}
    ensures r.data[d].Keys == (if d in w.data then w.data[d].Keys else {}) + {s}
    ensures Points(r, d, s) == Points(w, d, s) + [p]
    ensures forall d', s' :: d' != d || s' != s ==> Points(r, d', s') == Points(w, d', s')
    ensures forall d' :: d' in w.data && d' != d ==> r.data[d'] == w.data[d']
  {
    var sensors := if d in w.data then w.data[d] else map[];
    var points := if s in sensors then sensors[s] else [];
    BulkWrite(w.data[d := sensors[s := points + [p]]])
  }

  /** A sequence of `push` calls, in order. */
  function PushAll(w: BulkWrite, puts: seq<Put>): (r: BulkWrite)
    decreases |puts|
  {
    if |puts| == 0 then w
    else
      var last := puts[|puts| - 1];
      Push(PushAll(w, puts[..|puts| - 1]), last.device, last.sensor, last.point)
  }

  /** The points of the puts addressed to (d, s), in call order. */
  function PutsFor(puts: seq<Put>, d: string, s: string): (points: seq<DataPoint>)
    decreases |puts|
  {
    if |puts| == 0 then []
    else
      var last := puts[|puts| - 1];
      PutsFor(puts[..|puts| - 1], d, s) + (if last.device == d && last.sensor == s then [last.point] else [])
  }

  /** After any sequence of pushes each list holds its earlier points followed by its pushed points, in push order. */
  lemma {:induction false} PushOrder(w: BulkWrite, puts: seq<Put>, d: string, s: string)
    ensures Points(PushAll(w, puts), d, s) == Points(w, d, s) + PutsFor(puts, d, s)
    decreases |puts|
  {
    if |puts| > 0 {
      PushOrder(w, puts[..|puts| - 1], d, s);
    }
  }

  /** The JSON value of a point, `{t, v}`. */
  function PointJson(p: DataPoint): JsValue {
    Obj(map["t" := p.t, "v" := p.v])
  }

  /** `toJSON()`: the data object itself. */
  function ToJson(w: BulkWrite): (j: JsValue)
    ensures j.Obj? && j.props.Keys == w.data.Keys
    ensures forall d :: d in w.data ==> j.props[d].Obj? && j.props[d].props.Keys == w.data[d].Keys
    ensures forall d, s :: d in w.data && s in w.data[d] ==> j.props[d].props[s] == PointsJson(w.data[d][s])
  {
    Obj(map d | d in w.data :: SensorsJson(w.data[d]))
  }

  function SensorsJson(sensors: map<string, seq<DataPoint>>): JsValue {
    Obj(map s | s in sensors :: PointsJson(sensors[s]))
  }

  /** The JSON array of a list of points, element by element. */
  function PointsJson(points: seq<DataPoint>): (j: JsValue)
    ensures j.Arr? && |j.elems| == |points|
    ensures forall i :: 0 <= i < |points| ==> j.elems[i] == PointJson(points[i])
  {
    Arr(seq(|points|, i requires 0 <= i < |points| => PointJson(points[i])))
  }

  /** Reads a point back from `{t, v}`. */
  function PointFromJson(j: JsValue): (p: Option<DataPoint>) {
    if j.Obj? && "t" in j.props && "v" in j.props then Some(DataPoint(j.props["t"], j.props["v"])) else None
  }

  /** Reads a list of points back from an array, failing if any element is not a point. */
  function PointsFromJson(j: JsValue): (points: Option<seq<DataPoint>>) {
    if j.Arr? && forall i :: 0 <= i < |j.elems| ==> PointFromJson(j.elems[i]).Some? then
      Some(seq(|j.elems|, i requires 0 <= i < |j.elems| => PointFromJson(j.elems[i]).value))
    else None
  }

  /** Reads a sensor object back, failing if any sensor's value is not a list of points. */
  function SensorsFromJson(j: JsValue): (sensors: Option<map<string, seq<DataPoint>>>) {
    if j.Obj? && forall s :: s in j.props ==> PointsFromJson(j.props[s]).Some? then
      Some(map s | s in j.props :: PointsFromJson(j.props[s]).value)
    else None
  }

  /**
   Reads a serialised write back, as the server reads the request body:
   `{deviceKey: {sensorKey: [{t, v}]}}`.
   */
  function FromJson(j: JsValue): (w: Option<BulkWrite>) {
    if j.Obj? && forall d :: d in j.props ==> SensorsFromJson(j.props[d]).Some? then
      Some(BulkWrite(map d | d in j.props :: SensorsFromJson(j.props[d]).value))
    else None
  }

  lemma PointsRoundTrip(points: seq<DataPoint>)
    ensures PointsFromJson(PointsJson(points)) == Some(points)
  {
    var j := PointsJson(points);
    forall i | 0 <= i < |j.elems| ensures PointFromJson(j.elems[i]) == Some(points[i]) {
      assert j.elems[i] == PointJson(points[i]);
    }
    var r := PointsFromJson(j).value;
    assert |r| == |points|;
    assert forall i :: 0 <= i < |r| ==> r[i] == points[i];
    assert r == points;
  }

  lemma SensorsRoundTrip(sensors: map<string, seq<DataPoint>>)
    ensures SensorsFromJson(SensorsJson(sensors)) == Some(sensors)
  {
    var j := SensorsJson(sensors);
    forall s | s in j.props ensures PointsFromJson(j.props[s]) == Some(sensors[s]) {
      PointsRoundTrip(sensors[s]);
    }
    var r := SensorsFromJson(j).value;
    assert r.Keys == sensors.Keys;
    assert forall s :: s in r ==> r[s] == sensors[s];
    assert r == sensors;
  }

  /** Serialising loses nothing: the request body reads back as the write it came from. */
  lemma RoundTrip(w: BulkWrite)
    ensures FromJson(ToJson(w)) == Some(w)
  {
    var j := ToJson(w);
    forall d | d in j.props ensures SensorsFromJson(j.props[d]) == Some(w.data[d]) {
      SensorsRoundTrip(w.data[d]);
    }
    var r := FromJson(j).value;
    assert r.data.Keys == w.data.Keys;
    assert forall d :: d in r.data ==> r.data[d] == w.data[d];
    assert r.data == w.data;
  }

  /** Two writes with the same request body are the same write. */
  lemma ToJsonInjective(w1: BulkWrite, w2: BulkWrite)
    requires ToJson(w1) == ToJson(w2)
    ensures w1 == w2
  {
    RoundTrip(w1);
    RoundTrip(w2);
  }

  /** One push into a new write serialises as `{d: {s: [p]}}`. */
  lemma SinglePushJson(d: string, s: string, p: DataPoint)
    ensures ToJson(Push(New(), d, s, p)) == Obj(map[d := Obj(map[s := Arr([PointJson(p)])])])
  {
    var w := Push(New(), d, s, p);
    assert [] + [p] == [p];
    assert w.data == map[d := map[s := [p]]];
    assert PointsJson([p]) == Arr([PointJson(p)]);
    assert SensorsJson(w.data[d]) == Obj(map[s := Arr([PointJson(p)])]);
  }

  /** The sum of a map's values. */
  ghost function Sum<K>(m: map<K, nat>): nat
    decreases |m|
  {
    if m == map[] then 0
    else
      var k :| k in m;
      m[k] + Sum(m - {k})
  }

  lemma {:induction false} SumRemove<K>(m: map<K, nat>, k: K)
    requires k in m
    ensures Sum(m) == m[k] + Sum(m - {k})
    decreases |m|
  {
    var j :| j in m && Sum(m) == m[j] + Sum(m - {j});
    if j != k {
      var rest := m - {j};
      SumRemove(rest, k);
      SumRemove(m - {k}, j);
      assert rest - {k} == (m - {k}) - {j};
    }
  }

  /** Replacing one value changes the sum by the difference. */
  lemma SumUpdate<K>(m: map<K, nat>, k: K, v: nat)
    ensures Sum(m[k := v]) + (if k in m then m[k] else 0) == Sum(m) + v
  {
    SumRemove(m[k := v], k);
    assert m[k := v] - {k} == m - {k};
    if k in m {
      SumRemove(m, k);
    } else {
      assert m - {k} == m;
    }
  }

  ghost function SensorCount(sensors: map<string, seq<DataPoint>>): nat {
    Sum(map s | s in sensors :: |sensors[s]|)
  }

  /** How many points the write holds in all. */
  ghost function TotalPoints(w: BulkWrite): nat {
    Sum(map d | d in w.data :: SensorCount(w.data[d]))
  }

  /** Appending one point to one sensor's list adds one to the device's count. */
  lemma AppendAddsOne(sensors: map<string, seq<DataPoint>>, s: string, p: DataPoint)
    ensures var points := if s in sensors then sensors[s] else [];
      SensorCount(sensors[s := points + [p]]) == SensorCount(sensors) + 1
  {
    var points := if s in sensors then sensors[s] else [];
    var after := sensors[s := points + [p]];
    var counts := map s' | s' in sensors :: |sensors[s']|;
    assert (map s' | s' in after :: |after[s']|) == counts[s := |points| + 1];
    SumUpdate(counts, s, |points| + 1);
  }

  /** A device with no sensors holds no points. */
  lemma NoSensorsNoPoints()
    ensures SensorCount(map[]) == 0
  {
    var none: map<string, seq<DataPoint>> := map[];
    assert (map s' | s' in none :: |none[s']|) == map[];
  }

  /** Replacing one device's sensors changes the total by the difference of their counts. */
  lemma ReplaceDevice(data: map<string, map<string, seq<DataPoint>>>, d: string, sensors: map<string, seq<DataPoint>>)
    ensures TotalPoints(BulkWrite(data[d := sensors])) + (if d in data then SensorCount(data[d]) else 0)
      == TotalPoints(BulkWrite(data)) + SensorCount(sensors)
  {
    var after := data[d := sensors];
    var totals := map d' | d' in data :: SensorCount(data[d']);
    assert (map d' | d' in after :: SensorCount(after[d'])) == totals[d := SensorCount(sensors)];
    SumUpdate(totals, d, SensorCount(sensors));
  }

  /** Every push adds exactly one point to the total. */
  lemma PushAddsOne(w: BulkWrite, d: string, s: string, p: DataPoint)
    ensures TotalPoints(Push(w, d, s, p)) == TotalPoints(w) + 1
  {
    var sensors := if d in w.data then w.data[d] else map[];
    var points := if s in sensors then sensors[s] else [];
    AppendAddsOne(sensors, s, p);
    ReplaceDevice(w.data, d, sensors[s := points + [p]]);
    if d !in w.data {
      NoSensorsNoPoints();
    }
  }
}
