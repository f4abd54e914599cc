/** The storage side as the runner sees it: points built with `Point(...)`
    and handed to `write_api.write`, modelled as an append-only sink. */
module Metrics {
  import opened Wrappers

  /** A field value: Python `int`, `float` (as an exact real), `bool` or `str`. */
  datatype FieldValue = IntValue(i: int) | FloatValue(x: real) | BoolValue(b: bool) | StringValue(s: string)

  /** A point as the runner builds it: the measurement name, then tags and
      fields as passed to `.tag`/`.field`, where a value may be `None`. */
  datatype Point = Point(
    measurement: string,
    tags: map<string, Option<string>>,
    fields: map<string, Option<FieldValue>>)

  /** The writer: every point written is appended, in order. */
  class MetricsWriter {
    var points: seq<Point>

    constructor ()
      ensures points == []
    {
      points := [];
    }

    method Write(p: Point)
      modifies this
      ensures points == old(points) + [p]
    {
      points := points + [p];
    }
  }

  /** The measurement names of `points`, in order. */
  function Names(points: seq<Point>): (r: seq<string>)
    ensures |r| == |points|
    ensures forall i :: 0 <= i < |points| ==> r[i] == points[i].measurement
  {
    if points == [] then [] else [points[0].measurement] + Names(points[1..])
  }

  /** How many times `name` occurs in `names`. */
  function Count(names: seq<string>, name: string): nat
  {
    if names == [] then 0
    else (if names[0] == name then 1 else 0) + Count(names[1..], name)
  }

  lemma {:induction false} NamesAppend(a: seq<Point>, b: seq<Point>)
    ensures Names(a + b) == Names(a) + Names(b)
  {
    assert forall i :: 0 <= i < |a + b| ==> Names(a + b)[i] == (Names(a) + Names(b))[i];
  }

  lemma {:induction false} CountAppend(a: seq<string>, b: seq<string>, name: string)
    ensures Count(a + b, name) == Count(a, name) + Count(b, name)
  {
    if a != [] {
      assert (a + b)[1..] == a[1..] + b;
      CountAppend(a[1..], b, name);
    } else {
      assert a + b == b;
    }
  }

  lemma CountPair(a: string, b: string, name: string)
    ensures Count([a, b], name) == (if a == name then 1 else 0) + (if b == name then 1 else 0)
  {
    assert [a, b][1..] == [b];
    assert [b][1..] == [];
    assert Count([b], name) == (if b == name then 1 else 0) + Count([], name);
  }
}
