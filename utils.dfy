/**
 * The helpers of src/utils.ts: `randomString`, `rdn`, the loop of `tensor`
 * that turns the detector's raw output into predictions, and `mm`, which
 * flattens a cursor route into `[x, y, timestamp]` triples.
 *
 * `Math.random()` is a draw `r` with 0 <= r < 1 passed in by the caller; the
 * detector's output and the route produced by the cursor library are inputs.
 */
module Utils {
  import opened Wrappers
  import opened Js

  /** A value `Math.random()` can return. */
  predicate IsDraw(r: real)
  {
    0.0 <= r < 1.0
  }

  predicate AllDraws(rs: seq<real>)
  {
    forall i :: 0 <= i < |rs| ==> IsDraw(rs[i])
  }

  /** `Math.floor(r * n)`. */
  function FloorScaled(r: real, n: int): int
  {
    (r * n as real).Floor
  }

  /** A draw scales an integer `d` to a value between 0 and `d`, below `d`'s magnitude unless d is 0. */
  lemma ScaleBounds(r: real, d: int)
    requires IsDraw(r)
    ensures d >= 0 ==> 0.0 <= r * d as real && (d == 0 || r * d as real < d as real)
    ensures d < 0 ==> d as real < r * d as real <= 0.0
  {
    if d > 0 {
      assert r * d as real < 1.0 * d as real;
    } else if d < 0 {
      assert r * (-d) as real < 1.0 * (-d) as real;
    }
  }

  /** `Math.floor(Math.random() * n)` is an index below `n`. */
  lemma FloorScaledBounds(r: real, n: int)
    requires IsDraw(r) && n > 0
    ensures 0 <= FloorScaled(r, n) < n
  {
    ScaleBounds(r, n);
  }

  /** Every index below `n` is hit by the draw `k / n`. */
  lemma FloorScaledHits(k: nat, n: nat)
    requires k < n
    ensures IsDraw(k as real / n as real) && FloorScaled(k as real / n as real, n) == k
  {
    assert k as real / n as real * n as real == k as real;
  }

  /** `Math.round(x)`: the nearest integer, halves rounded up. */
  function Round(x: real): int
  {
    (x + 0.5).Floor
  }

  /** `rdn(start, end)`: `Math.round(Math.random() * (end - start) + start)`, an integer between the two bounds. */
  function Rdn(start: int, end: int, r: real): (x: int)
    requires IsDraw(r)
    ensures start <= end ==> start <= x <= end
    ensures end < start ==> end <= x <= start
  {
    ScaleBounds(r, end - start);
    Round(r * (end - start) as real + start as real)
  }

  // ---------------------------------------------------------------- randomString

  /** `n` consecutive characters starting at `c`. */
  function CharRange(c: char, n: nat): string
    requires c as int + n <= 0xD800
  {
    seq(n, i requires 0 <= i < n => (c as int + i) as char)
  }

  /** The alphabet `randomString` draws from: the 26 capitals, then the 26 small letters, then the 10 digits. */
  const Characters := CharRange('A', 26) + CharRange('a', 26) + CharRange('0', 10)

  /**
   * `randomString(length)`: one character per loop turn, the character at
   * `Math.floor(Math.random() * 62)` of the alphabet, using `draws[i]` as the
   * i-th value of `Math.random()`.
   */
  method RandomString(length: int, draws: seq<real>) returns (result: string)
    requires AllDraws(draws) && length <= |draws|
    ensures |result| == if length < 0 then 0 else length
    ensures forall i :: 0 <= i < |result| ==> result[i] == Characters[FloorScaled(draws[i], |Characters|)]
    ensures forall i :: 0 <= i < |result| ==> result[i] in Characters
  {
    result := "";
    var i := 0;
    while i < length
      invariant 0 <= i <= if length < 0 then 0 else length
      invariant |result| == i
      invariant forall k :: 0 <= k < i ==> 0 <= FloorScaled(draws[k], |Characters|) < |Characters|
      invariant forall k :: 0 <= k < i ==> result[k] == Characters[FloorScaled(draws[k], |Characters|)]
    {
      FloorScaledBounds(draws[i], |Characters|);
      result := result + CharAt(Characters, FloorScaled(draws[i], |Characters|));
      i := i + 1;
    }
  }

  /** The alphabet holds letters and digits only, so a random string never contains '@', ':' or '-'. */
  lemma CharactersExcludeSeparators()
    ensures '@' !in Characters && ':' !in Characters && '-' !in Characters && ' ' !in Characters
  {
  }

  // ---------------------------------------------------------------- tensor

  /** The class table of the detector, indexed by class number. */
  const Names := ["airplane", "bicycle", "boat", "bus", "motorcycle", "seaplane", "train", "truck"]

  /** The arrays `tensor` reads from the detector's output: scores, classes and the number of valid detections. */
  datatype RawDetections = RawDetections(scores: seq<real>, classes: seq<int>, validDetections: int)

  /** One entry of the list `tensor` returns; `None` is an `undefined` class or score. */
  datatype Prediction = Prediction(url: string, className: Option<string>, score: Option<real>)

  /** `names[classes_data[i]]`: undefined past the end of the classes or for a number outside the table. */
  function ClassName(classes: seq<int>, i: nat): Option<string>
  {
    if i < |classes| && 0 <= classes[i] < |Names| then Some(Names[classes[i]]) else None
  }

  /** `scores_data[i]`, undefined past the end. */
  function ScoreAt(scores: seq<real>, i: nat): Option<real>
  {
    if i < |scores| then Some(scores[i]) else None
  }

  /** The object pushed on the i-th turn of the loop. */
  function Entry(url: string, raw: RawDetections, i: nat): Prediction
  {
    Prediction(url, ClassName(raw.classes, i), ScoreAt(raw.scores, i))
  }

  /** How often `for (let i = 0; i < valid_detections_data; i++)` runs. */
  function Count(raw: RawDetections): nat
  {
    if raw.validDetections < 0 then 0 else raw.validDetections
  }

  /** The predictions built from a raw output, as a value. */
  function Predictions(url: string, raw: RawDetections): seq<Prediction>
  {
    seq(Count(raw), i requires 0 <= i < Count(raw) => Entry(url, raw, i))
  }

  /** What `tensor(url)` resolves to: `null` when fetching, decoding or inference threw, the predictions otherwise. */
  function TensorResult(url: string, inference: Option<RawDetections>): Option<seq<Prediction>>
  {
    match inference
    case None => None
    case Some(raw) => Some(Predictions(url, raw))
  }

  /**
   * `tensor(url)`. `inference` is what fetching the image and running the
   * detector gave: `None` when any of these threw (the catch turns that into
   * `null`). The loop pushes one prediction per valid detection, in order.
   */
  method Tensor(url: string, inference: Option<RawDetections>) returns (r: Option<seq<Prediction>>)
    ensures r.None? <==> inference.None?
    ensures r.Some? ==> |r.value| == Count(inference.value)
    ensures r.Some? ==> forall i :: 0 <= i < |r.value| ==> r.value[i] == Entry(url, inference.value, i)
    ensures r == TensorResult(url, inference)
  {
    if inference.None? {
      return None;
    }
    var raw := inference.value;
    var predictions: seq<Prediction> := [];
    var i := 0;
    while i < raw.validDetections
      invariant 0 <= i <= Count(raw)
      invariant |predictions| == i
      invariant forall k :: 0 <= k < i ==> predictions[k] == Entry(url, raw, k)
    {
      predictions := predictions + [Prediction(url, ClassName(raw.classes, i), ScoreAt(raw.scores, i))];
      i := i + 1;
    }
    assert predictions == Predictions(url, raw);
    return Some(predictions);
  }

  /** A class number 0..7 names an entry of the fixed table; any other number, or a missing one, gives an undefined class. */
  lemma ClassNameTable(classes: seq<int>, i: nat)
    ensures ClassName(classes, i).Some? <==> i < |classes| && 0 <= classes[i] < 8
    ensures ClassName(classes, i).Some? ==> ClassName(classes, i).value in Names
  {
  }

  // ---------------------------------------------------------------- mm

  /** A point of the route the cursor library generates between (100, 100) and (600, 700). */
  datatype RoutePoint = RoutePoint(x: real, y: real, timestamp: real)

  /** The triples `mm()` returns for a route, as a value. */
  function Movements(route: seq<RoutePoint>): seq<seq<real>>
  {
    seq(|route|, i requires 0 <= i < |route| => [route[i].x, route[i].y, route[i].timestamp])
  }

  /** `mm()`: `forEach` over the route, pushing `[x, y, timestamp]` for each point. */
  method Mm(route: seq<RoutePoint>) returns (mm: seq<seq<real>>)
    ensures |mm| == |route|
    ensures forall i :: 0 <= i < |route| ==> mm[i] == [route[i].x, route[i].y, route[i].timestamp]
    ensures mm == Movements(route)
  {
    mm := [];
    for i := 0 to |route|
      invariant |mm| == i
      invariant forall k :: 0 <= k < i ==> mm[k] == [route[k].x, route[k].y, route[k].timestamp]
    {
      mm := mm + [[route[i].x, route[i].y, route[i].timestamp]];
    }
  }

  /** Reads a route point back from its triple. */
  function PointOf(t: seq<real>): RoutePoint
    requires |t| == 3
  {
    RoutePoint(t[0], t[1], t[2])
  }

  /** The triples lose nothing: every route point, in order, can be read back from them. */
  lemma MovementsInvertible(route: seq<RoutePoint>)
    ensures |Movements(route)| == |route|
    ensures forall i :: 0 <= i < |route| ==> |Movements(route)[i]| == 3 && PointOf(Movements(route)[i]) == route[i]
  {
  }
}
