/**
  The camera record as the backend's API serialises it (app.py, get_all_cameras and
  get_cameras_by_model) and as both dashboard pages read it, with the left-to-right sums
  that the pages compute with `Array.prototype.reduce`.
 */
module CameraRecords {

  datatype Option<T> = None | Some(value: T)

  /** One camera as delivered to the browser. Storage is a JS number of gigabytes,
      modelled as a real; incidents are an integer count. */
  datatype Camera = Camera(
    id: int,
    model: string,
    serialNumber: string,
    installationDate: string,
    storageGb: real,
    incidents: int,
    status: string)

  /** A Plotly bar trace: categories on x, one bar height per category on y. */
  datatype Bars<T> = Bars(x: seq<string>, y: seq<T>)

  predicate Distinct<T(==)>(s: seq<T>)
  {
    forall i, j :: 0 <= i < j < |s| ==> s[i] != s[j]
  }

  /** `data.reduce((sum, camera) => sum + camera.image_storage_gb, 0)`: a left fold from 0. */
  function SumStorage(data: seq<Camera>): real
  {
    if |data| == 0 then 0.0 else SumStorage(data[..|data| - 1]) + data[|data| - 1].storageGb
  }

  /** `data.reduce((sum, camera) => sum + camera.incidents_captured, 0)`. */
  function SumIncidents(data: seq<Camera>): int
  {
    if |data| == 0 then 0 else SumIncidents(data[..|data| - 1]) + data[|data| - 1].incidents
  }

  /** Sum of a sequence of bar heights, left to right. */
  function SumReals(xs: seq<real>): real
  {
    if |xs| == 0 then 0.0 else SumReals(xs[..|xs| - 1]) + xs[|xs| - 1]
  }

  function SumInts(xs: seq<int>): int
  {
    if |xs| == 0 then 0 else SumInts(xs[..|xs| - 1]) + xs[|xs| - 1]
  }

  /** Both sums split over a concatenation. */
  lemma {:induction false} SumsAppend(a: seq<Camera>, b: seq<Camera>)
    ensures SumStorage(a + b) == SumStorage(a) + SumStorage(b)
    ensures SumIncidents(a + b) == SumIncidents(a) + SumIncidents(b)
  {
    if |b| > 0 {
      var b' := b[..|b| - 1];
      assert (a + b)[..|a + b| - 1] == a + b';
      SumsAppend(a, b');
    } else {
      assert a + b == a;
    }
  }

  lemma SumsSnoc(d: seq<Camera>, c: Camera)
    ensures SumStorage(d + [c]) == SumStorage(d) + c.storageGb
    ensures SumIncidents(d + [c]) == SumIncidents(d) + c.incidents
  {
    assert (d + [c])[..|d|] == d;
  }

  /** True when some record has model `k`. */
  predicate Occurs(data: seq<Camera>, k: string)
  {
    exists i :: 0 <= i < |data| && data[i].model == k
  }

  /** The records whose model is exactly `k`, in input order: the backend's
      `filter_by(model=k)` and one partition of the overview's grouping. */
  function OfModel(data: seq<Camera>, k: string): (r: seq<Camera>)
    ensures |r| <= |data|
  {
    if |data| == 0 then []
    else
      var rest := OfModel(data[..|data| - 1], k);
      var last := data[|data| - 1];
      if last.model == k then rest + [last] else rest
  }

  /** The filter keeps exactly the records of model `k`. */
  lemma {:induction false} OfModelMembers(data: seq<Camera>, k: string)
    ensures forall c :: c in OfModel(data, k) <==> c in data && c.model == k
  {
    if |data| > 0 {
      var p := data[..|data| - 1];
      var last := data[|data| - 1];
      assert data == p + [last];
      OfModelMembers(p, k);
    }
  }

  /** A model that no record has selects nothing. */
  lemma {:induction false} OfAbsentModel(data: seq<Camera>, k: string)
    requires !Occurs(data, k)
    ensures OfModel(data, k) == []
  {
    if |data| > 0 {
      var p := data[..|data| - 1];
      assert forall i :: 0 <= i < |p| ==> p[i] == data[i];
      OfAbsentModel(p, k);
      assert data[|data| - 1].model != k;
    }
  }
}
