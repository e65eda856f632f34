/**
  The per-model page (static/js/camera_model.js): the model name read from the URL path,
  the three totals of `updateModelInfo` and the two per-camera bar series of
  `updateCharts`.
 */
module ModelPage {
  import opened CameraRecords

  /* ---- The model name in the path ---- */

  /** `s.split('/')`: the pieces between the slashes, in order; always at least one. */
  function Split(s: string): (parts: seq<string>)
    ensures |parts| >= 1
  {
    if |s| == 0 then [""]
    else
      var init := Split(s[..|s| - 1]);
      var c := s[|s| - 1];
      if c == '/' then init + [""]
      else init[..|init| - 1] + [init[|init| - 1] + [c]]
  }

  /** `parts.join('/')`. */
  function Join(parts: seq<string>): string
    requires |parts| >= 1
  {
    if |parts| == 1 then parts[0] else Join(parts[..|parts| - 1]) + "/" + parts[|parts| - 1]
  }

  /** Joining the pieces with '/' gives back the string that was split. */
  lemma {:induction false} SplitJoin(s: string)
    ensures Join(Split(s)) == s
  {
    if |s| > 0 {
      var p := s[..|s| - 1];
      var c := s[|s| - 1];
      SplitJoin(p);
      assert s == p + [c];
      var init := Split(p);
      if c != '/' {
        var parts := Split(s);
        var last := init[|init| - 1];
        assert parts[..|parts| - 1] == init[..|init| - 1];
        if |init| == 1 {
          assert Join(init) == last;
        } else {
          assert init == init[..|init| - 1] + [last];
          assert Join(init) == Join(init[..|init| - 1]) + "/" + last;
        }
      }
    }
  }

  /** No piece contains a slash. */
  lemma {:induction false} SplitPiecesHaveNoSlash(s: string)
    ensures forall j :: 0 <= j < |Split(s)| ==> '/' !in Split(s)[j]
  {
    if |s| > 0 {
      SplitPiecesHaveNoSlash(s[..|s| - 1]);
    }
  }

  /** `window.location.pathname.split('/').pop()`. */
  function ModelFromPath(path: string): (name: string)
    ensures '/' !in name
  {
    var parts := Split(path);
    SplitPiecesHaveNoSlash(path);
    parts[|parts| - 1]
  }

  /** The name is the part of the path after its last '/': a suffix with no '/' in it,
      preceded by '/' unless it is the whole path. */
  lemma {:induction false} ModelFromPathIsLastSegment(path: string)
    ensures var name := ModelFromPath(path);
      && |name| <= |path|
      && path[|path| - |name|..] == name
      && '/' !in name
      && (|name| < |path| ==> path[|path| - |name| - 1] == '/')
  {
    SplitPiecesHaveNoSlash(path);
    if |path| > 0 {
      var p := path[..|path| - 1];
      var c := path[|path| - 1];
      ModelFromPathIsLastSegment(p);
      if c != '/' {
        var before := ModelFromPath(p);
        assert ModelFromPath(path) == before + [c];
        assert path == p + [c];
        assert path[|path| - |before| - 1..] == p[|p| - |before|..] + [c];
      }
    }
  }

  /** A suffix with no '/' that starts the string or follows a '/' is exactly the name
      read from the path. */
  lemma LastSegmentUnique(path: string, name: string)
    requires |name| <= |path| && path[|path| - |name|..] == name && '/' !in name
    requires |name| < |path| ==> path[|path| - |name| - 1] == '/'
    ensures ModelFromPath(path) == name
  {
    ModelFromPathIsLastSegment(path);
  }

  /** The page of model `m` ("/camera/" + m) reads back `m`, whenever `m` has no '/'. */
  lemma ModelPathRoundTrip(m: string)
    requires '/' !in m
    ensures ModelFromPath("/camera/" + m) == m
  {
    var path := "/camera/" + m;
    assert path[|path| - |m|..] == m;
    assert path[|path| - |m| - 1] == '/';
    LastSegmentUnique(path, m);
  }

  /** A path that ends with '/' names the empty model. */
  lemma TrailingSlashGivesEmpty(path: string)
    requires |path| > 0 && path[|path| - 1] == '/'
    ensures ModelFromPath(path) == ""
  {
    assert path == path[..|path| - 1] + ['/'];
  }

  /* ---- Totals and charts ---- */

  datatype ModelInfo = ModelInfo(totalInstalled: nat, totalStorage: real, totalIncidents: int)

  /** `updateModelInfo`: the count, the storage sum and the incident sum. */
  function UpdateModelInfo(data: seq<Camera>): (info: ModelInfo)
    ensures info.totalInstalled == |data|
    ensures data == [] ==> info == ModelInfo(0, 0.0, 0)
  {
    ModelInfo(|data|, SumStorage(data), SumIncidents(data))
  }

  /** Two Plotly traces over the same cameras. */
  datatype ModelCharts = ModelCharts(incidents: Bars<int>, storage: Bars<real>)

  /** `data.map(camera => camera.serial_number)`. */
  function Serials(data: seq<Camera>): (xs: seq<string>)
    ensures |xs| == |data|
    ensures forall i :: 0 <= i < |data| ==> xs[i] == data[i].serialNumber
  {
    seq(|data|, i requires 0 <= i < |data| => data[i].serialNumber)
  }

  /** `updateCharts`: serial numbers against incidents and against storage, one bar per
      camera, in the order the cameras were fetched. */
  function UpdateCharts(data: seq<Camera>): (charts: ModelCharts)
    ensures charts.incidents.x == charts.storage.x == Serials(data)
    ensures |charts.incidents.y| == |data| && |charts.storage.y| == |data|
    ensures forall i :: 0 <= i < |data| ==> charts.incidents.y[i] == data[i].incidents
    ensures forall i :: 0 <= i < |data| ==> charts.storage.y[i] == data[i].storageGb
  {
    var ids := Serials(data);
    ModelCharts(
      Bars(ids, seq(|data|, i requires 0 <= i < |data| => data[i].incidents)),
      Bars(ids, seq(|data|, i requires 0 <= i < |data| => data[i].storageGb)))
  }

  /** The bars of each chart add up to the total shown beside it. */
  lemma {:induction false} ChartsMatchInfo(data: seq<Camera>)
    ensures SumInts(UpdateCharts(data).incidents.y) == UpdateModelInfo(data).totalIncidents
    ensures SumReals(UpdateCharts(data).storage.y) == UpdateModelInfo(data).totalStorage
  {
    if |data| > 0 {
      var p := data[..|data| - 1];
      ChartsMatchInfo(p);
      var c := UpdateCharts(data);
      var cp := UpdateCharts(p);
      assert c.incidents.y[..|data| - 1] == cp.incidents.y;
      assert c.storage.y[..|data| - 1] == cp.storage.y;
    }
  }
}
