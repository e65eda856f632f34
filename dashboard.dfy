/**
  The overview page's aggregation (static/js/main.js): the four headline statistics of
  `updateDashboard` and the per-model grouping that `updateStorageChart` and
  `updateIncidentsChart` build in a dictionary before handing its keys and values to
  the bar charts.
 */
module Dashboard {
  import opened CameraRecords
  import opened ObjectKeys
  import opened Partition

  datatype Stats = Stats(totalCameras: nat, totalStorage: real, totalIncidents: int, activeCameras: nat)

  /** `data.filter(camera => camera.status === 'active')`. */
  function ActiveOnly(data: seq<Camera>): (r: seq<Camera>)
    ensures |r| <= |data|
  {
    if |data| == 0 then []
    else
      var p := data[..|data| - 1];
      var last := data[|data| - 1];
      assert data == p + [last];
      if last.status == "active" then ActiveOnly(p) + [last] else ActiveOnly(p)
  }

  /** The filter keeps exactly the active records. */
  lemma {:induction false} ActiveOnlyMembers(data: seq<Camera>)
    ensures forall c :: c in ActiveOnly(data) <==> c in data && c.status == "active"
  {
    if |data| > 0 {
      var p := data[..|data| - 1];
      assert data == p + [data[|data| - 1]];
      ActiveOnlyMembers(p);
    }
  }

  /** The positions of the records whose status is exactly "active". */
  function ActiveIndices(data: seq<Camera>): set<nat>
  {
    set i: nat | i < |data| && data[i].status == "active"
  }

  /** The filtered list has one element per active record. */
  lemma {:induction false} ActiveCount(data: seq<Camera>)
    ensures |ActiveOnly(data)| == |ActiveIndices(data)|
  {
    if |data| == 0 {
      assert ActiveIndices(data) == {};
    } else {
      var n := |data| - 1;
      var p := data[..n];
      ActiveCount(p);
      assert data == p + [data[n]];
      assert forall i :: 0 <= i < n ==> data[i] == p[i];
      if data[n].status == "active" {
        assert ActiveIndices(data) == ActiveIndices(p) + {n};
        assert n !in ActiveIndices(p);
      } else {
        assert ActiveIndices(data) == ActiveIndices(p);
      }
    }
  }

  /** The statistics of `updateDashboard`. */
  function Summarize(data: seq<Camera>): (s: Stats)
    ensures s.totalCameras == |data|
    ensures s.totalStorage == SumStorage(data) && s.totalIncidents == SumIncidents(data)
    ensures s.activeCameras == |ActiveIndices(data)|
    ensures s.activeCameras <= s.totalCameras
    ensures data == [] ==> s == Stats(0, 0.0, 0, 0)
  {
    ActiveCount(data);
    Stats(|data|, SumStorage(data), SumIncidents(data), |ActiveOnly(data)|)
  }

  /** The position of the first record whose model is `k`. */
  function FirstIndex(data: seq<Camera>, k: string): (r: nat)
    requires Occurs(data, k)
    ensures r < |data| && data[r].model == k
    ensures forall i :: 0 <= i < r ==> data[i].model != k
  {
    var n := |data| - 1;
    var p := data[..n];
    if Occurs(p, k) then FirstIndex(p, k)
    else
      var i :| 0 <= i < |data| && data[i].model == k;
      assert i < n ==> p[i] == data[i];
      n
  }

  lemma FirstIndexExtends(p: seq<Camera>, c: Camera, k: string)
    requires Occurs(p, k)
    ensures Occurs(p + [c], k) && FirstIndex(p + [c], k) == FirstIndex(p, k)
  {
    var data := p + [c];
    assert data[..|data| - 1] == p;
    var i :| 0 <= i < |p| && p[i].model == k;
    assert data[i] == p[i];
  }

  /** The distinct model names, in the order in which each first appears (see
      FirstSeenOrder): the creation order of the grouping dictionary's keys. */
  function FirstSeen(data: seq<Camera>): (ks: seq<string>)
    ensures |ks| <= |data|
  {
    if |data| == 0 then []
    else
      var seen := FirstSeen(data[..|data| - 1]);
      var m := data[|data| - 1].model;
      if m in seen then seen else seen + [m]
  }

  /** The first-seen keys have no repeats, cover every record's model, and are all
      models of some record. */
  lemma {:induction false} FirstSeenFacts(data: seq<Camera>)
    ensures Distinct(FirstSeen(data))
    ensures forall i :: 0 <= i < |data| ==> data[i].model in FirstSeen(data)
    ensures forall k :: k in FirstSeen(data) ==> Occurs(data, k)
  {
    if |data| > 0 {
      var n := |data| - 1;
      var p := data[..n];
      var c := data[n];
      FirstSeenFacts(p);
      var seen := FirstSeen(p);
      assert forall k :: Occurs(p, k) ==> Occurs(data, k) by {
        forall k | Occurs(p, k) ensures Occurs(data, k) {
          var i :| 0 <= i < |p| && p[i].model == k;
          assert data[i] == p[i];
        }
      }
      assert forall i :: 0 <= i < n ==> data[i] == p[i];
      if c.model !in seen {
        assert Occurs(data, c.model) by { assert data[n].model == c.model; }
      }
    }
  }

  /** A model missing from the first-seen keys is no record's model. */
  lemma NotSeenNotOccurs(data: seq<Camera>, k: string)
    requires k !in FirstSeen(data)
    ensures !Occurs(data, k)
  {
    FirstSeenFacts(data);
  }

  /** A first-seen key is some record's model. */
  lemma SeenOccurs(data: seq<Camera>, k: string)
    requires k in FirstSeen(data)
    ensures Occurs(data, k)
  {
    FirstSeenFacts(data);
  }

  /** Model `a` first occurs before model `b`. */
  predicate OccursBefore(data: seq<Camera>, a: string, b: string)
  {
    Occurs(data, a) && Occurs(data, b) && FirstIndex(data, a) < FirstIndex(data, b)
  }

  /** Of two first-seen keys, the earlier one first occurs earlier. */
  lemma {:induction false} FirstSeenOrderAt(data: seq<Camera>, j: nat, j': nat)
    requires j < j' < |FirstSeen(data)|
    ensures OccursBefore(data, FirstSeen(data)[j], FirstSeen(data)[j'])
  {
    var n := |data| - 1;
    var p := data[..n];
    var c := data[n];
    assert data == p + [c];
    FirstSeenSnoc(p, c);
    var seen := FirstSeen(p);
    SeenOccurs(p, seen[j]);
    FirstIndexExtends(p, c, seen[j]);
    if j' < |seen| {
      FirstSeenOrderAt(p, j, j');
      FirstIndexExtends(p, c, seen[j']);
    } else {
      NewKeyIsLast(p, c);
    }
  }

  /** The keys are ordered by the position of their first occurrence. */
  lemma FirstSeenOrder(data: seq<Camera>)
    ensures forall j, j' :: 0 <= j < j' < |FirstSeen(data)| ==>
      OccursBefore(data, FirstSeen(data)[j], FirstSeen(data)[j'])
  {
    forall j, j' | 0 <= j < j' < |FirstSeen(data)| {
      FirstSeenOrderAt(data, j, j');
    }
  }

  lemma FirstSeenSnoc(p: seq<Camera>, c: Camera)
    ensures FirstSeen(p + [c]) == if c.model in FirstSeen(p) then FirstSeen(p) else FirstSeen(p) + [c.model]
  {
    assert (p + [c])[..|p|] == p;
  }

  /** A model first met at the last record has that record as its first index. */
  lemma NewKeyIsLast(p: seq<Camera>, c: Camera)
    requires c.model !in FirstSeen(p)
    ensures FirstSeen(p + [c]) == FirstSeen(p) + [c.model]
    ensures Occurs(p + [c], c.model) && FirstIndex(p + [c], c.model) == |p|
  {
    var data := p + [c];
    FirstSeenFacts(p);
    assert data[..|p|] == p;
    assert data[|p|] == c;
    assert !Occurs(p, c.model);
  }

  /** The categories on the x-axis of both overview charts: `Object.keys` of a dictionary
      whose keys were created in first-seen order. */
  function ModelKeys(data: seq<Camera>): seq<string>
  {
    OwnKeys(FirstSeen(data))
  }

  /** The chart categories are the distinct model names, each one some record's model,
      and every record's model among them. */
  lemma ModelKeysAreTheModels(data: seq<Camera>)
    ensures Distinct(ModelKeys(data))
    ensures forall i :: 0 <= i < |data| ==> data[i].model in ModelKeys(data)
    ensures forall k :: k in ModelKeys(data) ==> Occurs(data, k)
  {
    var seen := FirstSeen(data);
    var keys := ModelKeys(data);
    FirstSeenFacts(data);
    DistinctPermutation(seen, keys);
    forall k ensures k in keys <==> k in seen {
      assert k in keys <==> k in multiset(keys);
      assert k in seen <==> k in multiset(seen);
    }
  }

  /** When no model name looks like an array index, the categories are in first-seen
      order. */
  lemma ModelKeysInFirstSeenOrder(data: seq<Camera>)
    requires forall i :: 0 <= i < |data| ==> !IsArrayIndex(data[i].model)
    ensures ModelKeys(data) == FirstSeen(data)
  {
    var seen := FirstSeen(data);
    forall j | 0 <= j < |seen| ensures !IsArrayIndex(seen[j]) {
      SeenOccurs(data, seen[j]);
      var i :| 0 <= i < |data| && data[i].model == seen[j];
    }
    CreationOrderKept(seen);
  }

  /* ---- The partition of the totals by model ---- */

  function TotalsOf(data: seq<Camera>): Totals
  {
    Totals(SumStorage(data), SumIncidents(data))
  }

  /** Each model's share of the totals. */
  function ByModel(data: seq<Camera>): string -> Totals
  {
    k => TotalsOf(OfModel(data, k))
  }

  lemma OfModelSnoc(p: seq<Camera>, c: Camera, k: string)
    ensures OfModel(p + [c], k) == if c.model == k then OfModel(p, k) + [c] else OfModel(p, k)
  {
    assert (p + [c])[..|p|] == p;
  }

  lemma TotalsSnoc(d: seq<Camera>, c: Camera)
    ensures TotalsOf(d + [c]) == Plus(TotalsOf(d), Totals(c.storageGb, c.incidents))
  {
    assert (d + [c])[..|d|] == d;
  }

  /** Appending one record adds its totals to its own model's share and to no other. */
  lemma ByModelSnoc(p: seq<Camera>, c: Camera)
    ensures forall k :: (ByModel(p + [c])(k)
      == if k == c.model then Plus(ByModel(p)(k), Totals(c.storageGb, c.incidents)) else ByModel(p)(k))
  {
    forall k ensures ByModel(p + [c])(k)
      == if k == c.model then Plus(ByModel(p)(k), Totals(c.storageGb, c.incidents)) else ByModel(p)(k)
    {
      OfModelSnoc(p, c, k);
      if k == c.model {
        TotalsSnoc(OfModel(p, k), c);
      }
    }
  }

  /** Partition sum consistency: the per-model totals add up to the overall totals. */
  lemma {:induction false} PartitionTotals(data: seq<Camera>)
    ensures SumOver(ByModel(data), FirstSeen(data)) == TotalsOf(data)
  {
    if |data| > 0 {
      var n := |data| - 1;
      var p := data[..n];
      var c := data[n];
      assert data == p + [c];
      var seen := FirstSeen(p);
      var own := Totals(c.storageGb, c.incidents);
      FirstSeenFacts(p);
      PartitionTotals(p);
      ByModelSnoc(p, c);
      SumOverBump(ByModel(p), ByModel(data), seen, c.model, own);
      TotalsSnoc(p, c);
      if c.model !in seen {
        OfAbsentModelAfterSnoc(p, c);
        assert (seen + [c.model])[..|seen|] == seen;
      }
    }
  }

  /** The first record of its model is that model's whole partition so far. */
  lemma OfAbsentModelAfterSnoc(p: seq<Camera>, c: Camera)
    requires c.model !in FirstSeen(p)
    ensures ByModel(p + [c])(c.model) == Totals(c.storageGb, c.incidents)
  {
    NotSeenNotOccurs(p, c.model);
    OfAbsentModel(p, c.model);
    OfModelSnoc(p, c, c.model);
    TotalsSnoc([], c);
    assert [] + [c] == [c];
  }

  /** Bars whose heights are the per-model storage totals add up to those totals. */
  lemma {:induction false} StorageBarsSum(data: seq<Camera>, ks: seq<string>, ys: seq<real>)
    requires |ys| == |ks|
    requires forall j :: 0 <= j < |ks| ==> ys[j] == SumStorage(OfModel(data, ks[j]))
    ensures SumReals(ys) == SumOver(ByModel(data), ks).storage
  {
    if |ks| > 0 {
      StorageBarsSum(data, ks[..|ks| - 1], ys[..|ys| - 1]);
    }
  }

  lemma {:induction false} IncidentBarsSum(data: seq<Camera>, ks: seq<string>, ys: seq<int>)
    requires |ys| == |ks|
    requires forall j :: 0 <= j < |ks| ==> ys[j] == SumIncidents(OfModel(data, ks[j]))
    ensures SumInts(ys) == SumOver(ByModel(data), ks).incidents
  {
    if |ks| > 0 {
      IncidentBarsSum(data, ks[..|ks| - 1], ys[..|ys| - 1]);
    }
  }

  /** The chart's categories carry, between them, all of the overall totals. */
  lemma ModelKeysCarryTotals(data: seq<Camera>)
    ensures SumOver(ByModel(data), ModelKeys(data)) == TotalsOf(data)
  {
    PartitionTotals(data);
    SumOverPermutation(ByModel(data), FirstSeen(data), ModelKeys(data));
  }

  /* ---- The two chart builders ---- */

  lemma PrefixSnoc(data: seq<Camera>, i: nat)
    requires i < |data|
    ensures data[..i + 1] == data[..i] + [data[i]]
  {
  }

  /** One step of the storage grouping loop keeps each entry equal to its model's total. */
  lemma StorageStep(before: seq<Camera>, camera: Camera, acc: map<string, real>, acc': map<string, real>)
    requires forall k :: k in acc ==> acc[k] == SumStorage(OfModel(before, k))
    requires camera.model !in acc ==> OfModel(before, camera.model) == []
    requires acc'.Keys == acc.Keys + {camera.model}
    requires forall k :: k in acc && k != camera.model ==> acc'[k] == acc[k]
    requires acc'[camera.model] == (if camera.model in acc then acc[camera.model] else 0.0) + camera.storageGb
    ensures forall k :: k in acc' ==> acc'[k] == SumStorage(OfModel(before + [camera], k))
  {
    var m := camera.model;
    forall k | k in acc' && k != m ensures acc'[k] == SumStorage(OfModel(before + [camera], k)) {
      OfModelSnoc(before, camera, k);
    }
    OfModelSnoc(before, camera, m);
    SumsSnoc(OfModel(before, m), camera);
  }

  /** One step of the incidents grouping loop. */
  lemma IncidentsStep(before: seq<Camera>, camera: Camera, acc: map<string, int>, acc': map<string, int>)
    requires forall k :: k in acc ==> acc[k] == SumIncidents(OfModel(before, k))
    requires camera.model !in acc ==> OfModel(before, camera.model) == []
    requires acc'.Keys == acc.Keys + {camera.model}
    requires forall k :: k in acc && k != camera.model ==> acc'[k] == acc[k]
    requires acc'[camera.model] == (if camera.model in acc then acc[camera.model] else 0) + camera.incidents
    ensures forall k :: k in acc' ==> acc'[k] == SumIncidents(OfModel(before + [camera], k))
  {
    var m := camera.model;
    forall k | k in acc' && k != m ensures acc'[k] == SumIncidents(OfModel(before + [camera], k)) {
      OfModelSnoc(before, camera, k);
    }
    OfModelSnoc(before, camera, m);
    SumsSnoc(OfModel(before, m), camera);
  }

  /** The body of the `forEach`: `!dict[m]` holds for a missing key and for a stored 0,
      and either way the entry is (re)set to 0 before `+=` adds the amount. */
  method AddStorage(dict: map<string, real>, m: string, amount: real) returns (dict': map<string, real>, isNew: bool)
    ensures isNew <==> m !in dict
    ensures dict'.Keys == dict.Keys + {m}
    ensures forall k :: k in dict && k != m ==> dict'[k] == dict[k]
    ensures dict'[m] == (if m in dict then dict[m] else 0.0) + amount
  {
    dict' := dict;
    isNew := m !in dict';
    if m !in dict' || dict'[m] == 0.0 {
      dict' := dict'[m := 0.0];
    }
    dict' := dict'[m := dict'[m] + amount];
  }

  /** The grouping loop of `updateStorageChart`: the dictionary's keys, in the
      order they were created, and each model's running total. */
  method GroupStorage(data: seq<Camera>) returns (created: seq<string>, storageByModel: map<string, real>)
    requires forall i :: 0 <= i < |data| ==> !Inherited(data[i].model)
    ensures created == FirstSeen(data)
    ensures forall k :: k in storageByModel <==> k in created
    ensures forall k :: k in storageByModel ==> storageByModel[k] == SumStorage(OfModel(data, k))
  {
    created := [];
    storageByModel := map[];
    var i := 0;
    ghost var processed: seq<Camera> := [];
    while i < |data|
      invariant 0 <= i <= |data| && processed == data[..i]
      invariant created == FirstSeen(processed)
      invariant forall k :: k in storageByModel <==> k in created
      invariant forall k :: k in storageByModel ==> storageByModel[k] == SumStorage(OfModel(processed, k))
    {
      var camera := data[i];
      FirstSeenSnoc(processed, camera);
      if camera.model !in storageByModel {
        NotSeenNotOccurs(processed, camera.model);
        OfAbsentModel(processed, camera.model);
      }
      ghost var previous := storageByModel;
      var isNew;
      storageByModel, isNew := AddStorage(storageByModel, camera.model, camera.storageGb);
      if isNew {
        created := created + [camera.model];
      }
      StorageStep(processed, camera, previous, storageByModel);
      PrefixSnoc(data, i);
      processed := processed + [camera];
      i := i + 1;
    }
    assert data[..i] == data;
  }

  /** `updateStorageChart`: groups storage by model in a dictionary, then reads back
      `Object.keys` and `Object.values`. */
  method UpdateStorageChart(data: seq<Camera>) returns (chart: Bars<real>)
    requires forall i :: 0 <= i < |data| ==> !Inherited(data[i].model)
    ensures chart.x == ModelKeys(data)
    ensures |chart.y| == |chart.x|
    ensures forall j :: 0 <= j < |chart.x| ==> chart.y[j] == SumStorage(OfModel(data, chart.x[j]))
    ensures SumReals(chart.y) == SumStorage(data)
  {
    var created, storageByModel := GroupStorage(data);
    var models := OwnKeys(created);
    OwnKeysMembers(created);
    var values := seq(|models|, j requires 0 <= j < |models| => storageByModel[models[j]]);
    chart := Bars(models, values);
    StorageBarsSum(data, models, values);
    ModelKeysCarryTotals(data);
  }

  /** The body of the incidents `forEach`, over integer counts. */
  method AddIncidents(dict: map<string, int>, m: string, amount: int) returns (dict': map<string, int>, isNew: bool)
    ensures isNew <==> m !in dict
    ensures dict'.Keys == dict.Keys + {m}
    ensures forall k :: k in dict && k != m ==> dict'[k] == dict[k]
    ensures dict'[m] == (if m in dict then dict[m] else 0) + amount
  {
    dict' := dict;
    isNew := m !in dict';
    if m !in dict' || dict'[m] == 0 {
      dict' := dict'[m := 0];
    }
    dict' := dict'[m := dict'[m] + amount];
  }

  /** The grouping loop of `updateIncidentsChart`: the dictionary's keys, in the
      order they were created, and each model's running total. */
  method GroupIncidents(data: seq<Camera>) returns (created: seq<string>, incidentsByModel: map<string, int>)
    requires forall i :: 0 <= i < |data| ==> !Inherited(data[i].model)
    ensures created == FirstSeen(data)
    ensures forall k :: k in incidentsByModel <==> k in created
    ensures forall k :: k in incidentsByModel ==> incidentsByModel[k] == SumIncidents(OfModel(data, k))
  {
    created := [];
    incidentsByModel := map[];
    var i := 0;
    ghost var processed: seq<Camera> := [];
    while i < |data|
      invariant 0 <= i <= |data| && processed == data[..i]
      invariant created == FirstSeen(processed)
      invariant forall k :: k in incidentsByModel <==> k in created
      invariant forall k :: k in incidentsByModel ==> incidentsByModel[k] == SumIncidents(OfModel(processed, k))
    {
      var camera := data[i];
      FirstSeenSnoc(processed, camera);
      if camera.model !in incidentsByModel {
        NotSeenNotOccurs(processed, camera.model);
        OfAbsentModel(processed, camera.model);
      }
      ghost var previous := incidentsByModel;
      var isNew;
      incidentsByModel, isNew := AddIncidents(incidentsByModel, camera.model, camera.incidents);
      if isNew {
        created := created + [camera.model];
      }
      IncidentsStep(processed, camera, previous, incidentsByModel);
      PrefixSnoc(data, i);
      processed := processed + [camera];
      i := i + 1;
    }
    assert data[..i] == data;
  }

  /** `updateIncidentsChart`: the same grouping over the incident counts. */
  method UpdateIncidentsChart(data: seq<Camera>) returns (chart: Bars<int>)
    requires forall i :: 0 <= i < |data| ==> !Inherited(data[i].model)
    ensures chart.x == ModelKeys(data)
    ensures |chart.y| == |chart.x|
    ensures forall j :: 0 <= j < |chart.x| ==> chart.y[j] == SumIncidents(OfModel(data, chart.x[j]))
    ensures SumInts(chart.y) == SumIncidents(data)
  {
    var created, incidentsByModel := GroupIncidents(data);
    var models := OwnKeys(created);
    OwnKeysMembers(created);
    var values := seq(|models|, j requires 0 <= j < |models| => incidentsByModel[models[j]]);
    chart := Bars(models, values);
    IncidentBarsSum(data, models, values);
    ModelKeysCarryTotals(data);
  }

  /** `updateDashboard`: the statistics and both charts. The charts share their
      categories, and their bars add up to the totals shown above them. */
  method UpdateDashboard(data: seq<Camera>) returns (stats: Stats, storage: Bars<real>, incidents: Bars<int>)
    requires forall i :: 0 <= i < |data| ==> !Inherited(data[i].model)
    ensures stats == Summarize(data)
    ensures storage.x == incidents.x
    ensures |storage.y| == |storage.x| && |incidents.y| == |incidents.x|
    ensures SumReals(storage.y) == stats.totalStorage
    ensures SumInts(incidents.y) == stats.totalIncidents
  {
    stats := Summarize(data);
    storage := UpdateStorageChart(data);
    incidents := UpdateIncidentsChart(data);
  }

  /** The worked example: two cameras of model "X", one of them active. */
  const TwoCameras: seq<Camera> :=
    [Camera(1, "X", "A1", "2024-01-01", 2.5, 3, "active"),
     Camera(2, "X", "A2", "2024-01-02", 1.5, 1, "inactive")]

  /** Two cameras, 4 GB, 4 incidents, one active. */
  lemma TwoCamerasSummary()
    ensures Summarize(TwoCameras) == Stats(2, 4.0, 4, 1)
  {
    var data := TwoCameras;
    var first := data[..1];
    assert first == [data[0]];
    assert first[..0] == [];
    assert SumStorage(first) == SumStorage(first[..0]) + 2.5;
    assert SumIncidents(first) == SumIncidents(first[..0]) + 3;
    assert ActiveOnly(first) == [data[0]];
    assert ActiveOnly(data) == [data[0]];
  }

  /** One bar, for "X". */
  lemma TwoCamerasChartKeys()
    ensures ModelKeys(TwoCameras) == ["X"]
  {
    var data := TwoCameras;
    assert data[..1][..0] == [];
    assert FirstSeen(data[..1]) == ["X"];
    assert FirstSeen(data) == ["X"];
    assert !IsArrayIndex(data[0].model) && !IsArrayIndex(data[1].model);
    ModelKeysInFirstSeenOrder(data);
  }

  /** The bar for "X" carries all of the totals. */
  lemma TwoCamerasChartTotals()
    ensures TotalsOf(OfModel(TwoCameras, "X")) == Totals(4.0, 4)
  {
    var data := TwoCameras;
    var first := data[..1];
    assert first == [data[0]];
    assert first[..0] == [];
    assert SumStorage(first) == SumStorage(first[..0]) + 2.5;
    assert SumIncidents(first) == SumIncidents(first[..0]) + 3;
    assert OfModel(first, "X") == first;
    assert OfModel(data, "X") == data;
  }
}
