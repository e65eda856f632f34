/**
  The backend's two tables and the five routes that change them (app.py): `create_model`,
  `create_camera`, `delete_model`, `delete_camera` and `feed_camera`. The database is two
  sequences of rows in ascending id order; each route is a method of `Store`, specified
  by a function from the tables before to the response and the tables after.
 */
module CameraStore {
  import opened CameraRecords
  import opened Sequences

  datatype Location = Location(x: real, y: real)

  /** A row of the `camera` table. The routes that insert cameras never set the location. */
  datatype CameraRow = CameraRow(
    id: int,
    model: string,
    serialNumber: string,
    installationDate: string,
    location: Option<Location>,
    storageGb: real,
    incidents: int,
    status: string)

  /** A row of the `camera_model` table. */
  datatype ModelRow = ModelRow(id: int, name: string, description: string, imagePath: string, createdAt: string)

  datatype Tables = Tables(cameras: seq<CameraRow>, models: seq<ModelRow>)

  /** A request value after its conversion (`float`, `int`, `datetime.fromisoformat`):
      absent, present but not convertible, or converted. */
  datatype Field<T> = Missing | Invalid | Given(value: T)

  /** The failures a route can answer with: 400 (no image), 404 (`get_or_404`) and 500.
      A missing form or JSON key and a failed conversion or constraint raise inside the
      route, which the server turns into a 500. */
  datatype HttpError = ImageRequired | NotFound | ServerError

  datatype Response =
    | ModelCreated(id: int, name: string, description: string, imagePath: string)
    | CameraCreated(id: int, model: string, serialNumber: string)
    | Deleted
    | Fed(newGb: real, newOcorr: int)
    | Failed(error: HttpError)

  datatype Outcome = Outcome(response: Response, after: Tables)

  /** The multipart form of `create_model`: whether a named image file came with it, and
      its text fields. */
  datatype ModelForm = ModelForm(
    hasImage: bool,
    name: Option<string>,
    description: Option<string>,
    serialNumber: Option<string>,
    installationDate: Field<string>,
    imageStorage: Field<real>,
    incidentsCaptured: Field<int>)

  /** The JSON body of `create_camera`. */
  datatype CameraBody = CameraBody(
    model: Option<string>,
    serialNumber: Option<string>,
    installationDate: Field<string>,
    imageStorage: Field<real>,
    incidentsCaptured: Field<int>)

  /* ---- Table invariants ---- */

  /** Ids are positive and ascending (so unique); serial numbers are unique. */
  predicate CamerasValid(cams: seq<CameraRow>)
  {
    && (forall i :: 0 <= i < |cams| ==> cams[i].id >= 1)
    && (forall i, j :: 0 <= i < j < |cams| ==> cams[i].id < cams[j].id)
    && (forall i, j :: 0 <= i < j < |cams| ==> cams[i].serialNumber != cams[j].serialNumber)
  }

  /** Ids are positive and ascending (so unique); model names are unique. */
  predicate ModelsValid(ms: seq<ModelRow>)
  {
    && (forall i :: 0 <= i < |ms| ==> ms[i].id >= 1)
    && (forall i, j :: 0 <= i < j < |ms| ==> ms[i].id < ms[j].id)
    && (forall i, j :: 0 <= i < j < |ms| ==> ms[i].name != ms[j].name)
  }

  predicate Valid(t: Tables)
  {
    CamerasValid(t.cameras) && ModelsValid(t.models)
  }

  /* ---- Lookups ---- */

  /** The first position whose row satisfies `hit`: `get_or_404` and the unique checks. */
  function Find<R>(rows: seq<R>, hit: R -> bool): (r: Option<nat>)
    ensures r.Some? ==> r.value < |rows| && hit(rows[r.value])
    ensures r.None? <==> forall j :: 0 <= j < |rows| ==> !hit(rows[j])
    ensures r.Some? ==> forall j :: 0 <= j < r.value ==> !hit(rows[j])
  {
    if |rows| == 0 then None
    else if hit(rows[0]) then Some(0)
    else match Find(rows[1..], hit)
      case None => None
      case Some(k) => Some(k + 1)
  }

  function CameraWithId(id: int): CameraRow -> bool
  {
    (r: CameraRow) => r.id == id
  }

  function ModelWithId(id: int): ModelRow -> bool
  {
    (r: ModelRow) => r.id == id
  }

  function CameraWithSerial(serial: string): CameraRow -> bool
  {
    (r: CameraRow) => r.serialNumber == serial
  }

  function ModelNamed(name: string): ModelRow -> bool
  {
    (r: ModelRow) => r.name == name
  }

  function CameraOtherThan(id: int): CameraRow -> bool
  {
    (r: CameraRow) => r.id != id
  }

  function ModelOtherThan(id: int): ModelRow -> bool
  {
    (r: ModelRow) => r.id != id
  }

  /** The rows that `Camera.query.filter_by(model=name).delete()` leaves. */
  function CameraNotOf(name: string): CameraRow -> bool
  {
    (r: CameraRow) => r.model != name
  }

  function CameraOf(name: string): CameraRow -> bool
  {
    (r: CameraRow) => r.model == name
  }

  /** The id SQLite gives a new row: one more than the largest id, or 1 in an empty table
      (for the non-negative ids the tables hold). */
  function NextId<R>(rows: seq<R>, key: R -> int): (id: int)
    ensures id >= 1
    ensures forall i :: 0 <= i < |rows| ==> key(rows[i]) < id
    ensures |rows| == 0 ==> id == 1
    ensures |rows| > 0 && (forall i :: 0 <= i < |rows| ==> key(rows[i]) >= 0) ==>
      exists i :: 0 <= i < |rows| && id == key(rows[i]) + 1
  {
    if |rows| == 0 then 1
    else
      var before := NextId(rows[..|rows| - 1], key);
      var last := key(rows[|rows| - 1]) + 1;
      assert forall i :: 0 <= i < |rows| - 1 ==> rows[..|rows| - 1][i] == rows[i];
      if before < last then last else before
  }

  function CameraId(r: CameraRow): int
  {
    r.id
  }

  function ModelId(r: ModelRow): int
  {
    r.id
  }

  /** The amount a feed value adds: a missing key counts as 0. */
  function GbDelta(f: Field<real>): (d: real)
    requires !f.Invalid?
    ensures f.Missing? ==> d == 0.0
    ensures f.Given? ==> d == f.value
  {
    if f.Given? then f.value else 0.0
  }

  function CountDelta(f: Field<int>): (d: int)
    requires !f.Invalid?
    ensures f.Missing? ==> d == 0
    ensures f.Given? ==> d == f.value
  {
    if f.Given? then f.value else 0
  }

  /* ---- The routes, as functions of the tables ---- */

  /** The row after `+=` on its two counters. */
  function FedRow(was: CameraRow, gb: Field<real>, ocorr: Field<int>): (now: CameraRow)
    requires !gb.Invalid? && !ocorr.Invalid?
    ensures now.storageGb == was.storageGb + GbDelta(gb)
    ensures now.incidents == was.incidents + CountDelta(ocorr)
    ensures now.(storageGb := was.storageGb, incidents := was.incidents) == was
  {
    was.(storageGb := was.storageGb + GbDelta(gb), incidents := was.incidents + CountDelta(ocorr))
  }

  /** Replacing a row by one with the same id and serial number keeps the table valid, and
      that row is the only one with its id. */
  lemma UpdateRowValid(cams: seq<CameraRow>, i: nat, now: CameraRow)
    requires CamerasValid(cams) && i < |cams|
    requires now.id == cams[i].id && now.serialNumber == cams[i].serialNumber
    ensures CamerasValid(cams[i := now])
    ensures forall j :: 0 <= j < |cams| && j != i ==> cams[i := now][j] == cams[j] && cams[j].id != now.id
  {
  }

  /** `feed_camera`: 404 for an unknown id; a 500 for a value that does not convert; else
      the camera's storage grows by `gb` and its incident count by `ocorr`. */
  function Feed(t: Tables, id: int, gb: Field<real>, ocorr: Field<int>): (o: Outcome)
    requires Valid(t)
    ensures Valid(o.after)
    ensures o.response == Failed(NotFound) <==> forall j :: 0 <= j < |t.cameras| ==> t.cameras[j].id != id
    ensures o.response.Failed? ==> o.after == t
    ensures o.response == Failed(NotFound) || o.response == Failed(ServerError) || o.response.Fed?
    ensures o.response == Failed(ServerError) <==> (exists j :: 0 <= j < |t.cameras| && t.cameras[j].id == id) && (gb.Invalid? || ocorr.Invalid?)
    ensures o.after.models == t.models && |o.after.cameras| == |t.cameras|
    ensures forall j :: 0 <= j < |t.cameras| && t.cameras[j].id != id ==> o.after.cameras[j] == t.cameras[j]
    ensures forall j :: 0 <= j < |t.cameras| && t.cameras[j].id == id && o.response.Fed? ==>
      var was, now := t.cameras[j], o.after.cameras[j];
      && now.storageGb == was.storageGb + GbDelta(gb)
      && now.incidents == was.incidents + CountDelta(ocorr)
      && now.(storageGb := was.storageGb, incidents := was.incidents) == was
      && o.response == Fed(now.storageGb, now.incidents)
  {
    match Find(t.cameras, CameraWithId(id))
    case None => Outcome(Failed(NotFound), t)
    case Some(i) =>
      if gb.Invalid? || ocorr.Invalid? then Outcome(Failed(ServerError), t)
      else
        var now := FedRow(t.cameras[i], gb, ocorr);
        var cams := t.cameras[i := now];
        UpdateRowValid(t.cameras, i, now);
        Outcome(Fed(now.storageGb, now.incidents), Tables(cams, t.models))
  }

  /** `delete_camera`: 404 for an unknown id; else exactly the camera with that id goes,
      and the others keep their order. */
  function RemoveCamera(t: Tables, id: int): (o: Outcome)
    requires Valid(t)
    ensures Valid(o.after)
    ensures o.response == Failed(NotFound) || o.response == Deleted
    ensures o.response == Failed(NotFound) <==> forall j :: 0 <= j < |t.cameras| ==> t.cameras[j].id != id
    ensures o.response.Failed? ==> o.after == t
    ensures o.response == Deleted ==>
      && o.after.models == t.models
      && o.after.cameras == Keep(CameraOtherThan(id), t.cameras)
      && |o.after.cameras| == |t.cameras| - 1
  {
    match Find(t.cameras, CameraWithId(id))
    case None => Outcome(Failed(NotFound), t)
    case Some(i) =>
      var cams := t.cameras[..i] + t.cameras[i + 1..];
      RemoveAtIsKeep(CameraOtherThan(id), t.cameras, i);
      SublistValid(t.cameras, i);
      Outcome(Deleted, Tables(cams, t.models))
  }

  /** Dropping one row keeps the camera table valid. */
  lemma SublistValid(cams: seq<CameraRow>, i: nat)
    requires CamerasValid(cams) && i < |cams|
    ensures CamerasValid(cams[..i] + cams[i + 1..])
  {
    var r := cams[..i] + cams[i + 1..];
    assert forall a :: 0 <= a < |r| ==> r[a] == cams[if a < i then a else a + 1];
  }

  /** `delete_model`: 404 for an unknown id; else the model goes, and with it exactly the
      cameras whose `model` is its name. */
  function RemoveModel(t: Tables, id: int): (o: Outcome)
    requires Valid(t)
    ensures Valid(o.after)
    ensures o.response == Failed(NotFound) || o.response == Deleted
    ensures o.response == Failed(NotFound) <==> forall j :: 0 <= j < |t.models| ==> t.models[j].id != id
    ensures o.response.Failed? ==> o.after == t
    ensures o.response == Deleted ==>
      && o.after.models == Keep(ModelOtherThan(id), t.models)
      && |o.after.models| == |t.models| - 1
      && forall j :: 0 <= j < |t.models| && t.models[j].id == id ==>
           o.after.cameras == Keep(CameraNotOf(t.models[j].name), t.cameras)
  {
    match Find(t.models, ModelWithId(id))
    case None => Outcome(Failed(NotFound), t)
    case Some(i) =>
      var name := t.models[i].name;
      var ms := t.models[..i] + t.models[i + 1..];
      RemoveAtIsKeep(ModelOtherThan(id), t.models, i);
      ModelSublistValid(t.models, i);
      KeptCamerasValid(t.cameras, CameraNotOf(name));
      Outcome(Deleted, Tables(Keep(CameraNotOf(name), t.cameras), ms))
  }

  lemma ModelSublistValid(ms: seq<ModelRow>, i: nat)
    requires ModelsValid(ms) && i < |ms|
    ensures ModelsValid(ms[..i] + ms[i + 1..])
  {
    var r := ms[..i] + ms[i + 1..];
    assert forall a :: 0 <= a < |r| ==> r[a] == ms[if a < i then a else a + 1];
  }

  /** Keeping some of the cameras, in order, keeps the table valid. */
  lemma {:induction false} KeptCamerasValid(cams: seq<CameraRow>, p: CameraRow -> bool)
    requires CamerasValid(cams)
    ensures CamerasValid(Keep(p, cams))
  {
    if |cams| > 0 {
      var init := cams[..|cams| - 1];
      var last := cams[|cams| - 1];
      assert CamerasValid(init);
      KeptCamerasValid(init, p);
      if p(last) {
        var k := Keep(p, init);
        KeepMembers(p, init);
        forall a | 0 <= a < |k| ensures k[a].id < last.id && k[a].serialNumber != last.serialNumber {
          assert k[a] in init;
          var b :| 0 <= b < |init| && init[b] == k[a];
          assert cams[b] == k[a];
        }
      }
    }
  }

  /** `create_camera`: a 500 for a missing or unconvertible field or a serial number already
      in use; else one new active camera, with a fresh id and no location, at the end. */
  function InsertCamera(t: Tables, body: CameraBody): (o: Outcome)
    requires Valid(t)
    ensures Valid(o.after)
    ensures o.response.Failed? || o.response.CameraCreated?
    ensures o.response.Failed? ==> o.response.error == ServerError && o.after == t
    ensures o.response.CameraCreated? <==>
      && body.model.Some? && body.serialNumber.Some? && body.installationDate.Given?
      && body.imageStorage.Given? && body.incidentsCaptured.Given?
      && forall j :: 0 <= j < |t.cameras| ==> t.cameras[j].serialNumber != body.serialNumber.value
    ensures o.response.CameraCreated? ==>
      && o.after.models == t.models
      && |o.after.cameras| == |t.cameras| + 1
      && o.after.cameras[..|t.cameras|] == t.cameras
      && var c := o.after.cameras[|t.cameras|];
         && c == CameraRow(c.id, body.model.value, body.serialNumber.value, body.installationDate.value,
                           None, body.imageStorage.value, body.incidentsCaptured.value, "active")
         && (forall j :: 0 <= j < |t.cameras| ==> t.cameras[j].id < c.id)
         && o.response == CameraCreated(c.id, c.model, c.serialNumber)
  {
    if body.model.None? || body.serialNumber.None? || !body.installationDate.Given?
      || !body.imageStorage.Given? || !body.incidentsCaptured.Given?
    then Outcome(Failed(ServerError), t)
    else if Find(t.cameras, CameraWithSerial(body.serialNumber.value)).Some?
    then Outcome(Failed(ServerError), t)
    else
      var c := CameraRow(NextId(t.cameras, CameraId), body.model.value, body.serialNumber.value,
                         body.installationDate.value, None, body.imageStorage.value,
                         body.incidentsCaptured.value, "active");
      AppendCameraValid(t.cameras, c);
      Outcome(CameraCreated(c.id, c.model, c.serialNumber), Tables(t.cameras + [c], t.models))
  }

  lemma AppendCameraValid(cams: seq<CameraRow>, c: CameraRow)
    requires CamerasValid(cams)
    requires c.id >= 1 && forall j :: 0 <= j < |cams| ==> cams[j].id < c.id && cams[j].serialNumber != c.serialNumber
    ensures CamerasValid(cams + [c])
  {
    var r := cams + [c];
    assert forall a :: 0 <= a < |cams| ==> r[a] == cams[a];
  }

  lemma AppendModelValid(ms: seq<ModelRow>, m: ModelRow)
    requires ModelsValid(ms)
    requires m.id >= 1 && forall j :: 0 <= j < |ms| ==> ms[j].id < m.id && ms[j].name != m.name
    ensures ModelsValid(ms + [m])
  {
    var r := ms + [m];
    assert forall a :: 0 <= a < |ms| ==> r[a] == ms[a];
  }

  /** The first camera of a new model, from the model form. */
  function FirstCamera(t: Tables, name: string, f: ModelForm): (r: Option<CameraRow>)
    ensures r.Some? <==> f.serialNumber.Some? && f.installationDate.Given? && f.imageStorage.Given? && f.incidentsCaptured.Given?
  {
    if f.serialNumber.None? || !f.installationDate.Given? || !f.imageStorage.Given? || !f.incidentsCaptured.Given?
    then None
    else Some(CameraRow(NextId(t.cameras, CameraId), name, f.serialNumber.value, f.installationDate.value,
                        None, f.imageStorage.value, f.incidentsCaptured.value, "active"))
  }

  /** All the fields the model itself needs, and a name not yet taken. */
  predicate ModelAccepted(t: Tables, f: ModelForm)
  {
    && f.hasImage && f.name.Some? && f.description.Some?
    && forall j :: 0 <= j < |t.models| ==> t.models[j].name != f.name.value
  }

  /** All the fields the first camera needs, and a serial number not yet taken. */
  predicate CameraAccepted(t: Tables, f: ModelForm)
  {
    && f.serialNumber.Some? && f.installationDate.Given? && f.imageStorage.Given? && f.incidentsCaptured.Given?
    && forall j :: 0 <= j < |t.cameras| ==> t.cameras[j].serialNumber != f.serialNumber.value
  }

  /** `create_model`: 400 without an image; a 500 for a missing field of the model or a
      name already taken, with nothing added; the model is committed before its first
      camera is built, so a 500 from the camera's fields or serial number leaves the
      model added and no camera. `stamp` is the upload time as the file name shows it,
      `now` the creation time. */
  function InsertModel(t: Tables, f: ModelForm, stamp: string, now: string): (o: Outcome)
    requires Valid(t)
    ensures Valid(o.after)
    ensures o.response.Failed? || o.response.ModelCreated?
    ensures !f.hasImage ==> o == Outcome(Failed(ImageRequired), t)
    ensures f.hasImage && !ModelAccepted(t, f) ==> o == Outcome(Failed(ServerError), t)
    ensures ModelAccepted(t, f) ==>
      && |o.after.models| == |t.models| + 1
      && o.after.models[..|t.models|] == t.models
      && var m := o.after.models[|t.models|];
         && m == ModelRow(m.id, f.name.value, f.description.value, f.name.value + "_" + stamp + ".jpg", now)
         && (forall j :: 0 <= j < |t.models| ==> t.models[j].id < m.id)
         && (o.response.ModelCreated? <==> CameraAccepted(t, f))
         && (o.response.ModelCreated? ==> o.response == ModelCreated(m.id, m.name, m.description, m.imagePath))
         && (o.response.Failed? ==> o.response.error == ServerError && o.after.cameras == t.cameras)
    ensures o.response.ModelCreated? ==>
      && |o.after.cameras| == |t.cameras| + 1
      && o.after.cameras[..|t.cameras|] == t.cameras
      && var c := o.after.cameras[|t.cameras|];
         && c == CameraRow(c.id, f.name.value, f.serialNumber.value, f.installationDate.value,
                           None, f.imageStorage.value, f.incidentsCaptured.value, "active")
         && (forall j :: 0 <= j < |t.cameras| ==> t.cameras[j].id < c.id)
  {
    if !f.hasImage then Outcome(Failed(ImageRequired), t)
    else if f.name.None? || f.description.None? then Outcome(Failed(ServerError), t)
    else if Find(t.models, ModelNamed(f.name.value)).Some? then Outcome(Failed(ServerError), t)
    else
      var name := f.name.value;
      var m := ModelRow(NextId(t.models, ModelId), name, f.description.value, name + "_" + stamp + ".jpg", now);
      AppendModelValid(t.models, m);
      var withModel := Tables(t.cameras, t.models + [m]);
      match FirstCamera(t, name, f)
      case None => Outcome(Failed(ServerError), withModel)
      case Some(c) =>
        if Find(t.cameras, CameraWithSerial(c.serialNumber)).Some? then Outcome(Failed(ServerError), withModel)
        else
          AppendCameraValid(t.cameras, c);
          Outcome(ModelCreated(m.id, m.name, m.description, m.imagePath), Tables(t.cameras + [c], t.models + [m]))
  }

  /* ---- The read routes that list cameras ---- */

  /** One row as `get_all_cameras` serialises it (the location is not part of this model). */
  function ApiCamera(r: CameraRow): (c: Camera)
    ensures c.id == r.id && c.model == r.model && c.serialNumber == r.serialNumber
    ensures c.storageGb == r.storageGb && c.incidents == r.incidents && c.status == r.status
  {
    Camera(r.id, r.model, r.serialNumber, r.installationDate, r.storageGb, r.incidents, r.status)
  }

  /** `get_all_cameras`: every row, in table order. */
  function ApiCameras(rows: seq<CameraRow>): (data: seq<Camera>)
    ensures |data| == |rows|
    ensures forall i :: 0 <= i < |rows| ==> data[i] == ApiCamera(rows[i])
  {
    if |rows| == 0 then [] else ApiCameras(rows[..|rows| - 1]) + [ApiCamera(rows[|rows| - 1])]
  }

  /** `get_cameras_by_model`: the rows whose model is `name`, in table order. */
  function ApiCamerasOfModel(rows: seq<CameraRow>, name: string): (data: seq<Camera>)
    ensures |data| <= |rows|
    ensures forall i :: 0 <= i < |data| ==> data[i].model == name
  {
    var kept := Keep(CameraOf(name), rows);
    KeepMembers(CameraOf(name), rows);
    assert forall i :: 0 <= i < |kept| ==> kept[i] in kept;
    ApiCameras(kept)
  }

  /** Filtering the rows by model and then serialising them is filtering the serialised
      records by model: `get_cameras_by_model` answers exactly its part of the overview's list. */
  lemma {:induction false} ApiByModel(rows: seq<CameraRow>, name: string)
    ensures ApiCamerasOfModel(rows, name) == OfModel(ApiCameras(rows), name)
  {
    if |rows| > 0 {
      var init := rows[..|rows| - 1];
      var last := rows[|rows| - 1];
      ApiByModel(init, name);
      assert rows == init + [last];
      KeepSnoc(CameraOf(name), init, last);
      assert ApiCameras(rows)[..|init|] == ApiCameras(init);
      if last.model == name {
        var k := Keep(CameraOf(name), init);
        assert (k + [last])[..|k|] == k;
      }
    }
  }

  /** After a model is deleted, `get_cameras_by_model` answers no camera for its name and
      answers what it did for every other name. */
  lemma DeleteModelCascade(t: Tables, id: int, j: nat, other: string)
    requires Valid(t) && j < |t.models| && t.models[j].id == id && other != t.models[j].name
    ensures RemoveModel(t, id).response == Deleted
    ensures ApiCamerasOfModel(RemoveModel(t, id).after.cameras, t.models[j].name) == []
    ensures ApiCamerasOfModel(RemoveModel(t, id).after.cameras, other) == ApiCamerasOfModel(t.cameras, other)
  {
    var name := t.models[j].name;
    var kept := RemoveModel(t, id).after.cameras;
    assert kept == Keep(CameraNotOf(name), t.cameras);
    KeepMembers(CameraNotOf(name), t.cameras);
    assert forall i :: 0 <= i < |kept| ==> kept[i] in kept;
    KeepNone(CameraOf(name), kept);
    KeepOfKeep(t.cameras, name, other);
  }

  /** Dropping the cameras of `name` does not change which cameras are of `other`. */
  lemma {:induction false} KeepOfKeep(rows: seq<CameraRow>, name: string, other: string)
    requires other != name
    ensures Keep(CameraOf(other), Keep(CameraNotOf(name), rows)) == Keep(CameraOf(other), rows)
  {
    if |rows| > 0 {
      var init := rows[..|rows| - 1];
      var last := rows[|rows| - 1];
      KeepOfKeep(init, name, other);
      assert rows == init + [last];
      KeepSnoc(CameraNotOf(name), init, last);
      KeepSnoc(CameraOf(other), init, last);
      KeepSnoc(CameraOf(other), Keep(CameraNotOf(name), init), last);
    }
  }

  /* ---- The store ---- */

  /** The database behind the routes. */
  class Store {
    var cameras: seq<CameraRow>
    var models: seq<ModelRow>

    function State(): Tables
      reads this
    {
      Tables(cameras, models)
    }

    predicate Ok()
      reads this
    {
      Valid(State())
    }

    constructor ()
      ensures Ok() && State() == Tables([], [])
    {
      cameras := [];
      models := [];
    }

    /** `feed_camera`: the two counters of one row are bumped in place. */
    method FeedCamera(id: int, gb: Field<real>, ocorr: Field<int>) returns (response: Response)
      requires Ok()
      modifies this
      ensures Outcome(response, State()) == Feed(old(State()), id, gb, ocorr)
      ensures Ok()
    {
      var found := Find(cameras, CameraWithId(id));
      if found.None? {
        return Failed(NotFound);
      }
      if gb.Invalid? || ocorr.Invalid? {
        return Failed(ServerError);
      }
      var i := found.value;
      var camera := FedRow(cameras[i], gb, ocorr);
      cameras := cameras[i := camera];
      response := Fed(camera.storageGb, camera.incidents);
    }

    /** `delete_camera`. */
    method DeleteCamera(id: int) returns (response: Response)
      requires Ok()
      modifies this
      ensures Outcome(response, State()) == RemoveCamera(old(State()), id)
      ensures Ok()
    {
      var found := Find(cameras, CameraWithId(id));
      if found.None? {
        return Failed(NotFound);
      }
      var i := found.value;
      cameras := cameras[..i] + cameras[i + 1..];
      response := Deleted;
    }

    /** `delete_model`: the bulk delete of the model's cameras, then the model. */
    method DeleteModel(id: int) returns (response: Response)
      requires Ok()
      modifies this
      ensures Outcome(response, State()) == RemoveModel(old(State()), id)
      ensures Ok()
    {
      var found := Find(models, ModelWithId(id));
      if found.None? {
        return Failed(NotFound);
      }
      var i := found.value;
      var name := models[i].name;
      cameras := Keep(CameraNotOf(name), cameras);
      models := models[..i] + models[i + 1..];
      response := Deleted;
    }

    /** `create_camera`. */
    method CreateCamera(body: CameraBody) returns (response: Response)
      requires Ok()
      modifies this
      ensures Outcome(response, State()) == InsertCamera(old(State()), body)
      ensures Ok()
    {
      if body.model.None? || body.serialNumber.None? || !body.installationDate.Given?
        || !body.imageStorage.Given? || !body.incidentsCaptured.Given?
      {
        return Failed(ServerError);
      }
      var camera := CameraRow(NextId(cameras, CameraId), body.model.value, body.serialNumber.value,
                              body.installationDate.value, None, body.imageStorage.value,
                              body.incidentsCaptured.value, "active");
      if Find(cameras, CameraWithSerial(camera.serialNumber)).Some? {
        return Failed(ServerError);
      }
      cameras := cameras + [camera];
      response := CameraCreated(camera.id, camera.model, camera.serialNumber);
    }

    /** `create_model`: two commits, the model first and then its first camera. */
    method CreateModel(form: ModelForm, stamp: string, now: string) returns (response: Response)
      requires Ok()
      modifies this
      ensures Outcome(response, State()) == InsertModel(old(State()), form, stamp, now)
      ensures Ok()
    {
      if !form.hasImage {
        return Failed(ImageRequired);
      }
      if form.name.None? || form.description.None? {
        return Failed(ServerError);
      }
      var name := form.name.value;
      if Find(models, ModelNamed(name)).Some? {
        return Failed(ServerError);
      }
      var before := Tables(cameras, models);
      var model := ModelRow(NextId(models, ModelId), name, form.description.value, name + "_" + stamp + ".jpg", now);
      models := models + [model];
      var camera := FirstCamera(before, name, form);
      if camera.None? || Find(cameras, CameraWithSerial(camera.value.serialNumber)).Some? {
        return Failed(ServerError);
      }
      cameras := cameras + [camera.value];
      response := ModelCreated(model.id, model.name, model.description, model.imagePath);
    }
  }
}
