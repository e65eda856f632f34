/**
  The administration helpers of the overview page (static/js/main.js): each one decides
  whether a request reaches the backend at all, and with what body. The dialogs
  (`confirm`, `prompt`) and the form inputs are parameters; the request is returned
  instead of being sent.
 */
module Admin {
  import opened CameraRecords

  /** What `prompt` gives back: null when the dialog is cancelled, else the typed text. */
  datatype Answer = Cancelled | Typed(text: string)

  /** JavaScript truthiness of a prompt answer: null and "" are falsy, other text is truthy. */
  predicate Truthy(a: Answer)
  {
    a.Typed? && |a.text| > 0
  }

  /** A value of the feed body: the typed text, or the number 0. */
  datatype FeedValue = Text(text: string) | Zero

  /** The requests the admin page can send. */
  datatype Request =
    | DeleteModelRequest(modelId: int)
    | DeleteCameraRequest(cameraId: int)
    | FeedRequest(cameraId: int, gb: FeedValue, ocorr: FeedValue)
    | AddCameraRequest(form: CameraForm)

  /** The seven inputs of the add-camera dialog, as the text each input holds. */
  datatype CameraForm = CameraForm(
    model: string,
    serialNumber: string,
    installationDate: string,
    locationX: string,
    locationY: string,
    imageStorage: string,
    incidentsCaptured: string)

  /** `answer || 0`: a non-empty answer is kept as typed, an empty or cancelled one becomes 0. */
  function OrZero(a: Answer): (v: FeedValue)
    ensures v == Zero <==> !Truthy(a)
    ensures v.Text? ==> a == Typed(v.text) && |v.text| > 0
  {
    if Truthy(a) then Text(a.text) else Zero
  }

  /** `deleteModel`: the DELETE is sent only when the user confirms. */
  function DeleteModel(id: int, confirmed: bool): (r: Option<Request>)
    ensures r.Some? <==> confirmed
    ensures r.Some? ==> r.value.DeleteModelRequest? && r.value.modelId == id
  {
    if confirmed then Some(DeleteModelRequest(id)) else None
  }

  /** `deleteCamera`: the DELETE is sent only when the user confirms. */
  function DeleteCamera(id: int, confirmed: bool): (r: Option<Request>)
    ensures r.Some? <==> confirmed
    ensures r.Some? ==> r.value.DeleteCameraRequest? && r.value.cameraId == id
  {
    if confirmed then Some(DeleteCameraRequest(id)) else None
  }

  /** `feedCameraData`: sent when at least one answer is non-empty; an empty or cancelled
      answer is sent as 0 and a non-empty one as typed. */
  function FeedCameraData(id: int, gb: Answer, ocorr: Answer): (r: Option<Request>)
    ensures r.Some? <==> Truthy(gb) || Truthy(ocorr)
    ensures r.Some? ==> r.value.FeedRequest? && r.value.cameraId == id
    ensures r.Some? ==> (r.value.gb == Zero <==> !Truthy(gb)) && (r.value.ocorr == Zero <==> !Truthy(ocorr))
    ensures r.Some? && r.value.gb.Text? ==> gb == Typed(r.value.gb.text)
    ensures r.Some? && r.value.ocorr.Text? ==> ocorr == Typed(r.value.ocorr.text)
  {
    if Truthy(gb) || Truthy(ocorr) then Some(FeedRequest(id, OrZero(gb), OrZero(ocorr))) else None
  }

  /** Every input of the dialog holds some text. */
  predicate Filled(f: CameraForm)
  {
    && |f.model| > 0 && |f.serialNumber| > 0 && |f.installationDate| > 0
    && |f.locationX| > 0 && |f.locationY| > 0
    && |f.imageStorage| > 0 && |f.incidentsCaptured| > 0
  }

  /** `submitAddCamera`: the POST is sent, with the form as typed, only when all seven
      inputs are non-empty. */
  function SubmitAddCamera(f: CameraForm): (r: Option<Request>)
    ensures r.Some? <==> Filled(f)
    ensures r.Some? ==> r.value == AddCameraRequest(f)
  {
    if Filled(f) then Some(AddCameraRequest(f)) else None
  }

  /** A single empty input is enough to keep the POST from being sent. */
  lemma OneEmptyInputBlocks(f: CameraForm)
    requires f.model == [] || f.serialNumber == [] || f.installationDate == []
          || f.locationX == [] || f.locationY == []
          || f.imageStorage == [] || f.incidentsCaptured == []
    ensures SubmitAddCamera(f) == None
  {
  }

  /** Two cancelled or empty prompts send nothing; one answer is enough to send. */
  lemma FeedNeedsOneAnswer(id: int, text: string)
    requires |text| > 0
    ensures FeedCameraData(id, Cancelled, Typed("")) == None
    ensures FeedCameraData(id, Typed(text), Cancelled) == Some(FeedRequest(id, Text(text), Zero))
    ensures FeedCameraData(id, Typed(""), Typed(text)) == Some(FeedRequest(id, Zero, Text(text)))
  {
  }
}
