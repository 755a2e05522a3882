/** The App component's state and its two handlers: the image-picker
    callback of handleSelectPhoto and handleAnalyze. The picker library, fetch,
    response.json and Alert are foreign: their outcomes are inputs
    (PickerResponse, FetchOutcome) and the alert a handler raises is an
    output. */
module App {

  import opened Options
  import opened ServerAddress

  /** The address the text field starts with. */
  const DefaultServerIp: string := "192.168.1.25"
  /** The upload name used when the asset has no file name. */
  const FallbackFileName: string := "test_image.jpg"
  const AnalyzePath: string := "/analyze"

  /** JavaScript truthiness of an optional string: undefined or null
      (None) and the empty string are falsy, every other string is truthy. */
  predicate Truthy(o: Option<string>) {
    o.Some? && o.value != ""
  }

  /** JavaScript `o || fallback` for an optional string. */
  function OrElse(o: Option<string>, fallback: string): string {
    if Truthy(o) then o.value else fallback
  }

  /** The fields of a picked image the component reads. */
  datatype Asset = Asset(uri: Option<string>, mimeType: Option<string>, fileName: Option<string>)

  /** What the camera or the gallery picker hands to the callback. */
  datatype PickerResponse = PickerResponse(
    didCancel: bool,
    errorCode: Option<string>,
    errorMessage: Option<string>,
    assets: Option<seq<Asset>>)

  /** The parsed JSON body of the analysis server's answer. Only success,
      warning and error steer the handler; the rest is shown by the result
      card. */
  datatype AnalysisData = AnalysisData(
    success: bool,
    warning: Option<string>,
    error: Option<string>,
    ratio: Option<string>,
    cVal: Option<string>,
    tVal: Option<string>,
    blurScore: Option<string>,
    graphUrl: Option<string>)

  /** How the awaited `fetch` and `response.json()` end and what the `try`
      block does with the answer: NetworkFailure when `fetch` throws,
      UnreadableBody when the body is not JSON or parses to `null` (reading
      `data.success` then throws), and Received when a body object is
      parsed. The last two both reach the `catch`. */
  datatype FetchOutcome = NetworkFailure | UnreadableBody | Received(data: AnalysisData)

  /** The `file` part of the multipart form. */
  datatype FilePart = FilePart(uri: Option<string>, mimeType: Option<string>, name: string)

  /** The one POST request handleAnalyze sends (method POST, header
      Content-Type: multipart/form-data, body a form with the file part). */
  datatype Request = Request(url: string, file: FilePart)

  datatype Alert = Alert(title: string, message: Option<string>)

  const NoPhotoAlert: Alert := Alert("Uyarı", Some("Lütfen önce bir fotoğraf seçin."))
  const UnknownError: string := "Bilinmeyen hata."

  /** The upload name `photo.fileName || 'test_image.jpg'`: never empty, the
      asset's own name whenever it has a non-empty one. */
  function UploadName(photo: Asset): (name: string)
    ensures name != ""
    ensures Truthy(photo.fileName) ==> name == photo.fileName.value
    ensures !Truthy(photo.fileName) ==> name == FallbackFileName
  {
    OrElse(photo.fileName, FallbackFileName)
  }

  /** The request built for a selected photo: it targets the normalised
      server address followed by "/analyze", so its URL starts with "http"
      and names a port or scheme separator; the file part carries the
      photo's uri and type unchanged, and its name is the photo's file name
      when that is non-empty and "test_image.jpg" otherwise. */
  function BuildRequest(serverIp: string, photo: Asset): (req: Request)
    ensures req.url == GetServerUrl(serverIp) + AnalyzePath
    ensures StartsWith(req.url, HttpPrefix) && Includes(req.url, ':')
    ensures req.file == FilePart(photo.uri, photo.mimeType, UploadName(photo))
    ensures req.file.name != ""
    ensures Truthy(photo.fileName) ==> req.file.name == photo.fileName.value
    ensures !Truthy(photo.fileName) ==> req.file.name == FallbackFileName
  {
    var url := GetServerUrl(serverIp);
    PrefixKept(url, AnalyzePath, HttpPrefix);
    Request(url + AnalyzePath, FilePart(photo.uri, photo.mimeType, UploadName(photo)))
  }

  /** Typing the normalised address into the field builds the very same
      request. */
  lemma RequestStableUnderNormalisedAddress(serverIp: string, photo: Asset)
    ensures BuildRequest(GetServerUrl(serverIp), photo) == BuildRequest(serverIp, photo)
  {
    ServerUrlIdempotent(serverIp);
  }

  /** The alert raised for a parsed answer: for a success, one exactly when
      the answer carries a warning, showing that warning; for a failure,
      always one, whose message is the server's error or a fixed text, and
      so never empty. */
  function ResponseAlert(data: AnalysisData): (alert: Option<Alert>)
    ensures data.success ==> (alert.Some? <==> Truthy(data.warning))
    ensures data.success && alert.Some? ==> alert.value.message == data.warning
    ensures !data.success ==> alert.Some? && alert.value.message.Some? && alert.value.message.value != ""
    ensures !data.success && Truthy(data.error) ==> alert.value.message == data.error
  {
    if data.success then
      if Truthy(data.warning) then Some(Alert("Dikkat", data.warning)) else None
    else
      Some(Alert("Analiz Hatası", Some(OrElse(data.error, UnknownError))))
  }

  /** The text occurs somewhere in the message. */
  predicate Mentions(message: string, text: string) {
    exists i :: 0 <= i <= |message| && StartsWith(message[i..], text)
  }

  /** The alert raised when the request or the parse throws: its message
      names the address that was tried. */
  function ConnectionAlert(url: string): (alert: Alert)
    ensures alert.message.Some?
    ensures Mentions(alert.message.value, url)
  {
    var head := "Sunucuya ulaşılamadı.\nAdres: ";
    var msg := head + url + "\nIP adresini kontrol et.";
    assert msg[|head|..][..|url|] == url;
    Alert("Bağlantı Hatası", Some(msg))
  }

  /** The component's state: the chosen photo, the loading flag, the last
      analysis result shown and the entered server address. */
  class AppScreen {
    var photo: Option<Asset>
    var loading: bool
    var result: Option<AnalysisData>
    var serverIp: string

    /** A result on screen is always a successful answer and some photo is
        selected; while a request is in flight a photo is selected. The
        pickers stay enabled while loading, so the photo on screen may be
        newer than the one the shown answer was computed for. */
    ghost predicate Valid()
      reads this
    {
      (result.Some? ==> result.value.success && photo.Some?) &&
      (loading ==> photo.Some?)
    }

    /** The initial state of the component. */
    constructor ()
      ensures Valid()
      ensures photo == None && !loading && result == None && serverIp == DefaultServerIp
    {
      photo := None;
      loading := false;
      result := None;
      serverIp := DefaultServerIp;
    }

    /** The text field's onChangeText: only the address changes. */
    method SetServerIp(text: string)
      requires Valid()
      modifies this
      ensures Valid()
      ensures serverIp == text
      ensures photo == old(photo) && loading == old(loading) && result == old(result)
    {
      serverIp := text;
    }

    /** The picker callback. A cancelled or failed pick changes nothing (a
        failure raises an alert with the library's message); a pick with at
        least one asset selects the first and clears the old result; a pick
        without assets changes nothing. */
    method OnPickerResponse(response: PickerResponse) returns (alert: Option<Alert>)
      requires Valid()
      modifies this
      ensures Valid()
      ensures serverIp == old(serverIp) && loading == old(loading)
      ensures response.didCancel ==>
                alert == None && photo == old(photo) && result == old(result)
      ensures !response.didCancel && Truthy(response.errorCode) ==>
                alert == Some(Alert("Hata", response.errorMessage)) &&
                photo == old(photo) && result == old(result)
      ensures !response.didCancel && !Truthy(response.errorCode) ==> alert == None
      ensures !response.didCancel && !Truthy(response.errorCode) &&
              response.assets.Some? && |response.assets.value| > 0 ==>
                photo == Some(response.assets.value[0]) && result == None
      ensures !response.didCancel && !Truthy(response.errorCode) &&
              !(response.assets.Some? && |response.assets.value| > 0) ==>
                photo == old(photo) && result == old(result)
    {
      alert := None;
      if response.didCancel {
        return;
      }
      if Truthy(response.errorCode) {
        alert := Some(Alert("Hata", response.errorMessage));
        return;
      }
      if response.assets.Some? && |response.assets.value| > 0 {
        photo := Some(response.assets.value[0]);
        result := None;
      }
    }

    /** handleAnalyze up to the awaited fetch. Without a photo it only
        raises the warning alert; with one it sets loading and builds the one
        request to send. The analyse button is disabled while loading, so
        the handler is never entered with loading set. */
    method BeginAnalyze() returns (request: Option<Request>, alert: Option<Alert>)
      requires Valid() && !loading
      modifies this
      ensures Valid()
      ensures photo == old(photo) && result == old(result) && serverIp == old(serverIp)
      ensures photo.None? ==> request == None && alert == Some(NoPhotoAlert) && !loading
      ensures photo.Some? ==>
                request == Some(BuildRequest(serverIp, photo.value)) && alert == None && loading
    {
      if photo.None? {
        request, alert := None, Some(NoPhotoAlert);
        return;
      }
      loading := true;
      request, alert := Some(BuildRequest(serverIp, photo.value)), None;
    }

    /** handleAnalyze after the await, for the request it sent: a success
        becomes the shown result, a rejection clears it, a thrown fetch or
        parse leaves it and names the tried address; loading ends in every
        case. */
    method FinishAnalyze(request: Request, outcome: FetchOutcome) returns (alert: Option<Alert>)
      requires Valid() && loading
      modifies this
      ensures Valid() && !loading
      ensures photo == old(photo) && serverIp == old(serverIp)
      ensures outcome.Received? && outcome.data.success ==>
                result == Some(outcome.data) && alert == ResponseAlert(outcome.data)
      ensures outcome.Received? && !outcome.data.success ==>
                result == None && alert == ResponseAlert(outcome.data)
      ensures !outcome.Received? ==>
                result == old(result) && alert == Some(ConnectionAlert(request.url))
    {
      match outcome {
        case Received(data) =>
          if data.success {
            result := Some(data);
          } else {
            result := None;
          }
          alert := ResponseAlert(data);
        case _ =>
          alert := Some(ConnectionAlert(request.url));
      }
      loading := false;
    }

    /** The whole of handleAnalyze, with the outcome of the awaited calls as
        input: without a photo nothing is sent and nothing changes; with one,
        exactly the request for the current address and photo is sent,
        loading is false afterwards and the result follows the outcome. */
    method HandleAnalyze(outcome: FetchOutcome) returns (request: Option<Request>, alert: Option<Alert>)
      requires Valid() && !loading
      modifies this
      ensures Valid() && !loading
      ensures photo == old(photo) && serverIp == old(serverIp)
      ensures photo.None? ==>
                request == None && alert == Some(NoPhotoAlert) && result == old(result)
      ensures photo.Some? ==> request == Some(BuildRequest(serverIp, photo.value))
      ensures photo.Some? && outcome.Received? ==>
                alert == ResponseAlert(outcome.data) &&
                result == (if outcome.data.success then Some(outcome.data) else None)
      ensures photo.Some? && !outcome.Received? ==>
                result == old(result) &&
                alert == Some(ConnectionAlert(GetServerUrl(serverIp) + AnalyzePath))
    {
      request, alert := BeginAnalyze();
      if request.Some? {
        alert := FinishAnalyze(request.value, outcome);
      }
    }
  }
}
