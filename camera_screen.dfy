/**
 * The camera screen: one button takes a photo and uploads it with the user's
 * id, guarded by the id and by an `isSending` flag that is set for the
 * duration of an upload.
 */
module CameraScreen {
  import opened Wrappers
  import opened Js
  import opened Net
  import opened Storage

  const ErrorTitle := "Ошибка"
  const SuccessTitle := "Успех"
  const NotAuthenticatedText := "Пользователь не аутентифицирован"
  const NoIdText := "Не удалось получить ID пользователя"
  const SentText := "Фото успешно отправлено"
  const SendFailedText := "Не удалось отправить фото"
  const CaptureFailedText := "Не удалось сделать фото"

  /** What the camera's `takePhoto` yields: a file path, or a rejection. */
  datatype Shot = Photo(path: string) | CaptureFailed

  /** The multipart body of an upload: the photo file, then the client id. */
  function UploadForm(path: string, userId: string): Payload {
    Form([("photo", File("file://" + path, "image/jpg", "test.jpg")), ("id_client", Field(Str(userId)))])
  }

  /** The alert that ends an upload: success only for an OK response. */
  function UploadAlert(response: Fetched): (e: Effect)
    ensures e == Say(SuccessTitle, SentText) <==> response.Response? && response.ok
    ensures e == Say(ErrorTitle, SendFailedText) <==> !(response.Response? && response.ok)
  {
    if response.Response? && response.ok then Say(SuccessTitle, SentText)
    else Say(ErrorTitle, SendFailedText)
  }

  /** The effects of an upload by a known user: busy, request, alert, idle. */
  function UploadEffects(path: string, userId: string, response: Fetched): seq<Effect> {
    [Busy(true), Send(Request(Post, "/request", [], UploadForm(path, userId))), UploadAlert(response), Busy(false)]
  }

  class Camera {
    var userId: Option<string>
    var isSending: bool

    constructor ()
      ensures userId == None && !isSending
    {
      userId := None;
      isSending := false;
    }

    /**
     * `loadUserId`, on mount: a stored, non-empty id is kept; a missing or empty
     * one, or a failed read, is reported with its own alert.
     */
    method LoadUserId(store: KeyValueStore, readFails: bool) returns (effects: seq<Effect>)
      modifies this
      ensures isSending == old(isSending)
      ensures readFails ==> userId == old(userId) && effects == [Say(ErrorTitle, NoIdText)]
      ensures !readFails && !HasToken(store.entries) ==>
        userId == old(userId) && effects == [Say(ErrorTitle, NotAuthenticatedText)]
      ensures !readFails && HasToken(store.entries) ==>
        userId == Some(store.entries[UserIdKey]) && effects == []
    {
      var r := store.GetItem(UserIdKey, readFails);
      if r.ReadFailed? {
        return [Say(ErrorTitle, NoIdText)];
      }
      if !Present(r.item) {
        return [Say(ErrorTitle, NotAuthenticatedText)];
      }
      userId := r.item;
      effects := [];
    }

    /**
     * `postToServer`: without an id it alerts and sends nothing; otherwise
     * `isSending` is on during the upload and off afterwards, whatever the
     * answer.
     */
    method PostToServer(path: string, response: Fetched) returns (effects: seq<Effect>)
      modifies this
      ensures userId == old(userId)
      ensures !Present(userId) ==>
        effects == [Say(ErrorTitle, NotAuthenticatedText)] && isSending == old(isSending)
      ensures Present(userId) ==>
        effects == UploadEffects(path, userId.value, response) && !isSending
    {
      if !Present(userId) {
        return [Say(ErrorTitle, NotAuthenticatedText)];
      }
      isSending := true;
      effects := [Busy(true)];
      var form := UploadForm(path, userId.value);
      effects := effects + [Send(Request(Post, "/request", [], form))];
      effects := effects + [UploadAlert(response)];
      isSending := false;
      effects := effects + [Busy(false)];
    }

    /**
     * `capturePhoto`: without an id it alerts; while an upload is in flight it
     * does nothing; a failed capture alerts; a photo is uploaded.
     */
    method CapturePhoto(shot: Shot, response: Fetched) returns (effects: seq<Effect>)
      modifies this
      ensures userId == old(userId)
      ensures !Present(userId) ==>
        effects == [Say(ErrorTitle, NotAuthenticatedText)] && isSending == old(isSending)
      ensures Present(userId) && old(isSending) ==> effects == [] && isSending
      ensures Present(userId) && !old(isSending) && shot.CaptureFailed? ==>
        effects == [Say(ErrorTitle, CaptureFailedText)] && !isSending
      ensures Present(userId) && !old(isSending) && shot.Photo? ==>
        effects == UploadEffects(shot.path, userId.value, response) && !isSending
    {
      if !Present(userId) {
        return [Say(ErrorTitle, NotAuthenticatedText)];
      }
      if isSending {
        return [];
      }
      match shot
      case CaptureFailed =>
        effects := [Say(ErrorTitle, CaptureFailedText)];
      case Photo(path) =>
        effects := PostToServer(path, response);
    }
  }
}
