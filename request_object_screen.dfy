/**
 * The event detail screen: it loads the event's image and the list of
 * diagnosis classes, and lets the user send a class for an event that has no
 * user comment yet.
 */
module RequestObjectScreen {
  import opened Wrappers
  import opened Js
  import opened Net

  const SentText := "Класс отправлен успешно!"
  const RetryText := "Ошибка отправки. Попробуйте снова."

  /** The route parameters the screen is opened with. */
  datatype EventParams = EventParams(
    codeName: JsValue,
    dateCreate: JsValue,
    timeGet: JsValue,
    classSet: JsValue,
    classComment: JsValue)

  /** One entry of the class picker. */
  datatype ClassOption = ClassOption(idClass: string, nameClass: JsValue)

  /** `Object.entries(classes).map(([id, name]) => ({ id_class: id, name_class: name }))` */
  function FormatClasses(entries: seq<(string, JsValue)>): (r: seq<ClassOption>)
    ensures |r| == |entries|
    ensures forall i :: 0 <= i < |r| ==> r[i].idClass == entries[i].0 && r[i].nameClass == entries[i].1
  {
    if entries == [] then []
    else [ClassOption(entries[0].0, entries[0].1)] + FormatClasses(entries[1..])
  }

  /** A parsed JSON body, whatever the status: none of these handlers checks `response.ok`. */
  predicate HasJson(response: Fetched) {
    response.Response? && response.body.Json?
  }

  /** The JSON body a send posts. */
  function SendBody(codeName: JsValue, selectedClass: JsValue): Payload {
    JsonBody([("code_name", codeName), ("id_class", selectedClass)])
  }

  /**
   * How `sendClass` ends: None when something throws (no response, a body that
   * is not JSON, a `null` body), otherwise whether `result.success` is truthy.
   */
  function SendOutcome(response: Fetched): (r: Option<bool>)
    ensures r.None? <==> !HasJson(response) || Nullish(response.body.value)
    ensures r.Some? ==> r.value == Truthy(Prop(response.body.value, "success"))
  {
    match response
    case NetworkFailure => None
    case Response(_, body) =>
      match body
      case NotJson => None
      case Json(result) =>
        match Member(result, "success")
        case None => None
        case Some(success) => Some(Truthy(success))
  }

  /** What the image area shows: a spinner, the picture, or the failure text. */
  datatype ImageArea = ImageSpinner | Picture(uri: JsValue) | ImageMissing

  /** The screen's state cells, as one value. */
  datatype EventState = EventState(
    imageUrl: JsValue,
    loading: bool,
    classes: seq<ClassOption>,
    selectedClass: JsValue,
    isSent: bool,
    sendMessage: string)

  class EventScreen {
    const codeName: JsValue
    const classComment: JsValue
    var imageUrl: JsValue
    var loading: bool
    var classes: seq<ClassOption>
    var selectedClass: JsValue
    var isSent: bool
    var sendMessage: string

    function State(): EventState
      reads this
    {
      EventState(imageUrl, loading, classes, selectedClass, isSent, sendMessage)
    }

    /** An event counts as sent from the start iff it already carries a user comment. */
    constructor (params: EventParams)
      ensures codeName == params.codeName && classComment == params.classComment
      ensures State() == EventState(Null, true, [], Null, Truthy(params.classComment), "")
      ensures !SendEnabled() && PickerShown() == !Truthy(params.classComment)
      ensures ImageShown() == ImageSpinner
    {
      codeName := params.codeName;
      classComment := params.classComment;
      imageUrl := Null;
      loading := true;
      classes := [];
      selectedClass := Null;
      isSent := Truthy(params.classComment);
      sendMessage := "";
    }

    /** The send button is enabled only once a class is selected. */
    function SendEnabled(): bool
      reads this
    {
      Truthy(selectedClass)
    }

    /** The picker and the button are shown only until the class is sent. */
    function PickerShown(): bool
      reads this
    {
      !isSent
    }

    /** The image area: the spinner while loading, then the picture if its URL is truthy. */
    function ImageShown(): ImageArea
      reads this
    {
      if loading then ImageSpinner
      else if Truthy(imageUrl) then Picture(imageUrl)
      else ImageMissing
    }

    /**
     * `fetchImageUrl`: a parsed body's `url` becomes the image, and loading
     * ends whether the fetch succeeded or not.
     */
    method FetchImageUrl(response: Fetched) returns (effects: seq<Effect>)
      modifies this
      ensures effects == [Send(Request(Get, "/get_url?code_name=" + ToStr(codeName), [], NoBody))]
      ensures HasJson(response) && !Nullish(response.body.value) ==>
        State() == old(State()).(imageUrl := Prop(response.body.value, "url"), loading := false)
      ensures !(HasJson(response) && !Nullish(response.body.value)) ==>
        State() == old(State()).(loading := false)
      ensures ImageShown() != ImageSpinner
    {
      effects := [Send(Request(Get, "/get_url?code_name=" + ToStr(codeName), [], NoBody))];
      if HasJson(response) && !Nullish(response.body.value) {
        imageUrl := Prop(response.body.value, "url");
      }
      loading := false;
    }

    /**
     * `fetchClasses`: a class map in the body replaces the classes, one per
     * entry in entry order; anything else changes nothing.
     */
    method FetchClasses(response: Fetched) returns (effects: seq<Effect>)
      modifies this
      ensures effects == [Send(Request(Get, "/get_classes", [], NoBody))]
      ensures HasJson(response) && !Nullish(response.body.value)
              && Truthy(Prop(response.body.value, "classes")) && IsObjectType(Prop(response.body.value, "classes")) ==>
        State() == old(State()).(classes := FormatClasses(Entries(Prop(response.body.value, "classes"))))
      ensures !(HasJson(response) && !Nullish(response.body.value)
              && Truthy(Prop(response.body.value, "classes")) && IsObjectType(Prop(response.body.value, "classes"))) ==>
        State() == old(State())
    {
      effects := [Send(Request(Get, "/get_classes", [], NoBody))];
      if HasJson(response) {
        match Member(response.body.value, "classes")
        case None =>
        case Some(found) =>
          if Truthy(found) && IsObjectType(found) {
            classes := FormatClasses(Entries(found));
          }
      }
    }

    /** The picker's `onValueChange`. */
    method SelectClass(value: JsValue)
      modifies this
      ensures State() == old(State()).(selectedClass := value)
    {
      selectedClass := value;
    }

    /**
     * `sendClass`: posts the event's code name and the selected class; a
     * truthy `success` marks the event sent with the success message, a falsy
     * one changes nothing, and anything thrown shows the retry message and
     * leaves `isSent` alone. A sent event never becomes unsent.
     */
    method SendClass(response: Fetched) returns (effects: seq<Effect>)
      modifies this
      ensures effects == [Send(Request(Post, "/send_class", [], SendBody(codeName, old(selectedClass))))]
      ensures old(isSent) ==> isSent
      ensures SendOutcome(response) == Some(true) ==>
        State() == old(State()).(isSent := true, sendMessage := SentText)
      ensures SendOutcome(response) == Some(false) ==> State() == old(State())
      ensures SendOutcome(response).None? ==> State() == old(State()).(sendMessage := RetryText)
    {
      effects := [Send(Request(Post, "/send_class", [], SendBody(codeName, selectedClass)))];
      var outcome := SendOutcome(response);
      if outcome.None? {
        sendMessage := RetryText;
      } else if outcome.value {
        isSent := true;
        sendMessage := SentText;
      }
    }
  }
}
