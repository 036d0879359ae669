/**
 * The profile screen: it finds the stored identity, loads the profile with
 * defaults for missing fields, and saves edits after two client-side checks.
 */
module ProfileScreen {
  import opened Wrappers
  import opened Js
  import opened Net
  import opened Storage

  const ErrorTitle := "Ошибка"
  const SuccessTitle := "Успешно"
  const NotAuthenticatedText := "Пользователь не аутентифицирован"
  const LoadFailedText := "Не удалось загрузить данные профиля"
  const PasswordMismatchText := "Пароли не совпадают!"
  const ExperienceNotIntegerText := "Опыт должен быть целым числом!"
  const UpdateFailedText := "Не удалось обновить данные профиля"

  /** The verdict of the checks `handleSave` makes before sending anything. */
  datatype Verdict = Accept | Reject(message: string)

  /**
   * The two checks of `handleSave`, passwords first: a mismatch is reported even
   * when the experience is malformed too; an experience that is set must read as
   * a run of ASCII digits; an empty experience passes.
   */
  function SaveCheck(password: string, confirm: string, experience: JsValue): (v: Verdict)
    ensures v == Reject(PasswordMismatchText) <==> password != confirm
    ensures v == Reject(ExperienceNotIntegerText) <==>
      password == confirm && Truthy(experience) && !AllDigits(ToStr(experience))
    ensures v == Accept <==>
      password == confirm && (!Truthy(experience) || AllDigits(ToStr(experience)))
  {
    if password != confirm then Reject(PasswordMismatchText)
    else if Truthy(experience) && !AllDigits(ToStr(experience)) then Reject(ExperienceNotIntegerText)
    else Accept
  }

  /**
   * An experience loaded from the server as a number passes the check exactly
   * when it is not negative: zero is falsy and skips the check, a positive
   * number prints as digits, a negative one prints with a minus sign.
   */
  lemma LoadedNumberPassesCheck(password: string, n: int)
    ensures SaveCheck(password, password, Num(n)) == Accept <==> n >= 0
  {
    DecimalStringShape(n);
  }

  /** The fields `fetchProfile` takes from a loaded profile. */
  datatype LoadedFields = LoadedFields(firstName: JsValue, lastName: JsValue, login: JsValue, experience: JsValue, hasExperience: bool)

  /**
   * Field defaulting of `fetchProfile` for a JSON body: each field is the
   * server's value when truthy and '' when missing or falsy, and `hasExperience` says
   * whether the server's `experience_year` is truthy. Reading fields of a
   * `null` body throws.
   */
  function LoadFields(data: JsValue): (r: Option<LoadedFields>)
    ensures r.None? <==> Nullish(data)
    ensures r.Some? ==>
      && (Truthy(Prop(data, "first_name")) ==> r.value.firstName == Prop(data, "first_name"))
      && (Truthy(Prop(data, "last_name")) ==> r.value.lastName == Prop(data, "last_name"))
      && (Truthy(Prop(data, "login")) ==> r.value.login == Prop(data, "login"))
      && (Truthy(Prop(data, "experience_year")) ==> r.value.experience == Prop(data, "experience_year"))
    ensures r.Some? ==>
      && (!Truthy(Prop(data, "first_name")) ==> r.value.firstName == Str(""))
      && (!Truthy(Prop(data, "last_name")) ==> r.value.lastName == Str(""))
      && (!Truthy(Prop(data, "login")) ==> r.value.login == Str(""))
      && (!Truthy(Prop(data, "experience_year")) ==> r.value.experience == Str(""))
    ensures r.Some? ==> r.value.hasExperience == Truthy(Prop(data, "experience_year"))
    ensures r.Some? ==> r.value.hasExperience == Truthy(r.value.experience)
  {
    if Nullish(data) then None
    else
      var empty := Str("");
      Some(LoadedFields(
        Or(Prop(data, "first_name"), empty),
        Or(Prop(data, "last_name"), empty),
        Or(Prop(data, "login"), empty),
        Or(Prop(data, "experience_year"), empty),
        Truthy(Prop(data, "experience_year"))))
  }

  /**
   * An answer whose handling throws a runtime error rather than the code's own:
   * no response at all, or an OK status with a body that is not JSON or is `null`.
   */
  predicate Throws(response: Fetched) {
    || response.NetworkFailure?
    || (response.ok && !response.body.Json?)
    || (response.ok && response.body.Json? && Nullish(response.body.value))
  }

  /** How one profile load ends: the loaded fields, or the alert it shows. */
  datatype LoadOutcome = Loaded(fields: LoadedFields) | LoadError(text: AlertText)

  /** What `fetchProfile` makes of the server's answer. */
  function ReadProfile(response: Fetched): (r: LoadOutcome)
    ensures r.Loaded? <==>
      response.Response? && response.ok && response.body.Json? && !Nullish(response.body.value)
    ensures r.Loaded? ==> Some(r.fields) == LoadFields(response.body.value)
    ensures r == LoadError(Text(Str(LoadFailedText))) <==> response.Response? && !response.ok
    ensures r == LoadError(ErrorMessage) <==> Throws(response)
  {
    match response
    case NetworkFailure => LoadError(ErrorMessage)
    case Response(ok, body) =>
      if !ok then LoadError(Text(Str(LoadFailedText)))
      else
        match body
        case NotJson => LoadError(ErrorMessage)
        case Json(data) =>
          match LoadFields(data)
          case None => LoadError(ErrorMessage)
          case Some(fields) => Loaded(fields)
  }

  /** The alert `handleSave` ends with once the request has been sent. */
  function SaveAlert(response: Fetched): (e: Effect)
    ensures e.Alert?
    ensures e.title == SuccessTitle <==>
      response.Response? && response.ok && response.body.Json? && !Nullish(response.body.value)
    ensures e.title == SuccessTitle ==> e.text == Text(Prop(response.body.value, "message"))
    ensures response.Response? && !response.ok ==> e == Say(ErrorTitle, UpdateFailedText)
    ensures e == Alert(ErrorTitle, ErrorMessage) <==> Throws(response)
  {
    match response
    case NetworkFailure => Alert(ErrorTitle, ErrorMessage)
    case Response(ok, body) =>
      if !ok then Say(ErrorTitle, UpdateFailedText)
      else
        match body
        case NotJson => Alert(ErrorTitle, ErrorMessage)
        case Json(result) =>
          match Member(result, "message")
          case None => Alert(ErrorTitle, ErrorMessage)
          case Some(m) => Alert(SuccessTitle, Text(m))
  }

  /** An OK answer whose body parses: the point where `hasExperience` may be set. */
  predicate Parsed(response: Fetched) {
    response.Response? && response.ok && response.body.Json?
  }

  /** The screen's state cells, as one value. */
  datatype ProfileState = ProfileState(
    userId: Option<string>,
    firstName: JsValue,
    lastName: JsValue,
    login: JsValue,
    password: string,
    confirm: string,
    loading: bool,
    experience: JsValue,
    hasExperience: bool)

  /** The JSON body of a save: exactly these five fields, from the current state. */
  function SaveBody(s: ProfileState): seq<(string, JsValue)> {
    [ ("id_user", if s.userId.Some? then Str(s.userId.value) else Null),
      ("first_name", s.firstName),
      ("last_name", s.lastName),
      ("password", Str(s.password)),
      ("experience_year", s.experience) ]
  }

  /** The text inputs of the form. */
  datatype Input = FirstNameInput | LastNameInput | ExperienceInput | PasswordInput | ConfirmInput

  class Profile {
    var userId: Option<string>
    var firstName: JsValue
    var lastName: JsValue
    var login: JsValue
    var password: string
    var confirm: string
    var loading: bool
    var experience: JsValue
    var hasExperience: bool

    function State(): ProfileState
      reads this
    {
      ProfileState(userId, firstName, lastName, login, password, confirm, loading, experience, hasExperience)
    }

    /** An experience is recorded only when there is one. */
    ghost predicate Valid()
      reads this
    {
      hasExperience ==> Truthy(experience)
    }

    constructor ()
      ensures Valid()
      ensures State() == ProfileState(None, Str(""), Str(""), Str(""), "", "", true, Str(""), false)
    {
      userId := None;
      firstName, lastName, login := Str(""), Str(""), Str("");
      password, confirm := "", "";
      loading := true;
      experience := Str("");
      hasExperience := false;
    }

    /**
     * An input's `onChangeText`. The experience input is replaced by plain text
     * once an experience is recorded, so it cannot be edited then.
     */
    method Edit(input: Input, text: string)
      requires Valid()
      requires input == ExperienceInput ==> !hasExperience
      modifies this
      ensures Valid()
      ensures State() == match input
        case FirstNameInput => old(State()).(firstName := Str(text))
        case LastNameInput => old(State()).(lastName := Str(text))
        case ExperienceInput => old(State()).(experience := Str(text))
        case PasswordInput => old(State()).(password := text)
        case ConfirmInput => old(State()).(confirm := text)
    {
      match input
      case FirstNameInput => firstName := Str(text);
      case LastNameInput => lastName := Str(text);
      case ExperienceInput => experience := Str(text);
      case PasswordInput => password := text;
      case ConfirmInput => confirm := text;
    }

    /**
     * `fetchUserId`, on mount: a stored, non-empty id becomes `userId`; a missing
     * or empty one raises the not-authenticated alert; a failed read is only logged.
     */
    method FetchUserId(store: KeyValueStore, readFails: bool) returns (effects: seq<Effect>)
      requires Valid()
      modifies this
      ensures Valid()
      ensures !readFails && HasToken(store.entries) ==>
        State() == old(State()).(userId := Some(store.entries[UserIdKey])) && effects == []
      ensures !readFails && !HasToken(store.entries) ==>
        State() == old(State()) && effects == [Say(ErrorTitle, NotAuthenticatedText)]
      ensures readFails ==> State() == old(State()) && effects == []
    {
      var r := store.GetItem(UserIdKey, readFails);
      effects := [];
      if r.Value? {
        if !Present(r.item) {
          effects := [Say(ErrorTitle, NotAuthenticatedText)];
        } else {
          userId := r.item;
        }
      }
    }

    /**
     * `fetchProfile`, run when `userId` is set: without an id nothing happens
     * (and the spinner stays); otherwise the profile is requested, loaded
     * fields replace the form's, a failure only alerts, and loading ends
     * either way.
     */
    method FetchProfile(response: Fetched) returns (effects: seq<Effect>)
      requires Valid()
      modifies this
      ensures Valid()
      ensures !Present(old(userId)) ==> State() == old(State()) && effects == []
      ensures Present(old(userId)) ==>
        && !loading
        && |effects| >= 1
        && effects[0] == Send(Request(Get, "/user?id_user=" + old(userId).value, [], NoBody))
        && match ReadProfile(response)
           case Loaded(f) =>
             && effects == [effects[0]]
             && State() == old(State()).(firstName := f.firstName, lastName := f.lastName, login := f.login,
                                         experience := f.experience, hasExperience := f.hasExperience,
                                         loading := false)
           case LoadError(text) =>
             && effects == [effects[0], Alert(ErrorTitle, text)]
             && State() == old(State()).(loading := false)
    {
      if !Present(userId) {
        return [];
      }
      effects := [Send(Request(Get, "/user?id_user=" + userId.value, [], NoBody))];
      match ReadProfile(response) {
        case Loaded(f) =>
          firstName := f.firstName;
          lastName := f.lastName;
          login := f.login;
          experience := f.experience;
          hasExperience := f.hasExperience;
        case LoadError(text) =>
          effects := effects + [Alert(ErrorTitle, text)];
      }
      loading := false;
    }

    /**
     * `handleSave`: a failed check alerts and sends nothing; otherwise the five
     * fields are sent, and once an OK answer parses `hasExperience` is set if an
     * experience was entered. `hasExperience` never goes back to false.
     */
    method HandleSave(response: Fetched) returns (effects: seq<Effect>)
      requires Valid()
      modifies this
      ensures Valid()
      ensures old(hasExperience) ==> hasExperience
      ensures var v := SaveCheck(old(password), old(confirm), old(experience));
        && (v.Reject? ==> effects == [Say(ErrorTitle, v.message)] && State() == old(State()))
        && (v.Accept? ==>
              && effects == [Send(Request(Put, "/update_user", [], JsonBody(SaveBody(old(State()))))), SaveAlert(response)]
              && State() == old(State()).(hasExperience :=
                   old(hasExperience) || (Parsed(response) && Truthy(old(experience)))))
    {
      var verdict := SaveCheck(password, confirm, experience);
      if verdict.Reject? {
        return [Say(ErrorTitle, verdict.message)];
      }
      effects := [Send(Request(Put, "/update_user", [], JsonBody(SaveBody(State()))))];
      if Parsed(response) && Truthy(experience) {
        hasExperience := true;
      }
      effects := effects + [SaveAlert(response)];
    }
  }
}
