/**
 * The home screen: the user's event list, fetched whenever the screen gains
 * focus and on pull-to-refresh. Failures are only logged; the list shown
 * changes only when a list arrives.
 */
module HomeScreen {
  import opened Wrappers
  import opened Js
  import opened Net
  import opened Storage

  /** Where a user's events are listed. */
  function EventsPath(userId: string): string {
    "/user/" + userId + "/request"
  }

  /**
   * One run of `fetchData` over the stored entries, the storage's and the
   * server's answers and the list shown before: the effects it has and the list
   * shown after. It never alerts; it requests only when a non-empty id is
   * stored and read; the list changes only to an OK, parsed answer, wholesale.
   */
  function Refresh(entries: map<string, string>, readFails: bool, response: Fetched, data: JsValue): (r: (seq<Effect>, JsValue))
    ensures Silent(r.0) && |r.0| <= 1
    ensures r.0 != [] <==> !readFails && HasToken(entries)
    ensures r.0 != [] ==> r.0[0] == Send(Request(Get, EventsPath(entries[UserIdKey]), [], NoBody))
    ensures r.0 != [] && response.Response? && response.ok && response.body.Json? ==> r.1 == response.body.value
    ensures !(r.0 != [] && response.Response? && response.ok && response.body.Json?) ==> r.1 == data
  {
    if readFails || !HasToken(entries) then ([], data)
    else
      var sent := [Send(Request(Get, EventsPath(entries[UserIdKey]), [], NoBody))];
      match response
      case Response(true, Json(list)) => (sent, list)
      case _ => (sent, data)
  }

  class Home {
    var data: JsValue
    var refreshing: bool

    /** The list starts empty and not refreshing. */
    constructor ()
      ensures data == Arr([]) && !refreshing
    {
      data := Arr([]);
      refreshing := false;
    }

    /** `fetchData` */
    method FetchData(store: KeyValueStore, readFails: bool, response: Fetched) returns (effects: seq<Effect>)
      modifies this
      ensures (effects, data) == Refresh(store.entries, readFails, response, old(data))
      ensures refreshing == old(refreshing)
    {
      var r := store.GetItem(UserIdKey, readFails);
      if r.ReadFailed? || !Present(r.item) {
        return [];
      }
      var userId := r.item.value;
      effects := [Send(Request(Get, EventsPath(userId), [], NoBody))];
      if response.Response? && response.ok && response.body.Json? {
        data := response.body.value;
      }
    }

    /** The focus effect: a fetch when the screen gains focus, nothing when it loses it. */
    method FocusChanged(isFocused: bool, store: KeyValueStore, readFails: bool, response: Fetched) returns (effects: seq<Effect>)
      modifies this
      ensures !isFocused ==> effects == [] && data == old(data)
      ensures isFocused ==> (effects, data) == Refresh(store.entries, readFails, response, old(data))
      ensures refreshing == old(refreshing)
    {
      effects := [];
      if isFocused {
        effects := FetchData(store, readFails, response);
      }
    }

    /**
     * `onRefresh`: the indicator is on while the fetch runs and off afterwards,
     * whether the fetch succeeded or not.
     */
    method OnRefresh(store: KeyValueStore, readFails: bool, response: Fetched) returns (effects: seq<Effect>)
      modifies this
      ensures var (fetched, list) := Refresh(store.entries, readFails, response, old(data));
        effects == [Busy(true)] + fetched + [Busy(false)] && data == list
      ensures !refreshing
    {
      refreshing := true;
      var fetched := FetchData(store, readFails, response);
      refreshing := false;
      effects := [Busy(true)] + fetched + [Busy(false)];
    }
  }
}
