/**
 * The statistics screen: three filters, a query built from them, a chart of
 * the server's series, and the list of diagnosis classes for the picker.
 */
module StatsScreen {
  import opened Wrappers
  import opened Js
  import opened Net
  import opened Storage

  /** The filter object: diagnosis, start date and end date, in that key order. */
  datatype Filters = Filters(diagnosis: JsValue, startDate: JsValue, endDate: JsValue)

  const NoFilters := Filters(Str(""), Str(""), Str(""))

  /** `Object.entries(filters)` */
  function FilterEntries(f: Filters): seq<(string, JsValue)> {
    [("diagnosis", f.diagnosis), ("start_date", f.startDate), ("end_date", f.endDate)]
  }

  /** The test `value || value === ""` a filter value must pass to be appended. */
  predicate Appendable(v: JsValue) {
    Truthy(v) || v == Str("")
  }

  /** The query pairs a run of filter entries contributes: each appendable value, in order, as a string. */
  function Kept(entries: seq<(string, JsValue)>): seq<(string, string)> {
    if entries == [] then []
    else
      var last := entries[|entries| - 1];
      Kept(entries[..|entries| - 1]) + (if Appendable(last.1) then [(last.0, ToStr(last.1))] else [])
  }

  /** Every string passes the test, the empty one included, so string filters are all kept. */
  lemma {:induction false} KeptAllStrings(entries: seq<(string, JsValue)>)
    requires forall i :: 0 <= i < |entries| ==> entries[i].1.Str?
    ensures |Kept(entries)| == |entries|
    ensures forall i :: 0 <= i < |entries| ==> Kept(entries)[i] == (entries[i].0, entries[i].1.s)
  {
    if entries != [] {
      var init := entries[..|entries| - 1];
      KeptAllStrings(init);
    }
  }

  /**
   * The loop of `fetchStats` that fills a `URLSearchParams`: `id_user` first,
   * then every appendable filter, in key order.
   */
  method BuildParams(userId: string, filters: Filters) returns (params: seq<(string, string)>)
    ensures params == [("id_user", userId)] + Kept(FilterEntries(filters))
  {
    params := [("id_user", userId)];
    var entries := FilterEntries(filters);
    var i := 0;
    while i < |entries|
      invariant 0 <= i <= |entries|
      invariant params == [("id_user", userId)] + Kept(entries[..i])
    {
      var (key, value) := entries[i];
      if Appendable(value) {
        params := params + [(key, ToStr(value))];
      }
      assert entries[..i + 1][..i] == entries[..i];
      i := i + 1;
    }
    assert entries[..|entries|] == entries;
  }

  /** With string filters, the query always has all four keys, empty ones included. */
  lemma StringFiltersQuery(userId: string, d: string, start: string, end: string)
    ensures [("id_user", userId)] + Kept(FilterEntries(Filters(Str(d), Str(start), Str(end)))) ==
      [("id_user", userId), ("diagnosis", d), ("start_date", start), ("end_date", end)]
  {
    var entries := FilterEntries(Filters(Str(d), Str(start), Str(end)));
    KeptAllStrings(entries);
  }

  /** One entry of the diagnosis picker. */
  datatype Diagnosis = Diagnosis(id: string, name: JsValue)

  /** `Object.entries(classes).map(([id, name]) => ({ id, name }))` */
  function FormatDiagnoses(entries: seq<(string, JsValue)>): (r: seq<Diagnosis>)
    ensures |r| == |entries|
    ensures forall i :: 0 <= i < |r| ==> r[i].id == entries[i].0 && r[i].name == entries[i].1
  {
    if entries == [] then []
    else [Diagnosis(entries[0].0, entries[0].1)] + FormatDiagnoses(entries[1..])
  }

  /** The check `data.classes && typeof data.classes === "object"`. */
  predicate IsClassMap(v: JsValue) {
    Truthy(v) && IsObjectType(v)
  }

  /** The label of one chart point: its date if set, else its diagnosis. */
  function Label(point: JsValue): JsValue {
    Or(Prop(point, "date"), Prop(point, "diagnosis"))
  }

  /**
   * `chartData.map(d => d.date || d.diagnosis)` and `chartData.map(d => d.count)`
   * together; None when some point is nullish, where the map throws.
   */
  function Series(points: seq<JsValue>): (r: Option<(seq<JsValue>, seq<JsValue>)>)
    ensures r.Some? <==> forall i :: 0 <= i < |points| ==> !Nullish(points[i])
    ensures r.Some? ==> |r.value.0| == |points| && |r.value.1| == |points|
    ensures r.Some? ==> forall i :: 0 <= i < |points| ==>
      r.value.0[i] == Label(points[i]) && r.value.1[i] == Prop(points[i], "count")
  {
    if points == [] then Some(([], []))
    else if Nullish(points[0]) then None
    else
      match Series(points[1..])
      case None => None
      case Some(rest) => Some(([Label(points[0])] + rest.0, [Prop(points[0], "count")] + rest.1))
  }

  /** What `renderChart` shows. */
  datatype Chart = NoChart | Plot(labels: seq<JsValue>, counts: seq<JsValue>) | RenderError

  /**
   * `renderChart`: nothing when `chartData.length === 0`; otherwise one label
   * and one count per point. Anything that is not an array of non-null points
   * makes the render throw.
   */
  function ChartOf(chartData: JsValue): (c: Chart)
    ensures c == NoChart <==>
      chartData == Arr([]) || chartData == Str("")
      || (chartData.Obj? && Lookup(chartData.props, "length") == Num(0))
    ensures c.Plot? ==>
      chartData.Arr? && |chartData.items| > 0 && Series(chartData.items) == Some((c.labels, c.counts))
    ensures chartData.Arr? && |chartData.items| > 0 ==>
      (c.Plot? <==> forall i :: 0 <= i < |chartData.items| ==> !Nullish(chartData.items[i]))
  {
    match chartData
    case Arr(points) =>
      if |points| == 0 then NoChart
      else (
        match Series(points)
        case None => RenderError
        case Some(series) => Plot(series.0, series.1))
    case Str(s) => if s == "" then NoChart else RenderError
    case Obj(props) => if Lookup(props, "length") == Num(0) then NoChart else RenderError
    case _ => RenderError
  }

  /** The screen's state cells, as one value (the pickers' visibility is left out). */
  datatype StatsState = StatsState(
    filters: Filters,
    diagnoses: seq<Diagnosis>,
    chartData: JsValue,
    mode: JsValue,
    userId: Option<string>)

  class Stats {
    var filters: Filters
    var diagnoses: seq<Diagnosis>
    var chartData: JsValue
    var mode: JsValue
    var userId: Option<string>

    function State(): StatsState
      reads this
    {
      StatsState(filters, diagnoses, chartData, mode, userId)
    }

    /** What the chart area shows now. */
    function Rendered(): Chart
      reads this
    {
      ChartOf(chartData)
    }

    constructor ()
      ensures State() == StatsState(NoFilters, [], Arr([]), Str("by_diagnosis"), None)
      ensures Rendered() == NoChart
    {
      filters := NoFilters;
      diagnoses := [];
      chartData := Arr([]);
      mode := Str("by_diagnosis");
      userId := None;
    }

    /** `loadUserId`, on mount: only a stored, non-empty id is kept; a failed read changes nothing. */
    method LoadUserId(store: KeyValueStore, readFails: bool)
      modifies this
      ensures !readFails && HasToken(store.entries) ==>
        State() == old(State()).(userId := Some(store.entries[UserIdKey]))
      ensures readFails || !HasToken(store.entries) ==> State() == old(State())
    {
      var r := store.GetItem(UserIdKey, readFails);
      if r.Value? && Present(r.item) {
        userId := r.item;
      }
    }

    /**
     * `fetchDiagnoses`, on mount: the class list is requested; a class map in
     * the answer replaces the diagnoses, one per entry in entry order; anything
     * else changes nothing.
     */
    method FetchDiagnoses(response: AxiosResult) returns (effects: seq<Effect>)
      modifies this
      ensures effects == [Send(Request(Get, "/get_classes", [], NoBody))]
      ensures response.AxiosResponse? && !Nullish(response.data) && IsClassMap(Prop(response.data, "classes")) ==>
        State() == old(State()).(diagnoses := FormatDiagnoses(Entries(Prop(response.data, "classes"))))
      ensures !(response.AxiosResponse? && !Nullish(response.data) && IsClassMap(Prop(response.data, "classes"))) ==>
        State() == old(State())
    {
      effects := [Send(Request(Get, "/get_classes", [], NoBody))];
      if response.AxiosResponse? {
        match Member(response.data, "classes")
        case None =>
        case Some(classes) =>
          if IsClassMap(classes) {
            diagnoses := FormatDiagnoses(Entries(classes));
          }
      }
    }

    /**
     * `fetchStats`: without an id nothing is requested and nothing changes;
     * otherwise the query is sent, and an answer with a body replaces `mode`
     * and `chartData` together, while a failure leaves both as they were.
     */
    method FetchStats(response: AxiosResult) returns (effects: seq<Effect>)
      modifies this
      ensures !Present(old(userId)) ==> effects == [] && State() == old(State())
      ensures Present(old(userId)) ==>
        effects == [Send(Request(Get, "/stats", [("id_user", old(userId).value)] + Kept(FilterEntries(old(filters))), NoBody))]
      ensures Present(old(userId)) && response.AxiosResponse? && !Nullish(response.data) ==>
        State() == old(State()).(mode := Prop(response.data, "mode"), chartData := Prop(response.data, "data"))
      ensures !(Present(old(userId)) && response.AxiosResponse? && !Nullish(response.data)) ==>
        State() == old(State())
    {
      if !Present(userId) {
        return [];
      }
      var params := BuildParams(userId.value, filters);
      effects := [Send(Request(Get, "/stats", params, NoBody))];
      if response.AxiosResponse? && !Nullish(response.data) {
        mode := Prop(response.data, "mode");
        chartData := Prop(response.data, "data");
      }
    }

    /** `handleClearFilters`: all three filters empty, no chart; mode and diagnoses stay. */
    method HandleClearFilters()
      modifies this
      ensures State() == old(State()).(filters := NoFilters, chartData := Arr([]))
      ensures Rendered() == NoChart
    {
      filters := NoFilters;
      chartData := Arr([]);
    }

    /** The diagnosis picker's `onValueChange`: the other filters stay. */
    method SelectDiagnosis(value: JsValue)
      modifies this
      ensures State() == old(State()).(filters := old(filters).(diagnosis := value))
    {
      filters := filters.(diagnosis := value);
    }

    /** The start date picker's `onChange`: a cancelled picker changes nothing. */
    method PickStartDate(selected: Option<string>)
      modifies this
      ensures selected.None? ==> State() == old(State())
      ensures selected.Some? ==> State() == old(State()).(filters := old(filters).(startDate := Str(selected.value)))
    {
      if selected.Some? {
        filters := filters.(startDate := Str(selected.value));
      }
    }

    /** The end date picker's `onChange`: a cancelled picker changes nothing. */
    method PickEndDate(selected: Option<string>)
      modifies this
      ensures selected.None? ==> State() == old(State())
      ensures selected.Some? ==> State() == old(State()).(filters := old(filters).(endDate := Str(selected.value)))
    {
      if selected.Some? {
        filters := filters.(endDate := Str(selected.value));
      }
    }
  }

  /**
   * Filters {diagnosis: "", start_date: "2024-01-01", end_date: ""} for user "7":
   * every key is sent, the empty ones as empty strings.
   */
  method StartDateOnlyQuery() returns (params: seq<(string, string)>)
    ensures params == [("id_user", "7"), ("diagnosis", ""), ("start_date", "2024-01-01"), ("end_date", "")]
  {
    params := BuildParams("7", Filters(Str(""), Str("2024-01-01"), Str("")));
    StringFiltersQuery("7", "", "2024-01-01", "");
  }
}
