/**
 * The declared constraints of the backend's data models. Each model is given two
 * forms: the input as it arrives (required fields that may be missing, values that
 * may have the wrong kind) and the validated record. A `Build…`/`Validate…`
 * function plays the part of the model's constructor: it returns the record, or
 * an error when a declared constraint fails.
 */
module Schemas {
  import opened Wrappers

  /** `value if present else default`: the default of a field that was not supplied. */
  function OrDefault<T>(o: Option<T>, default: T): (r: T)
    ensures o.Some? ==> r == o.value
    ensures o.None? ==> r == default
  {
    if o.Some? then o.value else default
  }

  // ---------------------------------------------------------------------------
  // SignalWindow: one window of wearable samples.

  /** One entry of `values`, which may or may not be a number. */
  datatype Sample = Number(x: real) | NotNumber

  /** The fields of a `SignalWindow` payload; `None` is a missing field. */
  datatype WindowInput = WindowInput(
    sensor: Option<string>,
    samplingRateHz: Option<real>,
    values: Option<seq<Sample>>,
    timestampUtc: Option<int>,
    extraFields: set<string>)

  datatype SignalWindow = SignalWindow(sensor: string, samplingRateHz: real, values: seq<real>, timestampUtc: int)

  const Sensors: set<string> := {"ppg", "eda", "acc"}
  const MinSamples := 32

  /** The constraint a window violates. */
  datatype WindowError = BadSensor | BadRate | NonNumeric | TooFewValues | MissingTimestamp | ExtraFields

  predicate AllNumeric(values: seq<Sample>)
  {
    forall k :: 0 <= k < |values| ==> values[k].Number?
  }

  /** The numbers of an all-numeric list, in order. */
  function Numbers(values: seq<Sample>): (r: seq<real>)
    requires AllNumeric(values)
    ensures |r| == |values| && forall k :: 0 <= k < |values| ==> r[k] == values[k].x
  {
    seq(|values|, k requires 0 <= k < |values| => values[k].x)
  }

  /**
   * The `ensure_numeric` validator: a scan of `values` that changes nothing and
   * fails at the first entry that is not a number.
   */
  method EnsureNumeric(values: seq<Sample>) returns (r: Result<seq<Sample>, string>)
    ensures r.Ok? <==> AllNumeric(values)
    ensures r.Ok? ==> r.value == values
    ensures r.Err? ==> r.error == "SignalWindow values must be numeric."
  {
    for k := 0 to |values|
      invariant forall j :: 0 <= j < k ==> values[j].Number?
    {
      if !values[k].Number? {
        return Err("SignalWindow values must be numeric.");
      }
    }
    return Ok(values);
  }

  /** A `SignalWindow` payload is valid: every declared constraint holds and no other field is present. */
  predicate ValidWindow(w: WindowInput)
  {
    && w.sensor.Some? && w.sensor.value in Sensors
    && w.samplingRateHz.Some? && w.samplingRateHz.value > 0.0
    && w.values.Some? && AllNumeric(w.values.value) && |w.values.value| >= MinSamples
    && w.timestampUtc.Some?
    && w.extraFields == {}
  }

  /** The violated constraints of a window. */
  function WindowErrors(w: WindowInput): (errs: set<WindowError>)
    ensures BadSensor in errs <==> !(w.sensor.Some? && w.sensor.value in Sensors)
    ensures BadRate in errs <==> !(w.samplingRateHz.Some? && w.samplingRateHz.value > 0.0)
    ensures NonNumeric in errs <==> w.values.Some? && !AllNumeric(w.values.value)
    ensures TooFewValues in errs <==> w.values.None? || (AllNumeric(w.values.value) && |w.values.value| < MinSamples)
    ensures MissingTimestamp in errs <==> w.timestampUtc.None?
    ensures ExtraFields in errs <==> w.extraFields != {}
    ensures errs == {} <==> ValidWindow(w)
  {
    var sensor: set<WindowError> := if w.sensor.Some? && w.sensor.value in Sensors then {} else {BadSensor};
    var rate: set<WindowError> := if w.samplingRateHz.Some? && w.samplingRateHz.value > 0.0 then {} else {BadRate};
    var values: set<WindowError> :=
      if w.values.None? then {TooFewValues}
      else if !AllNumeric(w.values.value) then {NonNumeric}
      else if |w.values.value| < MinSamples then {TooFewValues}
      else {};
    var stamp: set<WindowError> := if w.timestampUtc.Some? then {} else {MissingTimestamp};
    var extra: set<WindowError> := if w.extraFields == {} then {} else {ExtraFields};
    sensor + rate + values + stamp + extra
  }

  /** `SignalWindow(**payload)`. */
  function ValidateWindow(w: WindowInput): (r: Result<SignalWindow, set<WindowError>>)
    ensures r.Ok? <==> ValidWindow(w)
    ensures r.Ok? ==> r.value.sensor == w.sensor.value && r.value.sensor in Sensors
    ensures r.Ok? ==> r.value.samplingRateHz == w.samplingRateHz.value > 0.0
    ensures r.Ok? ==> |r.value.values| == |w.values.value| >= MinSamples
    ensures r.Ok? ==> forall k :: 0 <= k < |r.value.values| ==> w.values.value[k] == Number(r.value.values[k])
    ensures r.Err? ==> r.error != {} && r.error == WindowErrors(w)
  {
    var errs := WindowErrors(w);
    if errs == {} then
      Ok(SignalWindow(w.sensor.value, w.samplingRateHz.value, Numbers(w.values.value), w.timestampUtc.value))
    else Err(errs)
  }

  // ---------------------------------------------------------------------------
  // StressInferenceRequest: a user and at least one window.

  /** The `metadata` field as given: absent or `None`, a dictionary of strings, or any other value. */
  datatype Metadata = NoMetadata | StringMap(entries: map<string, string>) | IllTypedMetadata

  datatype RequestInput = RequestInput(userId: Option<string>, windows: Option<seq<WindowInput>>, metadata: Metadata)

  datatype StressInferenceRequest = StressInferenceRequest(userId: string, windows: seq<SignalWindow>, metadata: Option<map<string, string>>)

  predicate ValidRequest(q: RequestInput)
  {
    q.userId.Some? && q.windows.Some? && |q.windows.value| >= 1 && !q.metadata.IllTypedMetadata?
    && forall k :: 0 <= k < |q.windows.value| ==> ValidWindow(q.windows.value[k])
  }

  /** `StressInferenceRequest(**payload)`: `metadata` is optional, but when given it must map strings to strings. */
  function ValidateRequest(q: RequestInput): (r: Result<StressInferenceRequest, string>)
    ensures r.Ok? <==> ValidRequest(q)
    ensures r.Ok? ==> r.value.userId == q.userId.value && |r.value.windows| == |q.windows.value| >= 1
    ensures r.Ok? ==> forall k :: 0 <= k < |r.value.windows| ==> ValidateWindow(q.windows.value[k]) == Ok(r.value.windows[k])
    ensures r.Ok? ==> r.value.metadata == if q.metadata.StringMap? then Some(q.metadata.entries) else None
  {
    if ValidRequest(q) then
      var ws := q.windows.value;
      var md := if q.metadata.StringMap? then Some(q.metadata.entries) else None;
      Ok(StressInferenceRequest(q.userId.value, seq(|ws|, k requires 0 <= k < |ws| && ValidWindow(ws[k]) => ValidateWindow(ws[k]).value), md))
    else Err("invalid StressInferenceRequest")
  }

  // ---------------------------------------------------------------------------
  // StressInferenceResult: what the physiology model returns.

  datatype StressInferenceResult = StressInferenceResult(
    userId: string,
    stressProb: real,
    confidence: real,
    interpretation: string,
    recommendedAction: string,
    modelVersion: string,
    features: map<string, real>)

  const Actions: set<string> := {"monitor", "reach_out", "escalate"}

  predicate UnitInterval(x: real) { 0.0 <= x <= 1.0 }

  /** The declared bounds of a result. */
  predicate ValidResult(r: StressInferenceResult)
  {
    UnitInterval(r.stressProb) && UnitInterval(r.confidence) && r.recommendedAction in Actions
  }

  /** `StressInferenceResult(...)`: the record, or an error when a bound is violated. */
  function BuildResult(r: StressInferenceResult): (out: Result<StressInferenceResult, string>)
    ensures out.Ok? <==> UnitInterval(r.stressProb) && UnitInterval(r.confidence) && r.recommendedAction in Actions
    ensures out.Ok? ==> out.value == r
  {
    if ValidResult(r) then Ok(r) else Err("invalid StressInferenceResult")
  }

  // ---------------------------------------------------------------------------
  // MindcareExchange, PatientPreference, CalendarActionProposal, TaskRecommendation.

  datatype MindcareExchange = MindcareExchange(userId: string, role: string, message: string, timestampUtc: int)

  /** `MindcareExchange(...)`; the clock reading used for a missing timestamp is a parameter. */
  function BuildExchange(userId: string, role: string, message: string, timestampUtc: Option<int>, now: int): (r: Result<MindcareExchange, string>)
    ensures r.Ok? <==> role in {"user", "agent"}
    ensures r.Ok? ==> r.value.userId == userId && r.value.role == role && r.value.message == message
    ensures r.Ok? ==> r.value.timestampUtc == if timestampUtc.Some? then timestampUtc.value else now
  {
    if role in {"user", "agent"} then Ok(MindcareExchange(userId, role, message, OrDefault(timestampUtc, now)))
    else Err("invalid role")
  }

  datatype PatientPreference = PatientPreference(
    userId: string,
    prefersVoice: bool,
    favoriteTechnique: Option<string>,
    recentTriggers: seq<string>)

  /** `PatientPreference(user_id=..., ...)`: fields not supplied take their declared defaults. */
  function BuildPreference(userId: string, prefersVoice: Option<bool>, favoriteTechnique: Option<Option<string>>,
                           recentTriggers: Option<seq<string>>): (r: PatientPreference)
    ensures r.userId == userId
    ensures prefersVoice.None? ==> !r.prefersVoice
    ensures favoriteTechnique.None? ==> r.favoriteTechnique.None?
    ensures recentTriggers.None? ==> r.recentTriggers == []
    ensures prefersVoice.Some? ==> r.prefersVoice == prefersVoice.value
    ensures favoriteTechnique.Some? ==> r.favoriteTechnique == favoriteTechnique.value
    ensures recentTriggers.Some? ==> r.recentTriggers == recentTriggers.value
  {
    PatientPreference(userId, OrDefault(prefersVoice, false), OrDefault(favoriteTechnique, None), OrDefault(recentTriggers, []))
  }

  /** `PatientPreference(user_id=user_id)`: every other field at its default. */
  function DefaultPreference(userId: string): (r: PatientPreference)
    ensures r == PatientPreference(userId, false, None, [])
  {
    BuildPreference(userId, None, None, None)
  }

  datatype CalendarActionProposal = CalendarActionProposal(action: string, description: string, payload: map<string, FieldValue>, rationale: string)

  /** `CalendarActionProposal(...)`: every field is required; `payload` is any dictionary. */
  function BuildProposal(action: string, description: string, payload: Option<map<string, FieldValue>>, rationale: string): (r: Result<CalendarActionProposal, string>)
    ensures r.Ok? <==> action in {"create", "update", "delete"} && payload.Some?
    ensures r.Ok? ==> r.value == CalendarActionProposal(action, description, payload.value, rationale)
  {
    if action in {"create", "update", "delete"} && payload.Some? then Ok(CalendarActionProposal(action, description, payload.value, rationale))
    else Err("invalid CalendarActionProposal")
  }

  datatype TaskRecommendation = TaskRecommendation(channel: string, summary: string, deadline: Option<int>, requiresConfirmation: bool)

  /**
   * `TaskRecommendation(...)`. `deadline` is `Optional` but has no default, so it
   * must be supplied, possibly as `None`: the outer option is "supplied", the
   * inner one the value.
   */
  function BuildTaskRecommendation(channel: string, summary: string, deadline: Option<Option<int>>,
                                   requiresConfirmation: Option<bool>): (r: Result<TaskRecommendation, string>)
    ensures r.Ok? <==> channel in {"calendar", "asana", "todoist"} && deadline.Some?
    ensures r.Ok? ==> r.value.channel == channel && r.value.summary == summary && r.value.deadline == deadline.value
    ensures r.Ok? ==> r.value.requiresConfirmation == if requiresConfirmation.Some? then requiresConfirmation.value else true
  {
    if channel in {"calendar", "asana", "todoist"} && deadline.Some? then
      Ok(TaskRecommendation(channel, summary, deadline.value, OrDefault(requiresConfirmation, true)))
    else Err("invalid TaskRecommendation")
  }

  // ---------------------------------------------------------------------------
  // CalendarEvent, built from a field dictionary so that updates can be merged into it.

  /** A field value in a dictionary payload. Datetimes are instants, already parsed. */
  datatype FieldValue = Str(s: string) | Instant(t: int) | StrList(items: seq<string>) | Null | Other

  datatype CalendarEvent = CalendarEvent(
    eventId: string,
    title: string,
    startTime: int,
    endTime: int,
    attendees: seq<string>,
    location: Option<string>)

  predicate IsStr(data: map<string, FieldValue>, key: string) { key in data && data[key].Str? }
  predicate IsInstant(data: map<string, FieldValue>, key: string) { key in data && data[key].Instant? }

  /**
   * The payloads `CalendarEvent(**data)` accepts: the four required fields with the
   * right kinds, `attendees` absent or a list, `location` absent, `None` or a
   * string. Nothing relates the start to the end, and other keys are ignored.
   */
  predicate ValidEventData(data: map<string, FieldValue>)
  {
    && IsStr(data, "event_id") && IsStr(data, "title")
    && IsInstant(data, "start_time") && IsInstant(data, "end_time")
    && ("attendees" !in data || data["attendees"].StrList?)
    && ("location" !in data || data["location"].Null? || data["location"].Str?)
  }

  /** `CalendarEvent(**data)`. */
  function ParseEvent(data: map<string, FieldValue>): (r: Result<CalendarEvent, string>)
    ensures r.Ok? <==> ValidEventData(data)
    ensures r.Ok? ==> r.value.eventId == data["event_id"].s && r.value.title == data["title"].s
    ensures r.Ok? ==> r.value.startTime == data["start_time"].t && r.value.endTime == data["end_time"].t
    ensures r.Ok? ==> r.value.attendees == if "attendees" in data then data["attendees"].items else []
    ensures r.Ok? ==> r.value.location == if "location" in data && data["location"].Str? then Some(data["location"].s) else None
  {
    if ValidEventData(data) then
      Ok(CalendarEvent(
        data["event_id"].s, data["title"].s, data["start_time"].t, data["end_time"].t,
        if "attendees" in data then data["attendees"].items else [],
        if "location" in data && data["location"].Str? then Some(data["location"].s) else None))
    else Err("invalid CalendarEvent")
  }

  /** `model_dump()` of an event: every field under its own key. */
  function DumpEvent(e: CalendarEvent): (data: map<string, FieldValue>)
    ensures data.Keys == {"event_id", "title", "start_time", "end_time", "attendees", "location"}
  {
    map["event_id" := Str(e.eventId), "title" := Str(e.title),
        "start_time" := Instant(e.startTime), "end_time" := Instant(e.endTime),
        "attendees" := StrList(e.attendees),
        "location" := if e.location.Some? then Str(e.location.value) else Null]
  }

  /** Dumping an event and validating the dump gives the event back. */
  lemma ParseDumpEvent(e: CalendarEvent)
    ensures ParseEvent(DumpEvent(e)) == Ok(e)
  {
  }

  /** Only the required fields are needed; the defaults are an empty attendee list and no location. */
  lemma EventDefaults(eventId: string, title: string, start: int, end: int)
    ensures ParseEvent(map["event_id" := Str(eventId), "title" := Str(title), "start_time" := Instant(start), "end_time" := Instant(end)])
            == Ok(CalendarEvent(eventId, title, start, end, [], None))
  {
  }
}
