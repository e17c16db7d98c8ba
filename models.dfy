/** The event model the plugin pipeline works on: an event with a type, a tag
    set, a data dictionary holding the known payloads (user identity, request
    info, environment info, error records) under fixed keys, and an optional
    reference id. */
module Models {

  datatype Option<+T> = None | Some(value: T)

  /** The event types the client knows; any other type string is `Custom`,
      and an event whose type was never set is `Untyped`. */
  datatype EventType =
    | Untyped | Error | FeatureUsage | Log | NotFound
    | Session | SessionEnd | SessionHeartbeat
    | Custom(name: string)

  /** Session-lifecycle types: session start, session end and heartbeat. */
  predicate IsSessionType(t: EventType) {
    t.Session? || t.SessionEnd? || t.SessionHeartbeat?
  }

  /** A user identity: an identity string and a display name, either absent. */
  datatype UserInfo = UserInfo(identity: Option<string>, name: Option<string>)

  /** The part of the request info the core looks at. */
  datatype RequestInfo = RequestInfo(userAgent: Option<string>)

  /** A reference id: one supplied by the caller, or one the client generated
      (the serial number stands for a freshly generated unique identifier). */
  datatype ReferenceId = Assigned(text: string) | Generated(serial: nat)

  /** Values stored in event data, in error data and in exception `Data`
      dictionaries.  `Opaque` stands for any object the core never looks into
      (anonymous objects, GUIDs, structs, enums, collections). */
  datatype Value =
    | Text(s: string)
    | Number(n: int)
    | Flag(b: bool)
    | Opaque(description: string)
    | EnvironmentPayload(payload: nat)
    | UserPayload(user: UserInfo)
    | RequestPayload(request: RequestInfo)
    | ErrorPayload(error: ErrorRecord)
    | ExtraProperties(fields: seq<(string, Value)>)

  /** An error record as the error plugins build it from an exception: type,
      message, a data map and the record of the inner exception. */
  datatype ErrorRecord = ErrorRecord(
    typeName: string,
    message: string,
    data: map<string, Value>,
    inner: Option<ErrorRecord>)

  datatype Event = Event(
    eventType: EventType,
    message: Option<string>,
    tags: set<string>,
    data: map<string, Value>,
    referenceId: Option<ReferenceId>)

  // Known data keys of an event and of an error record.
  const ErrorKey := "@error"
  const SimpleErrorKey := "@simple_error"
  const UserKey := "@user"
  const RequestKey := "@request"
  const EnvironmentKey := "@environment"
  const VersionKey := "@version"
  const ExtraPropertiesKey := "@ext"

  /** An event as `new Event { Type = t }` creates it. */
  function NewEvent(t: EventType): (ev: Event)
    ensures ev.eventType == t && ev.message == None && ev.tags == {} && ev.data == map[] && ev.referenceId == None
  {
    Event(t, None, {}, map[], None)
  }

  predicate IsNullOrEmpty(s: Option<string>) {
    s == None || s == Some("")
  }

  /** The user identity stored in the event, if any. */
  function GetUserIdentity(ev: Event): (r: Option<UserInfo>)
    ensures r.Some? <==> UserKey in ev.data && ev.data[UserKey].UserPayload?
  {
    if UserKey in ev.data && ev.data[UserKey].UserPayload? then Some(ev.data[UserKey].user) else None
  }

  /** Stores a user identity; one with neither identity nor name removes it. */
  function SetUserIdentity(ev: Event, user: UserInfo): (r: Event)
    ensures r.eventType == ev.eventType && r.tags == ev.tags && r.referenceId == ev.referenceId
    ensures r.message == ev.message
    ensures IsNullOrEmpty(user.identity) && IsNullOrEmpty(user.name) ==> GetUserIdentity(r) == None
    ensures !(IsNullOrEmpty(user.identity) && IsNullOrEmpty(user.name)) ==> GetUserIdentity(r) == Some(user)
    ensures forall k :: k != UserKey ==> (k in r.data <==> k in ev.data)
    ensures forall k :: k != UserKey && k in ev.data ==> r.data[k] == ev.data[k]
  {
    if IsNullOrEmpty(user.identity) && IsNullOrEmpty(user.name) then
      ev.(data := ev.data - {UserKey})
    else
      ev.(data := ev.data[UserKey := UserPayload(user)])
  }

  /** The request info stored in the event, if any. */
  function GetRequestInfo(ev: Event): (r: Option<RequestInfo>)
    ensures r.Some? <==> RequestKey in ev.data && ev.data[RequestKey].RequestPayload?
  {
    if RequestKey in ev.data && ev.data[RequestKey].RequestPayload? then Some(ev.data[RequestKey].request) else None
  }

  /** Stores request info, replacing any earlier one. */
  function AddRequestInfo(ev: Event, request: RequestInfo): (r: Event)
    ensures GetRequestInfo(r) == Some(request)
    ensures r.eventType == ev.eventType && r.tags == ev.tags
    ensures r.message == ev.message && r.referenceId == ev.referenceId
    ensures r.data.Keys == ev.data.Keys + {RequestKey}
    ensures forall k :: k != RequestKey && k in ev.data ==> k in r.data && r.data[k] == ev.data[k]
  {
    ev.(data := ev.data[RequestKey := RequestPayload(request)])
  }

  /** Whether an error plugin attached an error record to the event. */
  predicate HasError(ev: Event) {
    (ErrorKey in ev.data && ev.data[ErrorKey].ErrorPayload?)
    || (SimpleErrorKey in ev.data && ev.data[SimpleErrorKey].ErrorPayload?)
  }
}
