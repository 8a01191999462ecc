/**
 * The realtime client: hub URL resolution, the reconnect back-off, the mapping
 * of the three inbound server events to notifications, and the lifecycle of the
 * one client object (`connection` and `connected`, started behind a health probe).
 */
module SignalR {
  import opened Options
  import opened Js
  import opened Notifications

  // ---------------------------------------------------------------- hub URL

  /** The two build-time settings the client reads; `None` is an unset variable. */
  datatype Env = Env(apiUrl: Option<string>, signalRUrl: Option<string>)

  const DefaultApiUrl: string := "http://localhost:3001/api"
  const HubPath: string := "/chathub"

  /** `VITE_API_URL || 'http://localhost:3001/api'`: an unset or empty setting falls back. */
  function ApiBase(env: Env): (base: string)
    ensures env.apiUrl.Some? && env.apiUrl.value != "" ==> base == env.apiUrl.value
    ensures env.apiUrl.None? || env.apiUrl.value == "" ==> base == DefaultApiUrl
  {
    if env.apiUrl.Some? && env.apiUrl.value != "" then env.apiUrl.value else DefaultApiUrl
  }

  predicate EndsWithApi(s: string)
  {
    |s| >= 4 && s[|s| - 4..] == "/api"
  }

  /** `s.replace(/\/api$/, '')`: removes one `/api` at the very end, if there is one. */
  function StripApi(s: string): (r: string)
    ensures EndsWithApi(s) ==> r + "/api" == s
    ensures !EndsWithApi(s) ==> r == s
  {
    if EndsWithApi(s) then s[..|s| - 4] else s
  }

  /** `DEFAULT_HUB`: the API base without its trailing `/api`, followed by `/chathub`. */
  function DefaultHub(base: string): (hub: string)
    ensures |hub| >= |HubPath| && hub[|hub| - |HubPath|..] == HubPath
    ensures EndsWithApi(base) ==> hub[..|hub| - |HubPath|] + "/api" == base
    ensures !EndsWithApi(base) ==> hub[..|hub| - |HubPath|] == base
  {
    var hub := StripApi(base) + HubPath;
    assert hub[..|hub| - |HubPath|] == StripApi(base);
    hub
  }

  /** `HUB_URL`: an explicit, non-empty `VITE_SIGNALR_URL` wins over the default hub. */
  function HubUrl(env: Env): (url: string)
    ensures env.signalRUrl.Some? && env.signalRUrl.value != "" ==> url == env.signalRUrl.value
    ensures env.signalRUrl.None? || env.signalRUrl.value == "" ==> url == DefaultHub(ApiBase(env))
  {
    if env.signalRUrl.Some? && env.signalRUrl.value != "" then env.signalRUrl.value
    else DefaultHub(ApiBase(env))
  }

  /** Exactly one trailing `/api` is removed: `b + "/api"` becomes `b + "/chathub"`, whatever `b` ends with. */
  lemma DefaultHubReplacesApi(b: string)
    ensures DefaultHub(b + "/api") == b + HubPath
  {
    assert EndsWithApi(b + "/api");
    assert (b + "/api")[..|b|] == b;
  }

  /** With no settings at all the hub is the local backend's `/chathub`. */
  lemma DefaultSettingsHub()
    ensures HubUrl(Env(None, None)) == "http://localhost:3001/chathub"
  {
    DefaultHubReplacesApi("http://localhost:3001");
  }

  // ---------------------------------------------------------------- back-off

  const BaseDelayMs: int := 1000
  const MaxDelayMs: int := 10000

  function Pow2(n: nat): (r: nat)
    ensures r >= 1
  {
    if n == 0 then 1 else 2 * Pow2(n - 1)
  }

  lemma {:induction false} Pow2Monotone(m: nat, n: nat)
    requires m <= n
    ensures Pow2(m) <= Pow2(n)
    decreases n
  {
    if m < n {
      Pow2Monotone(m, n - 1);
    }
  }

  /** `nextRetryDelayInMilliseconds`: `min(1000 * 2^previousRetryCount, 10000)`. */
  function RetryDelay(previousRetryCount: nat): (ms: int)
    ensures BaseDelayMs <= ms <= MaxDelayMs
    ensures ms == MaxDelayMs || ms == BaseDelayMs * Pow2(previousRetryCount)
  {
    var uncapped := BaseDelayMs * Pow2(previousRetryCount);
    if uncapped < MaxDelayMs then uncapped else MaxDelayMs
  }

  /** The first retries wait 1, 2, 4 and 8 seconds. */
  lemma RetryDelayFirstValues()
    ensures RetryDelay(0) == 1000 && RetryDelay(1) == 2000
    ensures RetryDelay(2) == 4000 && RetryDelay(3) == 8000
  {
  }

  /** From the fifth retry on the delay is the 10-second ceiling. */
  lemma RetryDelayCapped(n: nat)
    requires n >= 4
    ensures RetryDelay(n) == MaxDelayMs
  {
    Pow2Monotone(4, n);
  }

  /** Later retries never wait less than earlier ones. */
  lemma RetryDelayMonotone(m: nat, n: nat)
    requires m <= n
    ensures RetryDelay(m) <= RetryDelay(n)
  {
    Pow2Monotone(m, n);
  }

  // ---------------------------------------------------------------- inbound events

  const NotificationReceived: string := "NotificationReceived"
  const VisitUpdated: string := "VisitUpdated"
  const PetRecordChanged: string := "PetRecordChanged"

  /** The events `registerHandlers` subscribes to, in registration order. */
  const HandlerTable: seq<string> := [NotificationReceived, VisitUpdated, PetRecordChanged]

  const DefaultMessage: string := "Naujas pranešimas"
  const VisitPrefix: string := "Vizitas atnaujintas: "
  const PetPrefix: string := "Gyvūno duomenys atnaujinti: "

  /** An event argument: an object with some properties, or any non-object value
    * (`null`, `undefined`, a primitive), whose properties all read as `undefined`. */
  datatype Payload = NonObject | Object(fields: map<string, JsValue>)

  /** `payload?.key` (and the property a destructuring pattern reads). */
  function Field(p: Payload, key: string): (v: JsValue)
    ensures p.NonObject? ==> v == Undefined
  {
    if p.Object? && key in p.fields then p.fields[key] else Undefined
  }

  /** The `switch (type)` of the generic handler: three names pick their severity, anything else is info. */
  function SeverityOfType(t: JsValue): (s: Severity)
    ensures s == Success <==> t == Str("success")
    ensures s == Error <==> t == Str("error")
    ensures s == Warning <==> t == Str("warning")
  {
    if t == Str("success") then Success
    else if t == Str("error") then Error
    else if t == Str("warning") then Warning
    else Info
  }

  /** `NotificationReceived`: `type` defaults to `'info'` and `message` to the default text,
    * both only when `undefined`; `duration` is passed through unchanged. */
  function OnNotificationReceived(p: Payload): (n: Notification)
    ensures n.duration == Field(p, "duration")
    ensures Field(p, "message") == Undefined ==> n.message == Str(DefaultMessage)
    ensures Field(p, "message") != Undefined ==> n.message == Field(p, "message")
    ensures n.severity == Success <==> Field(p, "type") == Str("success")
    ensures n.severity == Error <==> Field(p, "type") == Str("error")
    ensures n.severity == Warning <==> Field(p, "type") == Str("warning")
  {
    var t := Field(p, "type");
    var m := Field(p, "message");
    var typ := if t == Undefined then Str("info") else t;
    var message := if m == Undefined then Str(DefaultMessage) else m;
    Notification(SeverityOfType(typ), message, Field(p, "duration"))
  }

  /** `VisitUpdated`: an info entry naming the doctor, or `gydytojas` when the name is falsy. */
  function OnVisitUpdated(p: Payload): (n: Notification)
    ensures n.severity == Info && n.duration == Undefined
    ensures !Truthy(Field(p, "doctorName")) ==> n.message == Str(VisitPrefix + "gydytojas")
    ensures Field(p, "doctorName").Str? && Field(p, "doctorName").s != "" ==> n.message == Str(VisitPrefix + Field(p, "doctorName").s)
    ensures Field(p, "doctorName").Num? && Field(p, "doctorName").n != 0 ==> n.message == Str(VisitPrefix + IntToString(Field(p, "doctorName").n))
    ensures Field(p, "doctorName") == Bool(true) ==> n.message == Str(VisitPrefix + "true")
  {
    var text := VisitPrefix + TextOr(Field(p, "doctorName"), "gydytojas");
    assert text[|VisitPrefix|..] == TextOr(Field(p, "doctorName"), "gydytojas");
    Plain(Info, text)
  }

  /** `PetRecordChanged`: an info entry naming the pet, or `augintinis` when the name is falsy. */
  function OnPetRecordChanged(p: Payload): (n: Notification)
    ensures n.severity == Info && n.duration == Undefined
    ensures !Truthy(Field(p, "name")) ==> n.message == Str(PetPrefix + "augintinis")
    ensures Field(p, "name").Str? && Field(p, "name").s != "" ==> n.message == Str(PetPrefix + Field(p, "name").s)
    ensures Field(p, "name").Num? && Field(p, "name").n != 0 ==> n.message == Str(PetPrefix + IntToString(Field(p, "name").n))
    ensures Field(p, "name") == Bool(true) ==> n.message == Str(PetPrefix + "true")
  {
    var text := PetPrefix + TextOr(Field(p, "name"), "augintinis");
    assert text[|PetPrefix|..] == TextOr(Field(p, "name"), "augintinis");
    Plain(Info, text)
  }

  /** The handler registered under each name of the table. */
  function Handle(event: string, p: Payload): Notification
    requires event in HandlerTable
  {
    if event == NotificationReceived then OnNotificationReceived(p)
    else if event == VisitUpdated then OnVisitUpdated(p)
    else OnPetRecordChanged(p)
  }

  /** What an inbound event produces on a connection with the given registrations:
    * one entry from the event's handler per registration under the event's name. */
  function Dispatch(handlers: seq<string>, event: string, p: Payload): (out: seq<Notification>)
    ensures event in HandlerTable ==> |out| == multiset(handlers)[event]
    ensures forall i :: 0 <= i < |out| ==> event in HandlerTable && out[i] == Handle(event, p)
    ensures event !in handlers ==> out == []
  {
    if event in HandlerTable then seq(multiset(handlers)[event], _ => Handle(event, p)) else []
  }

  /** With the handlers registered once, each known event yields exactly one entry and any other event none. */
  lemma DispatchOnce(event: string, p: Payload)
    ensures event in HandlerTable ==> Dispatch(HandlerTable, event, p) == [Handle(event, p)]
    ensures event !in HandlerTable ==> Dispatch(HandlerTable, event, p) == []
  {
    if event in HandlerTable {
      assert multiset(HandlerTable)[event] == 1;
    }
  }

  /** Registration is not idempotent: a connection with the handlers registered twice
    * reports each known event twice. */
  lemma DoubleRegistrationDoubles(event: string, p: Payload)
    requires event in HandlerTable
    ensures Dispatch(HandlerTable + HandlerTable, event, p) == [Handle(event, p), Handle(event, p)]
  {
    assert multiset(HandlerTable)[event] == 1;
    assert multiset(HandlerTable + HandlerTable) == multiset(HandlerTable) + multiset(HandlerTable);
  }

  /** A payload that is not an object gets both defaults of the generic handler. */
  lemma NonObjectNotification()
    ensures OnNotificationReceived(NonObject) == Notification(Info, Str(DefaultMessage), Undefined)
  {
  }

  // ---------------------------------------------------------------- lifecycle

  /** The built hub connection as far as this client configures it. */
  datatype Connection = Connection(url: string, accessToken: Option<string>, handlers: seq<string>)

  /** The health probe's outcome: a reply with its `success` flag, or a thrown error. */
  datatype Probe = Responded(success: bool) | Rejected {
    predicate Passed()
    {
      Responded? && success
    }
  }

  const HealthWarning: string := "API nepasiekiama, SignalR išjungtas"

  /** `token ? { accessTokenFactory: () => token } : undefined`: only a non-empty token is used. */
  function AccessToken(token: Option<string>): (t: Option<string>)
    ensures t.Some? <==> token.Some? && token.value != ""
    ensures t.Some? ==> t == token
  {
    if token.Some? && token.value != "" then token else None
  }

  class SignalRClient {
    const hubUrl: string
    const sink: NotificationSink
    var connection: Option<Connection>
    var connected: bool

    /** A connected client has a connection, and every connection was built for this hub with the three handlers. */
    ghost predicate Valid()
      reads this
    {
      (connected ==> connection.Some?) &&
      (connection.Some? ==> connection.value.url == hubUrl && connection.value.handlers == HandlerTable)
    }

    constructor (env: Env, sink: NotificationSink)
      ensures Valid()
      ensures hubUrl == HubUrl(env) && this.sink == sink
      ensures connection == None && !connected
    {
      hubUrl := HubUrl(env);
      this.sink := sink;
      connection := None;
      connected := false;
    }

    /** `registerHandlers`: subscribes the three handlers on the current connection, if any. */
    method RegisterHandlers()
      modifies this
      ensures old(connection).None? ==> connection == None
      ensures old(connection).Some? ==> connection == Some(old(connection).value.(handlers := old(connection).value.handlers + HandlerTable))
      ensures connected == old(connected)
    {
      if connection.None? {
        return;
      }
      connection := Some(connection.value.(handlers := connection.value.handlers + HandlerTable));
    }

    /** `start(token)`: a no-op when connected; otherwise the health probe gates building
      * and opening a new connection, and the open's outcome settles `connected`. */
    method Start(token: Option<string>, probe: Probe, openSucceeds: bool)
      requires Valid()
      modifies this, sink
      ensures Valid()
      ensures old(connected) ==> connected && connection == old(connection) && sink.entries == old(sink.entries)
      ensures !old(connected) && !probe.Passed() ==>
        !connected && connection == old(connection) &&
        sink.entries == old(sink.entries) + [Plain(Warning, HealthWarning)]
      ensures !old(connected) && probe.Passed() ==>
        connected == openSucceeds && connection == Some(Connection(hubUrl, AccessToken(token), HandlerTable)) &&
        sink.entries == old(sink.entries)
    {
      if connected {
        return;
      }
      if !probe.Passed() {
        sink.Add(Plain(Warning, HealthWarning));
        return;
      }
      connection := Some(Connection(hubUrl, AccessToken(token), []));
      RegisterHandlers();
      assert [] + HandlerTable == HandlerTable;
      connected := openSucceeds;
    }

    /** `stop()`: tears down a live connection, clearing both fields even when the
      * underlying stop fails (that failure is then passed on to the caller). */
    method Stop(stopFails: bool) returns (rejected: bool)
      requires Valid()
      modifies this
      ensures Valid()
      ensures old(connection.Some? && connected) ==> connection == None && !connected && rejected == stopFails
      ensures !old(connection.Some? && connected) ==>
        connection == old(connection) && connected == old(connected) && !rejected
    {
      rejected := false;
      if connection.Some? && connected {
        rejected := stopFails;
        connected := false;
        connection := None;
      }
    }

    /** The server pushes `event` with argument `p`; it reaches the handlers of an open connection. */
    method Receive(event: string, p: Payload)
      requires Valid()
      modifies sink
      ensures connected && event in HandlerTable ==> sink.entries == old(sink.entries) + [Handle(event, p)]
      ensures !connected || event !in HandlerTable ==> sink.entries == old(sink.entries)
    {
      if connected {
        DispatchOnce(event, p);
        var out := Dispatch(connection.value.handlers, event, p);
        sink.entries := sink.entries + out;
      }
    }
  }

  // ---------------------------------------------------------------- scenarios

  /** Probe and open succeed, then the server pushes `NotificationReceived{type: "error", message: "X"}`:
    * the sink holds exactly one error entry with message "X". */
  method ErrorPushScenario() returns (entries: seq<Notification>)
    ensures entries == [Notification(Error, Str("X"), Undefined)]
  {
    var sink := new NotificationSink();
    var client := new SignalRClient(Env(None, None), sink);
    client.Start(None, Responded(true), true);
    client.Receive(NotificationReceived, Object(map["type" := Str("error"), "message" := Str("X")]));
    entries := sink.entries;
  }

  /** The probe fails: no connection, not connected, one warning and nothing else. */
  method FailedProbeScenario(probe: Probe, openSucceeds: bool) returns (entries: seq<Notification>, hasConnection: bool, isConnected: bool)
    requires !probe.Passed()
    ensures entries == [Plain(Warning, HealthWarning)]
    ensures !hasConnection && !isConnected
  {
    var sink := new NotificationSink();
    var client := new SignalRClient(Env(None, None), sink);
    client.Start(None, probe, openSucceeds);
    entries, hasConnection, isConnected := sink.entries, client.connection.Some?, client.connected;
  }

  /** Starting twice keeps the first connection; a failed open keeps its handle, which `stop` then leaves alone. */
  method RestartScenario(token: Option<string>, openSucceeds: bool) returns (same: bool, keptAfterStop: bool)
    ensures same
    ensures keptAfterStop == !openSucceeds
  {
    var sink := new NotificationSink();
    var client := new SignalRClient(Env(None, None), sink);
    client.Start(token, Responded(true), openSucceeds);
    var first := client.connection;
    if openSucceeds {
      client.Start(token, Responded(true), false);
    }
    same := client.connection == first;
    var _ := client.Stop(false);
    keptAfterStop := client.connection.Some?;
  }
}
