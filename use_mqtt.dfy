/** The hook-based MQTT session (app/services/mqtt/useMqtt.ts): the payload
    decoder, and the state the hook keeps (client reference, status, error
    text, latest value per topic) with the effect that connects, its cleanup,
    and the client's event handlers as methods called one after another. */
module UseMqtt {
  import opened Options
  import opened Js
  import Text
  import opened Settings
  import opened MqttClients

  /** `parsePayload(payload)`: JSON if the text parses, else the number it
      denotes, else a boolean for "true" or "false" in any letter case, else
      the text itself. It never fails. */
  function ParsePayload(payload: seq<byte>, rt: Runtime): (v: Value)
    ensures var text := rt.decodeUtf8(payload);
      && (rt.jsonParse(text).Some? ==> v == rt.jsonParse(text).value)
      && (rt.jsonParse(text).None? && rt.textToNumber(text).Some? ==> v == Num(rt.textToNumber(text).value))
      && (rt.jsonParse(text).None? && rt.textToNumber(text).None? ==>
            v == if Text.AsciiLower(text) == "true" then Bool(true)
                 else if Text.AsciiLower(text) == "false" then Bool(false)
                 else Str(text))
  {
    var text := rt.decodeUtf8(payload);
    match rt.jsonParse(text)
    case Some(json) => json
    case None =>
      match rt.textToNumber(text)
      case Some(n) => Num(n)
      case None =>
        if Text.AsciiLower(text) == "true" then Bool(true)
        else if Text.AsciiLower(text) == "false" then Bool(false)
        else Str(text)
  }

  /** Lower-cased text equal to "true" means the text is "true" spelled in
      some mix of letter cases. */
  lemma {:induction false} LowerIsTrue(text: string)
    requires Text.AsciiLower(text) == "true"
    ensures |text| == 4 && text[0] in "tT" && text[1] in "rR" && text[2] in "uU" && text[3] in "eE"
  {
    assert |text| == 4;
    assert Text.AsciiLower(text)[0] == 't' && Text.AsciiLower(text)[1] == 'r';
    assert Text.AsciiLower(text)[2] == 'u' && Text.AsciiLower(text)[3] == 'e';
  }

  /** A payload JSON already reads is never looked at as a number or a
      boolean: with a runtime whose `JSON.parse` accepts `true`, the text
      "true" decodes through JSON. */
  lemma JsonComesFirst(payload: seq<byte>, rt: Runtime)
    requires rt.decodeUtf8(payload) == "true" && rt.jsonParse("true") == Some(Bool(true))
    requires rt.textToNumber("true") == None
    ensures ParsePayload(payload, rt) == Bool(true)
  {
  }

  /** The boolean branch is reached only by texts JSON and `Number` both
      refuse, such as "TRUE". */
  lemma UpperCaseTrueIsBoolean(payload: seq<byte>, rt: Runtime)
    requires rt.decodeUtf8(payload) == "TRUE"
    requires rt.jsonParse("TRUE") == None && rt.textToNumber("TRUE") == None
    ensures ParsePayload(payload, rt) == Bool(true)
  {
    assert Text.AsciiLower("TRUE") == "true";
  }

  /** A payload whose result is a boolean either came from JSON or spells
      "true" or "false" in some letter case; a true one is the four letters
      of "true", each in either case. */
  lemma BooleanResultHasBooleanText(payload: seq<byte>, rt: Runtime)
    requires ParsePayload(payload, rt).Bool?
    requires rt.jsonParse(rt.decodeUtf8(payload)).None?
    ensures Text.AsciiLower(rt.decodeUtf8(payload)) in ["true", "false"]
    ensures ParsePayload(payload, rt).b <==> Text.AsciiLower(rt.decodeUtf8(payload)) == "true"
    ensures var text := rt.decodeUtf8(payload);
      ParsePayload(payload, rt).b ==>
        |text| == 4 && text[0] in "tT" && text[1] in "rR" && text[2] in "uU" && text[3] in "eE"
  {
    if ParsePayload(payload, rt).b {
      LowerIsTrue(rt.decodeUtf8(payload));
    }
  }

  /** Past JSON, a payload decodes to its own text exactly when `Number`
      refuses it and it is neither "true" nor "false" in any letter case. */
  lemma TextResultMeansAllRefused(payload: seq<byte>, rt: Runtime)
    requires rt.jsonParse(rt.decodeUtf8(payload)).None?
    ensures var text := rt.decodeUtf8(payload);
      ParsePayload(payload, rt) == Str(text) <==>
        rt.textToNumber(text).None? && Text.AsciiLower(text) != "true" && Text.AsciiLower(text) != "false"
  {
  }

  datatype SessionStatus = Idle | Connecting | Connected | Reconnecting | Error | Stopped

  /** An entry of `values`. */
  datatype TopicValue = TopicValue(value: Value, receivedAt: int, topic: string)

  const SessionReconnectPeriod: int := 3000

  /** The options the effect passes to `mqtt.connect`; `suffix` stands for
      the random base-36 part of a generated client id. Any URL that does not
      start with "wss" gets the "ws" protocol. */
  function SessionOptions(m: MqttSettings, suffix: string): (o: ClientOptions)
    ensures o.protocol == Some(if Text.StartsWith(m.url, "wss") then "wss" else "ws")
    ensures o.clientId == if OptOrAbsent(m.clientId).Some? then m.clientId.value else "app-" + suffix
    ensures o.username == OptOrAbsent(m.username) && o.password == OptOrAbsent(m.password)
    ensures o.connectTimeout == None && o.reconnectPeriod == SessionReconnectPeriod && o.clean
  {
    ClientOptions(
      clientId := OptOrAbsent(m.clientId).GetOr("app-" + suffix),
      protocol := Some(if Text.StartsWith(m.url, "wss") then "wss" else "ws"),
      username := OptOrAbsent(m.username),
      password := OptOrAbsent(m.password),
      connectTimeout := None,
      reconnectPeriod := SessionReconnectPeriod,
      clean := true)
  }

  /** The state of one `useMqtt` hook. No handler ever sets the `Error`
      status. */
  class MqttSession {
    var client: Client?
    var status: SessionStatus
    var error: Option<string>
    var values: map<string, TopicValue>
    /** The clients the effect created, each with the topic list its
        handlers captured. */
    var handlers: map<Client, seq<string>>

    constructor ()
      ensures client == null && status == Idle && error == None && values == map[] && handlers == map[]
    {
      client := null;
      status := Idle;
      error := None;
      values := map[];
      handlers := map[];
    }

    /** Whether an event raised by `c` reaches a handler of this session. */
    predicate Heard(c: Client)
      reads this, c
    {
      c in handlers && c.listening
    }

    /** The effect, run for `settings`. Without a URL the status becomes
        stopped and any client is ended forcibly and dropped. Otherwise the
        status becomes connecting, the error is cleared and a new client is
        created and remembered. Returns the client whose cleanup the effect
        registered, or null when it registered none. */
    method Start(settings: AppSettings, suffix: string) returns (started: Client?)
      modifies this, client
      ensures values == old(values)
      ensures settings.mqtt.url == "" ==>
        && status == Stopped && client == null && started == null
        && error == old(error) && handlers == old(handlers)
        && (old(client) != null ==> old(client).calls == old(client.calls) + [Call.End(true)])
      ensures settings.mqtt.url != "" ==>
        && status == Connecting && error == None
        && started != null && fresh(started) && client == started
        && started.url == settings.mqtt.url
        && started.options == SessionOptions(settings.mqtt, suffix)
        && started.calls == [] && started.listening
        && handlers == old(handlers)[started := WidgetTopics(settings.mqtt.topics)]
      ensures old(client) != null ==> old(client).listening == old(client.listening)
      ensures settings.mqtt.url != "" && old(client) != null ==> old(client).calls == old(client.calls)
    {
      if settings.mqtt.url == "" {
        status := Stopped;
        if client != null {
          client.End(true);
          client := null;
        }
        return null;
      }
      status := Connecting;
      error := None;
      started := new Client(settings.mqtt.url, SessionOptions(settings.mqtt, suffix));
      client := started;
      handlers := handlers[started := WidgetTopics(settings.mqtt.topics)];
    }

    /** The cleanup the effect registered for client `c`: its handlers are
        detached, it is ended forcibly, the reference is dropped and the
        status becomes stopped. */
    method Cleanup(c: Client)
      modifies this, c
      ensures c.calls == old(c.calls) + [Call.RemoveAllListeners, Call.End(true)] && !c.listening
      ensures !Heard(c)
      ensures client == null && status == Stopped
      ensures error == old(error) && values == old(values) && handlers == old(handlers)
    {
      c.RemoveAllListeners();
      c.End(true);
      client := null;
      status := Stopped;
    }

    /** The `connect` event of `c`: the status becomes connected and the
        topics captured with the handler are subscribed in one call, unless
        there are none. */
    method OnConnect(c: Client)
      modifies this, c
      ensures client == old(client) && error == old(error) && values == old(values) && handlers == old(handlers)
      ensures c.listening == old(c.listening)
      ensures old(Heard(c)) ==> status == Connected
      ensures old(Heard(c)) && handlers[c] != [] ==> c.calls == old(c.calls) + [Call.Subscribe(handlers[c])]
      ensures old(Heard(c)) && handlers[c] == [] ==> c.calls == old(c.calls)
      ensures !old(Heard(c)) ==> status == old(status) && c.calls == old(c.calls)
    {
      if Heard(c) {
        status := Connected;
        if |handlers[c]| > 0 {
          c.Subscribe(handlers[c]);
        }
      }
    }

    /** The failure callback of that subscription: its text becomes the
        error. */
    method OnSubscribeError(e: string)
      modifies this
      ensures error == Some(e)
      ensures client == old(client) && status == old(status) && values == old(values) && handlers == old(handlers)
    {
      error := Some(e);
    }

    /** The `reconnect` event: the status becomes reconnecting. */
    method OnReconnect(c: Client)
      modifies this
      ensures old(Heard(c)) ==> status == Reconnecting
      ensures !old(Heard(c)) ==> status == old(status)
      ensures client == old(client) && error == old(error) && values == old(values) && handlers == old(handlers)
    {
      if Heard(c) {
        status := Reconnecting;
      }
    }

    /** The `error` event: only the error text changes; the status is
        kept. */
    method OnError(c: Client, e: string)
      modifies this
      ensures error == if old(Heard(c)) then Some(e) else old(error)
      ensures client == old(client) && status == old(status) && values == old(values) && handlers == old(handlers)
    {
      if Heard(c) {
        error := Some(e);
      }
    }

    /** The `close` event: nothing changes. */
    method OnClose(c: Client)
      ensures client == old(client) && status == old(status) && error == old(error)
      ensures values == old(values) && handlers == old(handlers)
    {
    }

    /** The `message` event: the entry for `topic` is replaced by the decoded
        payload with its arrival time `now`; every other entry is kept. */
    method OnMessage(c: Client, topic: string, payload: seq<byte>, now: int, rt: Runtime)
      modifies this
      ensures old(Heard(c)) ==> values == old(values)[topic := TopicValue(ParsePayload(payload, rt), now, topic)]
      ensures !old(Heard(c)) ==> values == old(values)
      ensures forall t :: t in old(values) && t != topic ==> t in values && values[t] == old(values)[t]
      ensures client == old(client) && status == old(status) && error == old(error) && handlers == old(handlers)
    {
      if Heard(c) {
        values := values[topic := TopicValue(ParsePayload(payload, rt), now, topic)];
      }
    }

    /** `publish(topic, message)`: reaches the current client whenever there
        is one, whatever the status. */
    method Publish(topic: string, message: string)
      modifies client
      ensures client != null ==> client.calls == old(client.calls) + [Call.Publish(topic, message)]
      ensures client != null ==> client.listening == old(client.listening)
    {
      if client != null {
        client.Publish(topic, message);
      }
    }
  }
}
