/** The connection store (app/models/MqttStore.ts): broker settings, a
    three-valued status, the current client, operations gated on the status,
    and the handlers for the client's connect, error and close events. The
    handlers are methods that a caller invokes one after another; each receives
    the client that raised the event, since the source's callbacks close over
    the client they were registered on. */
module Mqtt {
  import opened Options
  import opened Js
  import Text
  import opened MqttClients

  datatype Status = Connected | Disconnected | Connecting

  const DefaultBrokerUrl: string := "wss://broker.hivemq.com:8000/mqtt"
  const ConnectTimeout: int := 10000
  const ReconnectPeriod: int := 3000

  /** The `protocol` option: set only for WebSocket URLs. */
  function ProtocolFor(url: string): (p: Option<string>)
    ensures Text.StartsWith(url, "wss://") ==> p == Some("wss")
    ensures !Text.StartsWith(url, "wss://") && Text.StartsWith(url, "ws://") ==> p == Some("ws")
    ensures !Text.StartsWith(url, "wss://") && !Text.StartsWith(url, "ws://") ==> p == None
  {
    if Text.StartsWith(url, "wss://") then Some("wss")
    else if Text.StartsWith(url, "ws://") then Some("ws")
    else None
  }

  /** The options `connect` passes to the transport; `suffix` stands for the
      random hexadecimal part of the client id. */
  function OptionsFor(url: string, username: string, password: string, suffix: string): ClientOptions
  {
    ClientOptions(
      clientId := "rn-app-" + suffix,
      protocol := ProtocolFor(url),
      username := OrAbsent(username),
      password := OrAbsent(password),
      connectTimeout := Some(ConnectTimeout),
      reconnectPeriod := ReconnectPeriod,
      clean := true)
  }

  /** An inbound message as handed to the router: its JSON value when the
      text parses, otherwise the text itself. */
  function DecodeInbound(message: seq<byte>, rt: Runtime): (v: Value)
    ensures rt.jsonParse(rt.decodeUtf8(message)).Some? ==> v == rt.jsonParse(rt.decodeUtf8(message)).value
    ensures rt.jsonParse(rt.decodeUtf8(message)).None? ==> v == Str(rt.decodeUtf8(message))
  {
    var text := rt.decodeUtf8(message);
    match rt.jsonParse(text)
    case Some(json) => json
    case None => Str(text)
  }

  /** The calls `subscribe` makes, one per topic, for a list of topics. */
  function SubscribeCalls(topics: seq<string>): (calls: seq<Call>)
    ensures |calls| == |topics|
    ensures forall i :: 0 <= i < |topics| ==> calls[i] == Call.Subscribe([topics[i]])
  {
    if topics == [] then [] else SubscribeCalls(topics[..|topics| - 1]) + [Call.Subscribe([topics[|topics| - 1]])]
  }

  class MqttStore {
    var brokerUrl: string
    var username: string
    var password: string
    var status: Status
    var client: Client?

    constructor ()
      ensures brokerUrl == DefaultBrokerUrl && username == "" && password == ""
      ensures status == Disconnected && client == null
    {
      brokerUrl := DefaultBrokerUrl;
      username := "";
      password := "";
      status := Disconnected;
      client := null;
    }

    /** `setProp("brokerUrl", url)`. */
    method SetBrokerUrl(url: string)
      modifies this
      ensures brokerUrl == url
      ensures username == old(username) && password == old(password)
      ensures status == old(status) && client == old(client)
    {
      brokerUrl := url;
    }

    /** `setProp("username", name)`. */
    method SetUsername(name: string)
      modifies this
      ensures username == name
      ensures brokerUrl == old(brokerUrl) && password == old(password)
      ensures status == old(status) && client == old(client)
    {
      username := name;
    }

    /** `setProp("password", secret)`. */
    method SetPassword(secret: string)
      modifies this
      ensures password == secret
      ensures brokerUrl == old(brokerUrl) && username == old(username)
      ensures status == old(status) && client == old(client)
    {
      password := secret;
    }

    /** Reaches the client only when there is one and the status is
        connected. */
    method Subscribe(topic: string)
      modifies client
      ensures client != null && status == Connected ==>
        client.calls == old(client.calls) + [Call.Subscribe([topic])]
      ensures client != null && status != Connected ==> client.calls == old(client.calls)
      ensures client != null ==> client.listening == old(client.listening)
    {
      if client != null && status == Connected {
        client.Subscribe([topic]);
      }
    }

    /** Reaches the client whenever there is one, whatever the status. */
    method Unsubscribe(topic: string)
      modifies client
      ensures client != null ==> client.calls == old(client.calls) + [Call.Unsubscribe(topic)]
      ensures client != null ==> client.listening == old(client.listening)
    {
      if client != null {
        client.Unsubscribe(topic);
      }
    }

    /** Reaches the client only when there is one and the status is
        connected. */
    method Publish(topic: string, message: string)
      modifies client
      ensures client != null && status == Connected ==>
        client.calls == old(client.calls) + [Call.Publish(topic, message)]
      ensures client != null && status != Connected ==> client.calls == old(client.calls)
      ensures client != null ==> client.listening == old(client.listening)
    {
      if client != null && status == Connected {
        client.Publish(topic, message);
      }
    }

    /** `connect()`. Nothing happens while connected or connecting. Otherwise
        the status becomes connecting and a new client is created; `suffix` is
        the random part of its id and `setupThrows` says whether
        `mqtt.connect` threw, in which case the status falls back to
        disconnected. A client already held is replaced without being ended. */
    method Connect(suffix: string, setupThrows: bool)
      modifies this
      ensures brokerUrl == old(brokerUrl) && username == old(username) && password == old(password)
      ensures old(status) != Disconnected ==> status == old(status) && client == old(client)
      ensures old(status) == Disconnected && setupThrows ==> status == Disconnected && client == old(client)
      ensures old(status) == Disconnected && !setupThrows ==>
        && status == Connecting
        && client != null && fresh(client)
        && client.url == brokerUrl
        && client.options == OptionsFor(brokerUrl, username, password, suffix)
        && client.calls == [] && client.listening
      ensures old(client) != null ==> old(client).calls == old(client.calls)
    {
      if status == Connected || status == Connecting {
        return;
      }
      status := Connecting;
      if setupThrows {
        status := Disconnected;
        return;
      }
      var c := new Client(brokerUrl, OptionsFor(brokerUrl, username, password, suffix));
      client := c;
    }

    /** The client's `connect` event: the status becomes connected, then each
        of `topics` (the dashboard's active topics at that moment) is
        subscribed through the store, in order. */
    method HandleConnect(topics: seq<string>)
      modifies this, client
      ensures status == Connected && client == old(client)
      ensures brokerUrl == old(brokerUrl) && username == old(username) && password == old(password)
      ensures client != null ==> client.calls == old(client.calls) + SubscribeCalls(topics)
      ensures client != null ==> client.listening == old(client.listening)
    {
      status := Connected;
      var i := 0;
      while i < |topics|
        invariant 0 <= i <= |topics|
        invariant status == Connected && client == old(client)
        invariant brokerUrl == old(brokerUrl) && username == old(username) && password == old(password)
        invariant client != null ==> client.calls == old(client.calls) + SubscribeCalls(topics[..i])
        invariant client != null ==> client.listening == old(client.listening)
      {
        assert topics[..i + 1][..i] == topics[..i];
        Subscribe(topics[i]);
        i := i + 1;
      }
      assert topics[..i] == topics;
    }

    /** The `error` event of client `c`: the status becomes disconnected and
        `c` is ended. */
    method HandleError(c: Client)
      modifies this, c
      ensures status == Disconnected && client == old(client)
      ensures brokerUrl == old(brokerUrl) && username == old(username) && password == old(password)
      ensures c.calls == old(c.calls) + [Call.End(false)] && c.listening == old(c.listening)
    {
      status := Disconnected;
      c.End(false);
    }

    /** The `close` event: the status becomes disconnected; the client is
        kept. */
    method HandleClose()
      modifies this
      ensures status == Disconnected && client == old(client)
      ensures brokerUrl == old(brokerUrl) && username == old(username) && password == old(password)
    {
      status := Disconnected;
    }

    /** `disconnect()`: any client is ended forcibly and dropped; the status
        is disconnected in every case. */
    method Disconnect()
      modifies this, client
      ensures status == Disconnected && client == null
      ensures brokerUrl == old(brokerUrl) && username == old(username) && password == old(password)
      ensures old(client) != null ==>
        old(client).calls == old(client.calls) + [Call.End(true)]
        && old(client).listening == old(client.listening)
    {
      if client != null {
        client.End(true);
        client := null;
      }
      status := Disconnected;
    }
  }
}
