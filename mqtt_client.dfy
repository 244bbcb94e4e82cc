/** The transport client that `mqtt.connect` returns, reduced to the calls
    made on it: each operation appends to a log, and `removeAllListeners`
    detaches the event handlers registered on it. */
module MqttClients {
  import opened Options

  /** The options object passed to `mqtt.connect`. */
  datatype ClientOptions = ClientOptions(
    clientId: string,
    protocol: Option<string>,
    username: Option<string>,
    password: Option<string>,
    connectTimeout: Option<int>,
    reconnectPeriod: int,
    clean: bool)

  datatype Call =
    | Subscribe(topics: seq<string>)
    | Unsubscribe(topic: string)
    | Publish(topic: string, payload: string)
    | End(force: bool)
    | RemoveAllListeners

  class Client {
    const url: string
    const options: ClientOptions
    /** Every call made on the client, oldest first. */
    var calls: seq<Call>
    /** Whether the handlers registered by its creator still receive events. */
    var listening: bool

    /** `mqtt.connect(url, options)` followed by registering the handlers. */
    constructor (url: string, options: ClientOptions)
      ensures this.url == url && this.options == options
      ensures calls == [] && listening
    {
      this.url := url;
      this.options := options;
      calls := [];
      listening := true;
    }

    method Subscribe(topics: seq<string>)
      modifies this
      ensures calls == old(calls) + [Call.Subscribe(topics)] && listening == old(listening)
    {
      calls := calls + [Call.Subscribe(topics)];
    }

    method Unsubscribe(topic: string)
      modifies this
      ensures calls == old(calls) + [Call.Unsubscribe(topic)] && listening == old(listening)
    {
      calls := calls + [Call.Unsubscribe(topic)];
    }

    method Publish(topic: string, payload: string)
      modifies this
      ensures calls == old(calls) + [Call.Publish(topic, payload)] && listening == old(listening)
    {
      calls := calls + [Call.Publish(topic, payload)];
    }

    method End(force: bool)
      modifies this
      ensures calls == old(calls) + [Call.End(force)] && listening == old(listening)
    {
      calls := calls + [Call.End(force)];
    }

    method RemoveAllListeners()
      modifies this
      ensures calls == old(calls) + [Call.RemoveAllListeners] && !listening
    {
      calls := calls + [Call.RemoveAllListeners];
      listening := false;
    }
  }
}
