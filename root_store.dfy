/** The root of the state tree (app/models/RootStore.ts): the three stores,
    an error slot, and the router that hands each inbound message to the cards
    that listen on its topic. The stores' MQTT callbacks that reach the root
    (the dashboard's topics on connect, `processMessage` on a message) are
    the two handlers at the end. */
module Root {
  import opened Options
  import opened Js
  import opened Cards
  import opened Dashboard
  import opened Mqtt
  import opened Theme
  import MqttClients

  class RootStore {
    const dashboard: DashboardStore
    const mqtt: MqttStore
    const theme: ThemeStore
    var error: Option<string>
    var errorCode: Option<string>

    constructor ()
      ensures fresh(dashboard) && fresh(mqtt) && fresh(theme)
      ensures dashboard.cards == [] && dashboard.Valid()
      ensures mqtt.status == Disconnected && mqtt.client == null && theme.IsDefault()
      ensures error == None && errorCode == None
    {
      dashboard := new DashboardStore();
      mqtt := new MqttStore();
      theme := new ThemeStore();
      error := None;
      errorCode := None;
    }

    /** `setError(message, code)`: an absent or empty code is stored as
        null. */
    method SetError(message: string, code: Option<string>)
      modifies this
      ensures error == Some(message) && errorCode == OptOrAbsent(code)
    {
      error := Some(message);
      errorCode := OptOrAbsent(code);
    }

    /** `clearError()`: both slots become null; a second call changes
        nothing. */
    method ClearError()
      modifies this
      ensures error == None && errorCode == None
      ensures old(error) == None && old(errorCode) == None ==>
        error == old(error) && errorCode == old(errorCode)
    {
      error := None;
      errorCode := None;
    }

    /** `processMessage(topic, payload)`: every card whose topic is `topic`
        is updated from the payload, in list order; every other card and the
        list itself are left as they were. All updates of one message read
        the same clock value `now`. */
    method ProcessMessage(topic: string, payload: Value, now: int, rt: Runtime)
      requires dashboard.Valid()
      modifies dashboard.cards
      ensures dashboard.cards == old(dashboard.cards) && dashboard.Valid()
      ensures forall i :: 0 <= i < |dashboard.cards| ==>
        dashboard.cards[i].State() ==
          if old(dashboard.cards[i].config.topic) == topic
          then Updated(old(dashboard.cards[i].State()), payload, now, rt)
          else old(dashboard.cards[i].State())
    {
      var cards := dashboard.cards;
      var i := 0;
      while i < |cards|
        invariant 0 <= i <= |cards|
        invariant dashboard.cards == cards
        invariant forall j :: 0 <= j < i ==>
          cards[j].State() ==
            if old(cards[j].config.topic) == topic
            then Updated(old(cards[j].State()), payload, now, rt)
            else old(cards[j].State())
        invariant forall j :: i <= j < |cards| ==> cards[j].State() == old(cards[j].State())
      {
        if cards[i].config.topic == topic {
          cards[i].UpdateFromPayload(payload, now, rt);
        }
        i := i + 1;
      }
    }

    /** The connection store's `connect` handler, which reads the dashboard's
        active topics through the root before subscribing them. */
    method HandleClientConnect()
      modifies mqtt, mqtt.client
      ensures mqtt.status == Connected && mqtt.client == old(mqtt.client)
      ensures mqtt.client != null ==>
        mqtt.client.calls == old(mqtt.client.calls) + SubscribeCalls(Dedup(TopicsOf(dashboard.cards)))
      ensures mqtt.brokerUrl == old(mqtt.brokerUrl) && mqtt.username == old(mqtt.username) && mqtt.password == old(mqtt.password)
      ensures mqtt.client != null ==> mqtt.client.listening == old(mqtt.client.listening)
    {
      var topics := dashboard.ActiveTopics();
      mqtt.HandleConnect(topics);
    }

    /** The connection store's `message` handler: the payload is decoded
        (JSON if it parses, else the text) and routed. */
    method HandleClientMessage(topic: string, message: seq<byte>, now: int, rt: Runtime)
      requires dashboard.Valid()
      modifies dashboard.cards
      ensures dashboard.cards == old(dashboard.cards)
      ensures forall i :: 0 <= i < |dashboard.cards| ==>
        dashboard.cards[i].State() ==
          if old(dashboard.cards[i].config.topic) == topic
          then Updated(old(dashboard.cards[i].State()), DecodeInbound(message, rt), now, rt)
          else old(dashboard.cards[i].State())
    {
      ProcessMessage(topic, DecodeInbound(message, rt), now, rt);
    }
  }
}
