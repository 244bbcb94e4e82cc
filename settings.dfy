/** The persisted application settings (app/types/settings.ts): the broker
    connection, the list of topic widgets and two layout values. */
module Settings {
  import opened Options

  datatype WidgetType = Numeric | Text | Boolean

  datatype TopicWidget = TopicWidget(
    id: string,
    topic: string,
    labelText: string,
    unit: Option<string>,
    kind: WidgetType,
    precision: Option<int>)

  datatype MqttSettings = MqttSettings(
    url: string,
    clientId: Option<string>,
    username: Option<string>,
    password: Option<string>,
    topics: seq<TopicWidget>)

  datatype UiSettings = UiSettings(gridColumns: int, staleMs: int)

  datatype AppSettings = AppSettings(mqtt: MqttSettings, ui: UiSettings)

  /** `makeDefaultSettings()`; `suffix` stands for the six random base-36
      characters of the client id. */
  function MakeDefaultSettings(suffix: string): AppSettings
  {
    AppSettings(
      MqttSettings(url := "", clientId := Some("app-" + suffix), username := Some(""),
                   password := Some(""), topics := []),
      UiSettings(gridColumns := 2, staleMs := 30000))
  }

  /** The topic names of the configured widgets, in order (`useMqtt`'s
      `topics`). */
  function WidgetTopics(ws: seq<TopicWidget>): (ts: seq<string>)
    ensures |ts| == |ws|
    ensures forall i :: 0 <= i < |ws| ==> ts[i] == ws[i].topic
  {
    if ws == [] then [] else WidgetTopics(ws[..|ws| - 1]) + [ws[|ws| - 1].topic]
  }
}
