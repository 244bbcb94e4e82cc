# IoT MQTT dashboard: a Dafny model of its message core

The app shows a grid of user-defined cards fed by an MQTT broker. Each card
listens on a topic, extracts a value from a JSON message along a dotted
path, and may apply an arithmetic transform. It keeps the value, the time
of the update and a 30-point numeric history, and raises an alert outside
its thresholds. Button and switch cards publish back to the broker. This
project models that core in Dafny and proves what the code promises about
it:

- **Card pipeline** (`Cards`, app/models/CardModel.ts).
  - `updateFromPayload` is a method on a `Card` object. It is proved equal
    to the function `Updated` on the card's state, and the lemmas beside it
    state that function's properties:
    - a miss changes nothing;
    - the history stays bounded and first-in first-out;
    - numbers are recorded;
    - the configuration is kept.
- **Card collection** (`Dashboard`, app/models/DashboardStore.ts).
  - A class over a sequence of card objects: add, remove by id, update by
    id, and the de-duplicated `activeTopics` list in first-occurrence order.
- **Router and error slot** (`Root`, app/models/RootStore.ts).
  - `processMessage` updates exactly the cards on the message's topic.
  - The store also covers `setError` and `clearError`, and the client's
    connect and message handlers that call into the other stores.
- **Connection store** (`Mqtt`, app/models/MqttStore.ts).
  - The three-valued status, the gated `subscribe`/`publish`, the `connect`
    guard and options, and the error, close and disconnect transitions.
  - The transport client (`MqttClients`) is an object that logs the calls
    made on it.
- **`useMqtt` hook** (`UseMqtt`, app/services/mqtt/useMqtt.ts).
  - The payload decoder `parsePayload`: JSON, then number, then
    case-insensitive `true`/`false`, then the text.
  - The session's status, error and values map, driven by event methods.
- **Card widget rules** (`DataCard`, app/components/DataCard.tsx).
  - The threshold alert and the colour choice.
  - The switch toggle and the button publish.
  - Press routing and the size cycle.
- **Card editor save** (`CardEdit`, app/screens/CardEditScreen.tsx).
  - The form's defaults, the record it builds, the choice between update
    and add, and the subscribe that follows.
- **Broker settings screen** (`MqttSettings`, app/screens/MqttSettingsScreen.tsx).
  - The URL pattern is given both as a language (`Matches`) and as the
    split the screen performs (`MatchUrl`). The split is proved sound and
    complete for that language, so the match is unique.
  - Composing valid fields and splitting the result gives the fields back.
    Splitting and composing gives the URL back, with the defaults filled in.
  - The form keeps its URL in step with its four fields. The save and
    connect buttons drive the connection store.
- **Settings validation and storage** (`Settings`, `SettingsStorage`,
  app/types/settings.ts, app/services/settingsStorage.ts).
  - The zod schemas as a parser from JSON values to typed settings, and the
    defaults.
  - Load with its fall-back to the defaults, save and reset on a key-value
    map.
  - Encoding valid settings and parsing them gives them back.
- **Theme overrides** (`Theme`, app/models/ThemeStore.ts).
  - Four optional colours with `setProp` and an idempotent `reset`.

**Foreign operations are parameters.** JavaScript's `JSON.parse`,
`JSON.stringify`, `Number(text)`, `String(number)`, `parseFloat`,
`TextDecoder`, and the `new Function` evaluation of a card's expression are
fields of a `Runtime` value (`Js.Runtime`). A result of `None` stands for a
throw or for NaN. `Date.now()` and the random parts of ids are plain
parameters (`now`, `suffix`, `randomId`).

**Event handlers are methods.** Network callbacks are methods a caller
invokes one after another. Each one receives the client that raised the
event.

## Model

| member | source | states |
|---|---|---|
| Cards.Transformed | app/models/CardModel.ts:58-68 | the transform changes the value only when an expression is set and the value is numeric or coerces to a number; an expression that evaluates gives its result, and one that throws keeps the extracted value |
| Cards.Walk | app/models/CardModel.ts:47-54 | the path walk: each step needs a truthy object and an own field; `WalkConcat` proves that a walk along `p + q` continues from where `p` ended, and `WalkMissesOnNonObject` that a non-object step gives undefined |
| Cards.Extracted | app/models/CardModel.ts:44-55 | the whole payload for an empty path, otherwise `Walk` along the dot-split parts; `Extract` is proved equal to it, and `EmptyPathExtractsPayload` and `SingleFieldPath` state its edge cases |
| Cards.Extract | app/models/CardModel.ts:43-55 | the loop over the path's parts yields what `Extracted` defines: the whole payload for an empty path, otherwise the left-to-right walk |
| Cards.Updated | app/models/CardModel.ts:41-86 | the card after one message; `UpdateFromPayload` is proved to produce it, and `MissLeavesCard`, `RejectedResultLeavesCard`, `NumericResultRecorded`, `NonNumericResultKeepsHistory`, `HistoryStaysBounded` and `UpdateKeepsConfig` state its cases |
| Cards.Card.constructor | app/models/CardModel.ts:9-35 | a new card has its id and configuration, the value "--", an empty history and time 0 |
| Cards.Card.SetValue | app/models/CardModel.ts:38-40 | only the value changes |
| Cards.Card.Assign | app/models/DashboardStore.ts:22 | the carried properties are assigned; value, history and time are kept |
| Cards.Card.SetWidth | app/models/helpers/withSetPropAction.ts:4-6 | only the width changes |
| Cards.Card.SetHeight | app/models/helpers/withSetPropAction.ts:4-6 | only the height changes |
| Cards.Card.UpdateFromPayload | app/models/CardModel.ts:41-86 | the new state of the card is `Updated` of the old one, whose properties the lemmas below state |
| Cards.FullPatchReplaces | app/screens/CardEditScreen.tsx:78-79 | assigning a record that carries every property replaces the configuration, whatever it was |
| Cards.WalkConcat | app/models/CardModel.ts:46-54 | the path is walked left to right: walking `p + q` is walking `p`, then `q` from where `p` ended, and a miss stays a miss |
| Cards.WalkMissesOnNonObject | app/models/CardModel.ts:48-53 | a step that meets null, a boolean, a number or a string yields undefined, whatever follows |
| Cards.EmptyPathExtractsPayload | app/models/CardModel.ts:43-45 | an empty path extracts the whole payload |
| Cards.SingleFieldPath | app/models/CardModel.ts:45-50 | a path without dots reads one field of an object, undefined when absent |
| Cards.MissLeavesCard | app/models/CardModel.ts:57 | a path that does not resolve leaves value, time and history unchanged |
| Cards.RejectedResultLeavesCard | app/models/CardModel.ts:70-85 | a result that is neither a string nor a number fails the assignment, and the card is left unchanged |
| Cards.HistoryStaysBounded | app/models/CardModel.ts:76-80 | a history of at most 30 points still has at most 30 after an update |
| Cards.NumericResultRecorded | app/models/CardModel.ts:70-80 | a numeric result becomes the value and the last point with the new time; the earlier points keep their order, and the oldest is evicted when 30 were held |
| Cards.NonNumericResultKeepsHistory | app/models/CardModel.ts:70-75 | a non-numeric text becomes the value with the new time, and the history is untouched |
| Cards.UpdateKeepsConfig | app/models/CardModel.ts:41-86 | the pipeline never changes the card's configuration |
| Dashboard.Dedup | app/models/DashboardStore.ts:28-30 | the list `Array.from(new Set(...))` gives; `DedupMembers`, `DedupNoDuplicates` and `DedupFirstOccurrenceOrder` prove it holds each occurring topic once, in first-occurrence order |
| Dashboard.DedupMembers | app/models/DashboardStore.ts:27-31 | a topic is in the de-duplicated list iff it occurs |
| Dashboard.DedupNoDuplicates | app/models/DashboardStore.ts:27-31 | the de-duplicated list has no repeated topic |
| Dashboard.DedupFirstOccurrenceOrder | app/models/DashboardStore.ts:28-30 | the de-duplicated list is ordered by first occurrence |
| Dashboard.DashboardStore.constructor | app/models/DashboardStore.ts:7-9 | the collection starts empty |
| Dashboard.DashboardStore.FindIndex | app/models/DashboardStore.ts:16 | the position of the first card with the id, or -1 when none has it |
| Dashboard.DashboardStore.Find | app/models/DashboardStore.ts:20 | the first card with the id, or null |
| Dashboard.DashboardStore.AddCard | app/models/DashboardStore.ts:12-14 | a new card with the given id and configuration and default live state goes at the end; the earlier cards stay as they were |
| Dashboard.DashboardStore.RemoveCard | app/models/DashboardStore.ts:15-18 | only the first card with the id leaves, the rest keep their order; an unknown id leaves the list unchanged |
| Dashboard.DashboardStore.UpdateCard | app/models/DashboardStore.ts:19-24 | the properties are assigned on the first card with the id only; an unknown id changes nothing |
| Dashboard.DashboardStore.ActiveTopics | app/models/DashboardStore.ts:27-31 | the de-duplicated topics of the cards: no duplicates, and a topic is listed iff some card has it |
| Dashboard.ActiveTopicsInFirstOccurrenceOrder | app/models/DashboardStore.ts:28-30 | the active topics are listed in order of first occurrence among the cards |
| Root.RootStore.constructor | app/models/RootStore.ts:10-16 | fresh sub-stores with their defaults and no error |
| Root.RootStore.SetError | app/models/RootStore.ts:18-21 | the message is stored, and the code or null |
| Root.RootStore.ClearError | app/models/RootStore.ts:22-25 | both error and code become null; clearing a cleared slot changes nothing |
| Root.RootStore.ProcessMessage | app/models/RootStore.ts:26-30 | the card list is unchanged; each card on the message's topic gets the pipeline's update, every other card keeps its state |
| Root.RootStore.HandleClientConnect | app/models/MqttStore.ts:68-79 | the status becomes connected and the client receives one subscribe per active topic, in first-occurrence order |
| Root.RootStore.HandleClientMessage | app/models/MqttStore.ts:82-96 | the decoded message (JSON, or the text) is routed to exactly the cards on its topic |
| Mqtt.ProtocolFor | app/models/MqttStore.ts:49-51 | "wss" for a `wss://` URL, "ws" for `ws://`, unset otherwise |
| Mqtt.OptionsFor | app/models/MqttStore.ts:49-63 | the options `connect` hands the new client: the "rn-app-" id, the protocol from `ProtocolFor`, credentials through `OrAbsent`, a 10000 ms timeout, a 3000 ms reconnect period and a clean session; `Connect` states that the new client carries them |
| Options.OrAbsent | app/models/MqttStore.ts:54-55 | an empty string is absent and any other is kept; used for the store's credentials and the card editor's colours |
| Mqtt.DecodeInbound | app/models/MqttStore.ts:84-89 | the JSON value of the message text when it parses, otherwise the text |
| Mqtt.SubscribeCalls | app/models/MqttStore.ts:76-78 | one subscribe call per topic, in order |
| Mqtt.MqttStore.constructor | app/models/MqttStore.ts:7-15 | the default broker URL, empty credentials, disconnected, no client |
| Mqtt.MqttStore.SetBrokerUrl | app/models/helpers/withSetPropAction.ts:4-6 | only the broker URL changes |
| Mqtt.MqttStore.SetUsername | app/models/helpers/withSetPropAction.ts:4-6 | only the username changes |
| Mqtt.MqttStore.SetPassword | app/models/helpers/withSetPropAction.ts:4-6 | only the password changes |
| Mqtt.MqttStore.Subscribe | app/models/MqttStore.ts:23-29 | the client is reached only when there is one and the status is connected |
| Mqtt.MqttStore.Unsubscribe | app/models/MqttStore.ts:30-34 | the client is reached whenever there is one, whatever the status |
| Mqtt.MqttStore.Publish | app/models/MqttStore.ts:35-39 | the client is reached only when there is one and the status is connected |
| Mqtt.MqttStore.Connect | app/models/MqttStore.ts:42-114 | nothing happens while connected or connecting; otherwise a fresh client with the computed options and status connecting, or back to disconnected when setup throws; the old client is not touched |
| Mqtt.MqttStore.HandleConnect | app/models/MqttStore.ts:68-79 | the status becomes connected and each given topic is subscribed through the store, in order |
| Mqtt.MqttStore.HandleError | app/models/MqttStore.ts:99-103 | the status becomes disconnected and the erring client is ended |
| Mqtt.MqttStore.HandleClose | app/models/MqttStore.ts:105-107 | the status becomes disconnected; the client is kept |
| Mqtt.MqttStore.Disconnect | app/models/MqttStore.ts:115-121 | any client is force-ended and dropped, and the status is disconnected in every case |
| Theme.ThemeStore.constructor | app/models/ThemeStore.ts:6-11 | all four overrides start undefined |
| Theme.ThemeStore.SetProp | app/models/ThemeStore.ts:12 | only the named override changes |
| Theme.ThemeStore.Reset | app/models/ThemeStore.ts:14-19 | all four overrides become undefined; resetting a reset store changes nothing |
| Settings.MakeDefaultSettings | app/types/settings.ts:31-46 | the defaults: empty URL and credentials, an "app-" client id, no topics, two grid columns, 30000 ms staleness; `DefaultsValid` proves they meet the schema |
| Settings.WidgetTopics | app/services/mqtt/useMqtt.ts:37 | the topics of the configured widgets, in order |
| SettingsStorage.AsString | app/services/settingsStorage.ts:11 | `z.string()`: accepts exactly a string |
| SettingsStorage.AsNonEmptyString | app/services/settingsStorage.ts:12-13 | `z.string().min(1)`: accepts exactly a non-empty string |
| SettingsStorage.AsOptionalString | app/services/settingsStorage.ts:14 | an absent field passes as absent, a present one must be a string |
| SettingsStorage.AsInt | app/services/settingsStorage.ts:28-29 | accepts exactly a number with no fractional part |
| SettingsStorage.AsOptionalNat | app/services/settingsStorage.ts:16 | an absent field passes as absent, a present one must be a non-negative integer |
| SettingsStorage.AsWidgetType | app/services/settingsStorage.ts:15 | the intended type check: accepts exactly the strings "numeric", "text" and "boolean" |
| SettingsStorage.TypeCheckAcceptsArray | app/services/settingsStorage.ts:15 | the type check as written accepts the array `["text"]`, which the intended check rejects |
| SettingsStorage.IntendedTypeCheckIsNarrower | app/services/settingsStorage.ts:15 | whatever the intended check accepts, the written one accepts too |
| SettingsStorage.ParseWidget | app/services/settingsStorage.ts:10-17 | the widget schema with the corrected type check; `ParseWidgetSound` states what a passing widget satisfies and `EncodeParseWidget` that a valid widget round-trips |
| SettingsStorage.ParseWidgets | app/services/settingsStorage.ts:25 | with the corrected type check, an array of widgets passes iff every element does, and then yields their parses in order |
| SettingsStorage.ParseMqtt | app/services/settingsStorage.ts:20-26 | the broker section: a string URL, optional string id and credentials, and the widget array; `EncodeParseMqtt` proves that an encoded section parses back to itself |
| SettingsStorage.ParseUi | app/services/settingsStorage.ts:27-30 | integer grid columns from 1 to 4 and an integer staleness of at least 1000; `EncodeParseUi` proves the round trip within those bounds |
| SettingsStorage.ParseSettings | app/services/settingsStorage.ts:19-31 | both sections must pass; `ParseSound` proves that passing settings are valid, and `EncodeParseRoundTrip` that valid settings parse back to themselves |
| SettingsStorage.Encode | app/services/settingsStorage.ts:46 | the JSON shape `JSON.stringify` writes, with absent optional keys left out; `EncodeParseRoundTrip` and `SaveThenLoad` prove it is inverted by the parse |
| SettingsStorage.ParseWidgetSound | app/services/settingsStorage.ts:10-17 | a widget that passes has non-empty topic and label and an absent or non-negative integer precision |
| SettingsStorage.ParseSound | app/services/settingsStorage.ts:19-31 | settings that pass are valid: valid widgets, 1 to 4 grid columns, a staleness of at least 1000 ms |
| SettingsStorage.EncodeParseWidget | app/services/settingsStorage.ts:10-17 | a valid widget, written as JSON, passes the schema unchanged |
| SettingsStorage.EncodeParseWidgets | app/services/settingsStorage.ts:25 | a list of valid widgets, written as JSON, passes unchanged |
| SettingsStorage.EncodeParseMqtt | app/services/settingsStorage.ts:20-26 | a broker section with valid widgets, written as JSON, passes unchanged |
| SettingsStorage.EncodeParseUi | app/services/settingsStorage.ts:27-30 | a ui section within bounds, written as JSON, passes unchanged |
| SettingsStorage.EncodeParseRoundTrip | app/services/settingsStorage.ts:19-31 | valid settings, written as JSON, pass the schema unchanged |
| SettingsStorage.DefaultsValid | app/types/settings.ts:31-46 | the defaults are valid and pass the schema |
| SettingsStorage.Loaded | app/services/settingsStorage.ts:33-43 | with the corrected type check, whatever storage holds, loading yields valid settings |
| SettingsStorage.LoadedFallsBack | app/services/settingsStorage.ts:36-42 | a failed read, a missing or empty item, or text that does not parse loads the defaults; parsed data loads as itself when it passes the schema with the corrected type check, else the defaults |
| SettingsStorage.SaveThenLoad | app/services/settingsStorage.ts:33-47 | valid settings saved and loaded again come back unchanged, given that JSON round-trips |
| SettingsStorage.Storage.Save | app/services/settingsStorage.ts:45-47 | the settings' JSON text is stored under "app.settings.v1" and nothing else changes |
| SettingsStorage.Storage.Load | app/services/settingsStorage.ts:33-43 | the result is `Loaded` of what the key holds, or of a failed read, and is valid, with the corrected type check |
| SettingsStorage.Storage.Reset | app/services/settingsStorage.ts:49-53 | the defaults are saved and returned |
| UseMqtt.ParsePayload | app/services/mqtt/useMqtt.ts:17-29 | the JSON value when the text parses; otherwise the number when it is not NaN; otherwise true or false for any casing of "true"/"false"; otherwise the text; every payload yields a value |
| UseMqtt.LowerIsTrue | app/services/mqtt/useMqtt.ts:26 | only the casings of "true" lower-case to "true" |
| UseMqtt.JsonComesFirst | app/services/mqtt/useMqtt.ts:20-23 | the text "true" is decoded by JSON, not by the boolean branch |
| UseMqtt.UpperCaseTrueIsBoolean | app/services/mqtt/useMqtt.ts:24-27 | "TRUE", which JSON and Number reject, decodes to true |
| UseMqtt.BooleanResultHasBooleanText | app/services/mqtt/useMqtt.ts:26-27 | a boolean not produced by JSON comes from a casing of "true" or "false", and is true exactly for "true" |
| UseMqtt.TextResultMeansAllRefused | app/services/mqtt/useMqtt.ts:24-28 | for a text JSON refuses, the decoder returns the text itself iff `Number` refuses it and it is neither "true" nor "false" in any case |
| Options.OptOrAbsent | app/services/mqtt/useMqtt.ts:57-58 | an absent or empty string is absent and any other is kept; used for the session's credentials and the stored error code |
| UseMqtt.SessionOptions | app/services/mqtt/useMqtt.ts:53-61 | protocol "wss" iff the URL starts with "wss" else "ws"; the configured client id or "app-" and a random suffix; no connect timeout; a reconnect period of 3000 ms; clean sessions |
| UseMqtt.MqttSession.constructor | app/services/mqtt/useMqtt.ts:32-35 | no client, status idle, no error, no values |
| UseMqtt.MqttSession.Start | app/services/mqtt/useMqtt.ts:39-63 | an empty URL stops the session and force-ends and drops any client; otherwise status connecting, error cleared, and a fresh client with the session options and the configured topics |
| UseMqtt.MqttSession.Cleanup | app/services/mqtt/useMqtt.ts:85-90 | the client stops being heard and is force-ended; no current client and status stopped |
| UseMqtt.MqttSession.OnConnect | app/services/mqtt/useMqtt.ts:65-69 | status connected, and one subscribe of all configured topics only when the list is non-empty |
| UseMqtt.MqttSession.OnSubscribeError | app/services/mqtt/useMqtt.ts:68 | a subscribe failure sets the error only |
| UseMqtt.MqttSession.OnReconnect | app/services/mqtt/useMqtt.ts:71 | status reconnecting, nothing else changes |
| UseMqtt.MqttSession.OnError | app/services/mqtt/useMqtt.ts:72 | only the error string changes |
| UseMqtt.MqttSession.OnClose | app/services/mqtt/useMqtt.ts:73-75 | nothing changes |
| UseMqtt.MqttSession.OnMessage | app/services/mqtt/useMqtt.ts:77-83 | only the topic's entry changes, to the decoded payload with its time and topic; every other entry is preserved |
| UseMqtt.MqttSession.Publish | app/services/mqtt/useMqtt.ts:100-103 | a client, when there is one, receives the publish, whatever the status |
| DataCard.IsAlert | app/components/DataCard.tsx:47-51 | `isAlert`; `AlertIffOutOfBand` proves it holds iff the number lies outside the band `InBand`, and `NoThresholdsNoAlert` and `NonNumberNoAlert` state its empty cases |
| DataCard.AlertIffOutOfBand | app/components/DataCard.tsx:47-51 | a card alerts iff its value converts to a number above a set maximum or below a set minimum |
| DataCard.NoThresholdsNoAlert | app/components/DataCard.tsx:48-51 | with neither threshold set, no value alerts |
| DataCard.NonNumberNoAlert | app/components/DataCard.tsx:47-48 | a value that does not convert to a number never alerts |
| DataCard.FirstColor | app/components/DataCard.tsx:53-54 | the first non-empty of two optional colours, else the fallback |
| DataCard.BackgroundColor | app/components/DataCard.tsx:53 | the alert colour when alerting, otherwise the first non-empty of card colour, theme colour and default |
| DataCard.TextColor | app/components/DataCard.tsx:54 | the card's own text colour when set and non-empty, else the theme's, else the default |
| DataCard.IsOn | app/components/DataCard.tsx:84 | a switch is on iff the text of its value is its on payload; `SwitchToggles` and `EqualPayloadsNeverToggle` state what a press then does |
| DataCard.NextSwitchPayload | app/components/DataCard.tsx:84-85 | the off payload when the switch is on, the on payload otherwise |
| DataCard.SwitchToggles | app/components/DataCard.tsx:84-86 | with distinct payloads, the payload a press sends turns an off switch on and an on switch off |
| DataCard.EqualPayloadsNeverToggle | app/components/DataCard.tsx:84-85 | with equal payloads, an on switch stays on after a press |
| DataCard.ActionMessage | app/components/DataCard.tsx:80-88 | a button sends its payload and a switch its next payload, both to the publish topic; a sensor sends nothing |
| DataCard.HandleAction | app/components/DataCard.tsx:80-88 | the action's message goes out through the store's gated publish |
| DataCard.PressTargetFor | app/components/DataCard.tsx:94 | a press runs the action iff not in edit mode and the card is not a sensor; otherwise it opens the editor |
| DataCard.NextSize | app/components/DataCard.tsx:133-135 | (1,1) becomes (2,1), (2,1) becomes (2,2), any other size (1,1) |
| DataCard.SizeCycle | app/components/DataCard.tsx:133-135 | every press lands on one of the three sizes, and three presses from one of them come back to it |
| DataCard.Resize | app/components/DataCard.tsx:131-136 | the card's size becomes the next size and nothing else changes |
| DataCard.TransformedValueRaisesAlert | app/models/CardModel.ts:57-81 | a number at the path that the transform maps above the maximum becomes the value and the newest point, and the card alerts |
| DataCard.TemperatureExampleAlerts | app/models/CardModel.ts:12-16 | a card on "sensors.temp" with `x * 1.8 + 32` and maximum 100 shows 104 for {"sensors":{"temp":40}} and alerts |
| DataCard.TemperatureExtracted | app/models/CardModel.ts:45-54 | the path "sensors.temp" reads 40 from {"sensors":{"temp":40}} |
| DataCard.PathOfTwoParts | app/models/CardModel.ts:46 | "sensors.temp" splits into "sensors" and "temp" |
| CardEdit.InitialForm | app/screens/CardEditScreen.tsx:30-49 | the editor's defaults are never empty for the on and off payloads and the alert colour; a new card opens as an empty sensor, and an existing card opens with its topic, label, path, expression, kind and publish topic, and its payloads when non-empty |
| CardEdit.InitialFormWithThresholds | app/screens/CardEditScreen.tsx:45-46 | the same form, differing only in the threshold texts, which are empty exactly for an unset threshold or one that prints as empty |
| CardEdit.OrElse | app/screens/CardEditScreen.tsx:43-47 | a non-empty text, else the default |
| CardEdit.ThresholdOf | app/screens/CardEditScreen.tsx:69-70 | an empty threshold is null, any other text is what `parseFloat` makes of it |
| CardEdit.SizeOr1 | app/screens/CardEditScreen.tsx:74-75 | the existing card's width or height when non-zero, otherwise 1 |
| CardEdit.CardConfigOf | app/screens/CardEditScreen.tsx:54-76 | the publish topic defaults to the subscribe topic; thresholds and colours follow the rules above; the size comes from the existing card or 1; topic, label and kind are the form's |
| CardEdit.OpenThenSaveKeepsCard | app/screens/CardEditScreen.tsx:30-76 | opening a card in the editor and saving unchanged gives back the same configuration, for a card whose fields the form does not default |
| CardEdit.EmptyOnPayloadReopensAsOn | app/screens/CardEditScreen.tsx:43 | a card with an empty on payload is saved with "ON" after a round through the editor |
| CardEdit.SaveExisting | app/screens/CardEditScreen.tsx:78-79 | an existing card is updated in place under its own id |
| CardEdit.ReplaceConfig | app/screens/CardEditScreen.tsx:79 | updating with every property of a record leaves the card list as it is and gives the named card exactly that configuration, its value, history and time kept; every other card is unchanged |
| CardEdit.SaveNew | app/screens/CardEditScreen.tsx:80-82 | otherwise a new card, under the given id or a random one, is appended |
| CardEdit.SaveRecord | app/screens/CardEditScreen.tsx:78-82 | an existing card is updated, otherwise a new one is added |
| CardEdit.HandleSave | app/screens/CardEditScreen.tsx:51-85 | an empty topic changes nothing and subscribes nothing; otherwise the record is saved and the topic subscribed through the store's gate; the client keeps its listening flag |
| CardEdit.HandleDelete | app/screens/CardEditScreen.tsx:87-92 | a card is removed only when an id is present |
| MqttSettings.ProtocolOf | app/screens/MqttSettingsScreen.tsx:25 | the protocol group, when present, is "ws://" or "wss://" and is the URL's prefix |
| MqttSettings.MatchUrl | app/screens/MqttSettingsScreen.tsx:25 | `brokerUrl.match(...)`; `MatchSound` proves every reported match is a parse of the pattern, and `MatchComplete` that every parse is the one reported |
| MqttSettings.SplitUrl | app/screens/MqttSettingsScreen.tsx:26-29 | the groups, or their defaults; `NoMatchGivesDefaults`, `SplitCompose` and `ComposeSplit` relate it to `ComposeUrl` |
| MqttSettings.ComposeUrl | app/screens/MqttSettingsScreen.tsx:40 | the URL `handleSave` writes; `SplitCompose` proves that splitting a composed URL of valid fields gives the fields back, and `ComposeSplit` that composing the split of a matching URL gives the URL back with the default protocol and path filled in |
| MqttSettings.MatchSound | app/screens/MqttSettingsScreen.tsx:25 | every match the split reports is a way for the URL to match the pattern |
| MqttSettings.MatchComplete | app/screens/MqttSettingsScreen.tsx:25 | every way for a URL to match the pattern is the one the split reports, so the match is unique |
| MqttSettings.NoProtocolPrefix | app/screens/MqttSettingsScreen.tsx:25 | a match without a protocol group never starts with "ws://" or "wss://" |
| MqttSettings.NoMatchGivesDefaults | app/screens/MqttSettingsScreen.tsx:25-29 | a URL that does not match opens the form with "wss://", "", "" and "/mqtt" |
| MqttSettings.SplitCompose | app/screens/MqttSettingsScreen.tsx:25-40 | composing fields with a protocol, a host without ':' or '/', an empty or digit port and a path starting with '/' with no line terminator, and then splitting gives the fields back |
| MqttSettings.ComposeSplit | app/screens/MqttSettingsScreen.tsx:25-40 | splitting a matching URL and composing gives the URL back, with "wss://" in front when it had no protocol and "/mqtt" at the end when it had no path |
| MqttSettings.ComposedProtocol | app/models/MqttStore.ts:49-51 | a composed URL gets the transport protocol its scheme names |
| MqttSettings.PresetComposes | app/screens/MqttSettingsScreen.tsx:82-86 | the preset's literal URL is the one its four fields compose |
| MqttSettings.SettingsForm.constructor | app/screens/MqttSettingsScreen.tsx:21-29 | the form opens with the store's URL and credentials, the URL split into its fields |
| MqttSettings.SettingsForm.ChooseProtocol | app/screens/MqttSettingsScreen.tsx:59-76 | the protocol changes and the URL is recomposed from it and the other three fields |
| MqttSettings.SettingsForm.SetHost | app/screens/MqttSettingsScreen.tsx:95-98 | the host changes and the URL is recomposed from it and the other three fields |
| MqttSettings.SettingsForm.SetPort | app/screens/MqttSettingsScreen.tsx:107-110 | the port changes and the URL is recomposed from it and the other three fields |
| MqttSettings.SettingsForm.SetPath | app/screens/MqttSettingsScreen.tsx:116-119 | the path changes and the URL is recomposed from it and the other three fields |
| MqttSettings.SettingsForm.ApplyPreset | app/screens/MqttSettingsScreen.tsx:79-90 | the fields take the EMQX Cloud values and the URL is the one they compose |
| MqttSettings.SettingsForm.SetUsername | app/screens/MqttSettingsScreen.tsx:127 | only the username changes |
| MqttSettings.SettingsForm.SetPassword | app/screens/MqttSettingsScreen.tsx:134 | only the password changes |
| MqttSettings.SettingsForm.HandleSave | app/screens/MqttSettingsScreen.tsx:39-45 | the store gets the composed URL and the credentials; a connected store is disconnected and its old client ended, any other keeps its status and client; the old client keeps its listening flag |
| MqttSettings.SettingsForm.PressConnectButton | app/screens/MqttSettingsScreen.tsx:149-158 | a connected or connecting store is disconnected with its settings untouched and its old client ended; otherwise the form is saved and a connection started with the composed URL on a fresh, listening client with no calls yet, the old client getting no call; the old client keeps its listening flag |

## Left out

- The mqtt transport and its asynchronous callbacks. The client is an object that logs calls (subscribe, unsubscribe, publish, end, removeAllListeners), and each event is a method. The model has no concurrency and no broker behaviour.
- The `new Function` evaluation of a card's expression and the textual substitution of `x`. Both are one foreign function, `Runtime.eval`, from the expression and the number to a value or a throw. An expression that returns undefined is not represented.
- Floating point. Numbers are exact reals, so NaN and the infinities do not exist. `Number(text)`, `String(number)` and `parseFloat` are foreign functions, with `None` for NaN. A threshold that `parseFloat` turns into NaN is modelled as no threshold; the two behave alike, because NaN fails every comparison.
- Property access is modelled for own fields of objects and for an array's indices and length. Properties inherited through prototypes, for example a path step named `toString`, are not modelled.
- UseMqtt.ParsePayload: `toLowerCase()` is modelled for ASCII letters only. This is exact for the comparison with "true" and "false". The only non-ASCII characters that lower-case into ASCII letters are U+0130, which becomes "i" and a combining dot, and U+212A (Kelvin sign), which becomes "k". Neither can produce those words.
- Root.RootStore.ProcessMessage: the `filter` and the `forEach` are one loop. This is equivalent, because the pipeline never changes a card's topic (`Cards.UpdateKeepsConfig`). One `now` stands for every card's `Date.now()`.
- Root.RootStore.HandleClientMessage: the `try`/`catch` around routing is not modelled. Every step of the model is total, and the pipeline's own `catch` is modelled in `Cards.Updated`.
- `mobx-state-tree` runtime type checks and identifier semantics are not modelled. Fields are typed, and the reflective `setProp` is a setter per field. The one check that changes behaviour is modelled: the value property accepts only strings and numbers (`Cards.Storable`).
- The card's flash animation, the layout arithmetic for width and height, and the history bar graph are left out. They are rendering and floating-point computations.
- The `Uint8Array` variant of the hook's `publish` is left out; only string messages are modelled.
- Math.random() in client ids and card ids is a parameter (`suffix`, `randomId`), and so is Date.now() (`now`).
- Navigation calls in the screens are left out.
- The React effect machinery around the hook is left out: dependency lists, re-running on settings changes, and `useMemo`. `Start` and `Cleanup` are the effect's body and its cleanup, called in order. The status `error` is declared but never set, so no method sets it.
- Settings storage is a map from keys to texts. A failed read is a parameter. The asynchronous failure of `saveSettings`, a rejected promise that the caller sees, is left out.
- zod's rejection of extra keys is not modelled, because the object schemas strip them. Only JSON-shaped values (`Js.Value`) are parsed.
- SettingsStorage.ParseWidget: uses the corrected type check `AsWidgetType`. As written, a `type` whose `String` is a type name, such as the array `["text"]`, also passes (see "## Findings").
- SettingsStorage.ParseWidgets: built on `ParseWidget`, so it has the corrected type check; as written, the `["text"]` widget passes.
- SettingsStorage.ParseSettings: built on `ParseWidgets`, with the same corrected type check.
- SettingsStorage.Loaded: with the corrected type check, stored settings with a `["text"]` widget load as the defaults; as written, they load as stored, array included.
- SettingsStorage.LoadedFallsBack: "passes the schema" means the corrected schema, so the `["text"]` case falls back to the defaults, where the code as written returns the stored data.
- SettingsStorage.Storage.Load: inherits the corrected type check from `Loaded`.
- Clipboard and file export are left out, and so are the MMKV wrappers, the snapshot auto-save, the settings and MQTT providers, the store context, the navigators and the purely visual components. All of them are I/O or wiring.

## Findings

| source | as written | input that shows it | evidently intended | confidence | as-written member | corrected member |
|---|---|---|---|---|---|---|
| app/services/settingsStorage.ts:15 | the widget `type` check converts the stored value with `String(val)` before comparing it with "numeric", "text" and "boolean", and the value itself then passes through unchanged | a stored widget whose `type` is the array `["text"]`: `String(["text"])` is "text", so the check passes and the settings carry an array where a type name is expected (SettingsStorage.TypeCheckAcceptsArray) | accept only the three strings themselves | not executed | SettingsStorage.TypeCheckAsWritten | SettingsStorage.AsWidgetType |
