/** The rules a dashboard card applies when it is drawn and pressed
    (app/components/DataCard.tsx): the threshold alert, the colour choice,
    the switch state, the message a press publishes, where a press goes, and
    the size cycle of the resize button. */
module DataCard {
  import opened Options
  import opened Js
  import opened Cards
  import opened Mqtt
  import MqttClients

  /** `isAlert`: the value converts to a number that lies above a set maximum
      or below a set minimum. */
  predicate IsAlert(value: Value, max: Option<real>, min: Option<real>, rt: Runtime)
  {
    match ToNumber(value, rt)
    case None => false
    case Some(n) => (max.Some? && n > max.value) || (min.Some? && n < min.value)
  }

  /** The band of values that raise no alert: unbounded on a side without a
      threshold. */
  predicate InBand(n: real, max: Option<real>, min: Option<real>)
  {
    (max.None? || n <= max.value) && (min.None? || min.value <= n)
  }

  /** A card alerts exactly when its value is a number outside the band. */
  lemma AlertIffOutOfBand(value: Value, max: Option<real>, min: Option<real>, rt: Runtime)
    ensures IsAlert(value, max, min, rt) <==>
      ToNumber(value, rt).Some? && !InBand(ToNumber(value, rt).value, max, min)
  {
  }

  /** Without thresholds a card never alerts. */
  lemma NoThresholdsNoAlert(value: Value, rt: Runtime)
    ensures !IsAlert(value, None, None, rt)
  {
  }

  /** A value that is not a number never alerts, whatever the thresholds. */
  lemma NonNumberNoAlert(value: Value, max: Option<real>, min: Option<real>, rt: Runtime)
    requires ToNumber(value, rt).None?
    ensures !IsAlert(value, max, min, rt)
  {
  }

  /** `a || b || fallback` over colours that may be unset or empty. */
  function FirstColor(a: Option<string>, b: Option<string>, fallback: string): (c: string)
    ensures a.Some? && a.value != "" ==> c == a.value
    ensures (a.None? || a.value == "") && b.Some? && b.value != "" ==> c == b.value
    ensures (a.None? || a.value == "") && (b.None? || b.value == "") ==> c == fallback
  {
    if a.Some? && a.value != "" then a.value
    else if b.Some? && b.value != "" then b.value
    else fallback
  }

  /** `bgColor`: the alert colour while alerting, otherwise the card's own
      colour, then the theme's, then the palette default `fallback`. */
  function BackgroundColor(c: CardConfig, value: Value, themeBg: Option<string>, fallback: string, rt: Runtime): (color: string)
    ensures IsAlert(value, c.thresholdMax, c.thresholdMin, rt) ==> color == c.alertColor
    ensures !IsAlert(value, c.thresholdMax, c.thresholdMin, rt) ==> color == FirstColor(c.cardBgColor, themeBg, fallback)
  {
    if IsAlert(value, c.thresholdMax, c.thresholdMin, rt) then c.alertColor
    else FirstColor(c.cardBgColor, themeBg, fallback)
  }

  /** `textColor`: the card's text colour, then the theme's, then the
      default. */
  function TextColor(c: CardConfig, themeText: Option<string>, fallback: string): (color: string)
    ensures c.cardTextColor.Some? && c.cardTextColor.value != "" ==> color == c.cardTextColor.value
    ensures (c.cardTextColor.None? || c.cardTextColor.value == "") && themeText.Some? && themeText.value != "" ==>
      color == themeText.value
    ensures (c.cardTextColor.None? || c.cardTextColor.value == "") && (themeText.None? || themeText.value == "") ==>
      color == fallback
  {
    FirstColor(c.cardTextColor, themeText, fallback)
  }

  /** A switch shows ON iff the text of its value is its ON payload. */
  predicate IsOn(value: Value, onPayload: string, rt: Runtime)
  {
    ToText(value, rt) == onPayload
  }

  /** The payload a switch press sends: the OFF payload while ON, otherwise
      the ON payload. */
  function NextSwitchPayload(value: Value, onPayload: string, offPayload: string, rt: Runtime): (p: string)
    ensures IsOn(value, onPayload, rt) ==> p == offPayload
    ensures !IsOn(value, onPayload, rt) ==> p == onPayload
  {
    if IsOn(value, onPayload, rt) then offPayload else onPayload
  }

  /** Once the device echoes the payload a press sent, the switch shows the
      other state, provided ON and OFF payloads differ. */
  lemma SwitchToggles(value: Value, onPayload: string, offPayload: string, rt: Runtime)
    requires onPayload != offPayload
    ensures IsOn(Str(NextSwitchPayload(value, onPayload, offPayload, rt)), onPayload, rt) <==> !IsOn(value, onPayload, rt)
  {
  }

  /** With equal ON and OFF payloads, every press sends the same text and an
      ON switch stays ON. */
  lemma EqualPayloadsNeverToggle(value: Value, payload: string, rt: Runtime)
    requires IsOn(value, payload, rt)
    ensures IsOn(Str(NextSwitchPayload(value, payload, payload, rt)), payload, rt)
  {
  }

  datatype Message = Message(topic: string, payload: string)

  /** What `handleAction` publishes: a button its payload, a switch the next
      switch payload, both to the publish topic; a sensor nothing. */
  function ActionMessage(c: CardConfig, value: Value, rt: Runtime): (m: Option<Message>)
    ensures m.None? <==> c.kind == Sensor
    ensures m.Some? ==> m.value.topic == c.publishTopic
    ensures c.kind == Button ==> m == Some(Message(c.publishTopic, c.publishPayload))
    ensures c.kind == Switch ==> m == Some(Message(c.publishTopic, NextSwitchPayload(value, c.onPayload, c.offPayload, rt)))
  {
    match c.kind
    case Button => Some(Message(c.publishTopic, c.publishPayload))
    case Switch => Some(Message(c.publishTopic, NextSwitchPayload(value, c.onPayload, c.offPayload, rt)))
    case Sensor => None
  }

  /** `handleAction()` on `card`, through the connection store, which drops
      the message unless it is connected. */
  method HandleAction(card: Card, store: MqttStore, rt: Runtime)
    modifies store.client
    ensures var m := ActionMessage(card.config, card.value, rt);
      store.client != null ==>
        store.client.calls == old(store.client.calls) +
          (if m.Some? && store.status == Connected then [MqttClients.Call.Publish(m.value.topic, m.value.payload)] else [])
    ensures store.client != null ==> store.client.listening == old(store.client.listening)
  {
    var m := ActionMessage(card.config, card.value, rt);
    if m.Some? {
      store.Publish(m.value.topic, m.value.payload);
    }
  }

  datatype PressTarget = OpenEditor | RunAction

  /** The `onPress` of the card body: in edit mode always the editor;
      otherwise the action for buttons and switches and the editor for
      sensors. */
  function PressTargetFor(isEditMode: bool, kind: CardKind): (t: PressTarget)
    ensures t == RunAction <==> !isEditMode && kind != Sensor
  {
    if isEditMode then OpenEditor else if kind != Sensor then RunAction else OpenEditor
  }

  /** The size after a press of the resize button. */
  function NextSize(width: int, height: int): (size: (int, int))
    ensures width == 1 && height == 1 ==> size == (2, 1)
    ensures width == 2 && height == 1 ==> size == (2, 2)
    ensures !(width == 1 && height == 1) && !(width == 2 && height == 1) ==> size == (1, 1)
  {
    if width == 1 && height == 1 then (2, width)
    else if width == 2 && height == 1 then (width, 2)
    else (1, 1)
  }

  /** The sizes a card can take through the resize button. */
  predicate IsCycleSize(size: (int, int))
  {
    size == (1, 1) || size == (2, 1) || size == (2, 2)
  }

  /** Any size enters the cycle after one press, and three presses bring a
      card back to the size it had. */
  lemma SizeCycle(width: int, height: int)
    ensures IsCycleSize(NextSize(width, height))
    ensures IsCycleSize((width, height)) ==>
      var s1 := NextSize(width, height);
      var s2 := NextSize(s1.0, s1.1);
      NextSize(s2.0, s2.1) == (width, height)
  {
  }

  /** The resize button's handler on `card`. */
  method Resize(card: Card)
    modifies card
    ensures var size := NextSize(old(card.config.width), old(card.config.height));
      card.State() == old(card.State()).(config := old(card.config).(width := size.0, height := size.1))
  {
    if card.config.width == 1 && card.config.height == 1 {
      card.SetWidth(2);
    } else if card.config.width == 2 && card.config.height == 1 {
      card.SetHeight(2);
    } else {
      card.SetWidth(1);
      card.SetHeight(1);
    }
  }

  /** The pipeline and the alert together: a number at the card's path that
      the transform maps above the maximum becomes the card's value and its
      newest point, and the card alerts. */
  lemma TransformedValueRaisesAlert(s: CardState, payload: Value, now: int, rt: Runtime, n: real, m: real)
    requires Extracted(payload, s.config.jsonPath) == Some(Num(n))
    requires s.config.mathExpression != "" && rt.eval(s.config.mathExpression, n) == Some(Num(m))
    requires s.config.thresholdMax.Some? && m > s.config.thresholdMax.value
    ensures var t := Updated(s, payload, now, rt);
      && t.value == Num(m)
      && t.lastUpdated == now
      && |t.history| > 0 && t.history[|t.history| - 1] == m
      && IsAlert(t.value, t.config.thresholdMax, t.config.thresholdMin, rt)
  {
    var t := Updated(s, payload, now, rt);
    assert t.value == Num(m);
    assert t.history == Pushed(s.history, m);
  }

  /** The example of a card on "sensors.temp" with the transform `x * 1.8 + 32`
      and a maximum of 100: when the transform yields 104 for the message
      {"sensors": {"temp": 40}}, the card shows 104 and alerts. */
  lemma TemperatureExampleAlerts(s: CardState, rt: Runtime)
    requires s.config.jsonPath == "sensors.temp" && s.config.mathExpression == "x * 1.8 + 32"
    requires s.config.thresholdMax == Some(100.0)
    requires rt.eval("x * 1.8 + 32", 40.0) == Some(Num(104.0))
    ensures Updated(s, TemperatureMessage(), 7, rt).value == Num(104.0)
    ensures IsAlert(Num(104.0), s.config.thresholdMax, s.config.thresholdMin, rt)
  {
    TemperatureExtracted();
    TransformedValueRaisesAlert(s, TemperatureMessage(), 7, rt, 40.0, 104.0);
  }

  function TemperatureMessage(): Value
  {
    Obj(map["sensors" := Obj(map["temp" := Num(40.0)])])
  }

  lemma TemperatureExtracted()
    ensures Extracted(TemperatureMessage(), "sensors.temp") == Some(Num(40.0))
  {
    var inner := Obj(map["temp" := Num(40.0)]);
    PathOfTwoParts();
    assert Walk(TemperatureMessage(), ["sensors", "temp"]) == Walk(inner, ["temp"]) by {
      assert ["sensors", "temp"][1..] == ["temp"];
    }
    assert Walk(inner, ["temp"]) == Some(Num(40.0)) by {
      assert ["temp"][1..] == [];
    }
  }

  lemma PathOfTwoParts()
    ensures Text.Split("sensors.temp", '.') == ["sensors", "temp"]
  {
    var a, b := "sensors", "temp";
    assert '.' !in a && '.' !in b;
    assert a + ['.'] + b == "sensors.temp";
    Text.SplitAtFirst(a, b, '.');
    Text.SplitWithoutSeparator(b, '.');
  }
}
