/** The card editor (app/screens/CardEditScreen.tsx): the form a card opens
    with, the card record a save builds from the form, and the store updates
    a save or a delete performs. An absent or empty `cardId` route parameter
    is the empty string. */
module CardEdit {
  import opened Options
  import opened Js
  import opened Cards
  import opened Dashboard
  import opened Mqtt
  import MqttClients

  /** The editor's fields; thresholds and card colours are edited as text. */
  datatype CardForm = CardForm(
    labelText: string,
    topic: string,
    jsonPath: string,
    mathExpression: string,
    unit: string,
    showTopic: bool,
    showGraph: bool,
    showFlash: bool,
    kind: CardKind,
    publishTopic: string,
    publishPayload: string,
    onPayload: string,
    offPayload: string,
    thresholdMax: string,
    thresholdMin: string,
    alertColor: string,
    cardBgColor: string,
    cardTextColor: string)

  const DefaultOnPayload: string := "ON"
  const DefaultOffPayload: string := "OFF"
  const DefaultAlertColor: string := "#FF4444"

  /** `s || fallback`. */
  function OrElse(s: string, fallback: string): (r: string)
    ensures s != "" ==> r == s
    ensures s == "" ==> r == fallback
  {
    if s != "" then s else fallback
  }

  /** `threshold?.toString() || ""`. */
  function ThresholdText(t: Option<real>, rt: Runtime): string
  {
    if t.Some? then rt.numberToText(t.value) else ""
  }

  /** The form for a new card (`None`) or for an existing card. */
  function InitialForm(existing: Option<CardConfig>): (f: CardForm)
    ensures f.onPayload != "" && f.offPayload != "" && f.alertColor != ""
    ensures existing.None? ==> f.topic == "" && f.kind == Sensor && f.showTopic && !f.showGraph
    ensures existing.Some? ==>
      && f.topic == existing.value.topic && f.labelText == existing.value.labelText
      && f.jsonPath == existing.value.jsonPath && f.mathExpression == existing.value.mathExpression
      && f.kind == existing.value.kind && f.publishTopic == existing.value.publishTopic
      && (existing.value.onPayload != "" ==> f.onPayload == existing.value.onPayload)
      && (existing.value.offPayload != "" ==> f.offPayload == existing.value.offPayload)
  {
    match existing
    case None =>
      CardForm("", "", "", "", "", true, false, false, Sensor, "", "",
               DefaultOnPayload, DefaultOffPayload, "", "", DefaultAlertColor, "", "")
    case Some(c) =>
      CardForm(c.labelText, c.topic, c.jsonPath, c.mathExpression, c.unit,
               c.showTopic, c.showGraph, c.showFlash, c.kind, c.publishTopic, c.publishPayload,
               OrElse(c.onPayload, DefaultOnPayload), OrElse(c.offPayload, DefaultOffPayload),
               "", "", OrElse(c.alertColor, DefaultAlertColor),
               c.cardBgColor.GetOr(""), c.cardTextColor.GetOr(""))
  }

  /** The form for an existing card, with the thresholds' texts as the
      runtime prints them. */
  function InitialFormWithThresholds(existing: Option<CardConfig>, rt: Runtime): (f: CardForm)
    ensures f.(thresholdMax := "", thresholdMin := "") == InitialForm(existing)
    ensures existing.None? ==> f.thresholdMax == "" && f.thresholdMin == ""
    ensures existing.Some? ==>
      (f.thresholdMax == "" <==> existing.value.thresholdMax.None? || rt.numberToText(existing.value.thresholdMax.value) == "")
  {
    match existing
    case None => InitialForm(None)
    case Some(c) =>
      InitialForm(existing).(thresholdMax := ThresholdText(c.thresholdMax, rt),
                             thresholdMin := ThresholdText(c.thresholdMin, rt))
  }

  /** `text ? parseFloat(text) : null`. A text `parseFloat` reads as NaN is
      unset here: a NaN threshold fails every comparison, as an unset one
      does. */
  function ThresholdOf(text: string, rt: Runtime): (t: Option<real>)
    ensures text == "" ==> t.None?
    ensures text != "" ==> t == rt.parseFloat(text)
  {
    if text == "" then None else rt.parseFloat(text)
  }

  /** `n || 1` for a size. */
  function SizeOr1(n: Option<int>): (r: int)
    ensures n.Some? && n.value != 0 ==> r == n.value
    ensures n.None? || n.value == 0 ==> r == 1
  {
    if n.Some? && n.value != 0 then n.value else 1
  }

  /** The record `handleSave` builds from the form; the size is taken from
      the card being edited. */
  function CardConfigOf(f: CardForm, existing: Option<CardConfig>, rt: Runtime): (c: CardConfig)
    ensures c.publishTopic == OrElse(f.publishTopic, f.topic)
    ensures c.thresholdMax == ThresholdOf(f.thresholdMax, rt) && c.thresholdMin == ThresholdOf(f.thresholdMin, rt)
    ensures c.cardBgColor == OrAbsent(f.cardBgColor) && c.cardTextColor == OrAbsent(f.cardTextColor)
    ensures c.width == SizeOr1(if existing.Some? then Some(existing.value.width) else None)
    ensures c.height == SizeOr1(if existing.Some? then Some(existing.value.height) else None)
    ensures c.topic == f.topic && c.labelText == f.labelText && c.kind == f.kind
  {
    CardConfig(
      topic := f.topic,
      jsonPath := f.jsonPath,
      labelText := f.labelText,
      unit := f.unit,
      mathExpression := f.mathExpression,
      showTopic := f.showTopic,
      showGraph := f.showGraph,
      showFlash := f.showFlash,
      width := SizeOr1(if existing.Some? then Some(existing.value.width) else None),
      height := SizeOr1(if existing.Some? then Some(existing.value.height) else None),
      kind := f.kind,
      publishTopic := OrElse(f.publishTopic, f.topic),
      publishPayload := f.publishPayload,
      onPayload := f.onPayload,
      offPayload := f.offPayload,
      thresholdMax := ThresholdOf(f.thresholdMax, rt),
      thresholdMin := ThresholdOf(f.thresholdMin, rt),
      alertColor := f.alertColor,
      cardBgColor := OrAbsent(f.cardBgColor),
      cardTextColor := OrAbsent(f.cardTextColor))
  }

  /** A card the editor can show without changing anything: the fields that
      the form defaults when empty are not empty. */
  predicate Normalized(c: CardConfig, rt: Runtime)
  {
    && c.publishTopic != "" && c.onPayload != "" && c.offPayload != "" && c.alertColor != ""
    && (c.cardBgColor.Some? ==> c.cardBgColor.value != "")
    && (c.cardTextColor.Some? ==> c.cardTextColor.value != "")
    && c.width != 0 && c.height != 0
    && (c.thresholdMax.Some? ==> ThresholdText(c.thresholdMax, rt) != "" && rt.parseFloat(ThresholdText(c.thresholdMax, rt)) == c.thresholdMax)
    && (c.thresholdMin.Some? ==> ThresholdText(c.thresholdMin, rt) != "" && rt.parseFloat(ThresholdText(c.thresholdMin, rt)) == c.thresholdMin)
  }

  /** Opening a normalized card and saving it without edits keeps its
      configuration. */
  lemma OpenThenSaveKeepsCard(c: CardConfig, rt: Runtime)
    requires Normalized(c, rt)
    ensures CardConfigOf(InitialFormWithThresholds(Some(c), rt), Some(c), rt) == c
  {
  }

  /** A card saved with an empty ON payload opens with "ON", so saving it
      again unchanged gives it the ON payload "ON". */
  lemma EmptyOnPayloadReopensAsOn(c: CardConfig, rt: Runtime)
    requires c.onPayload == ""
    ensures CardConfigOf(InitialFormWithThresholds(Some(c), rt), Some(c), rt).onPayload == DefaultOnPayload
  {
  }

  /** Between the state before a save and now: if `cardId` names a card on
      the dashboard, that card has taken every property of the record built
      from `f` and nothing else has changed. */
  twostate predicate ExistingCardSaved(f: CardForm, cardId: string, dashboard: DashboardStore, rt: Runtime)
    reads dashboard, dashboard.cards
  {
    var k := IndexOf(IdsOf(old(dashboard.cards)), cardId);
    cardId != "" && k < |old(dashboard.cards)| ==>
      && dashboard.cards == old(dashboard.cards)
      && forall i :: 0 <= i < |dashboard.cards| ==>
           dashboard.cards[i].State() ==
             if i == k then old(dashboard.cards[i].State()).(config := CardConfigOf(f, Some(old(dashboard.cards[i].config)), rt))
             else old(dashboard.cards[i].State())
  }

  /** Between the state before a save and now: if `cardId` names no card,
      a new card built from `f` has been added at the end under `cardId`, or
      under `randomId` when there is no `cardId`, and the other cards are as
      they were. */
  twostate predicate NewCardSaved(f: CardForm, cardId: string, randomId: string, dashboard: DashboardStore, rt: Runtime)
    reads dashboard, dashboard.cards
  {
    cardId == "" || cardId !in IdsOf(old(dashboard.cards)) ==>
      && |dashboard.cards| == |old(dashboard.cards)| + 1
      && dashboard.cards[..|old(dashboard.cards)|] == old(dashboard.cards)
      && fresh(dashboard.cards[|old(dashboard.cards)|])
      && dashboard.cards[|old(dashboard.cards)|].id == (if cardId != "" then cardId else randomId)
      && dashboard.cards[|old(dashboard.cards)|].State() == CardState(CardConfigOf(f, None, rt), Str("--"), [], 0)
      && forall i :: 0 <= i < |old(dashboard.cards)| ==> dashboard.cards[i].State() == old(dashboard.cards[i].State())
  }

  /** The save of a form for a card on the dashboard. */
  method SaveExisting(f: CardForm, cardId: string, dashboard: DashboardStore, rt: Runtime)
    requires dashboard.Valid() && cardId != "" && cardId in IdsOf(dashboard.cards)
    modifies dashboard.cards
    ensures dashboard.Valid()
    ensures ExistingCardSaved(f, cardId, dashboard, rt)
  {
    var existing := dashboard.Find(cardId);
    ReplaceConfig(cardId, CardConfigOf(f, Some(existing.config), rt), dashboard);
  }

  /** The update a save makes on an existing card: every property is
      assigned, so the card's configuration becomes `config`. */
  method ReplaceConfig(cardId: string, config: CardConfig, dashboard: DashboardStore)
    requires dashboard.Valid()
    modifies dashboard.cards
    ensures dashboard.cards == old(dashboard.cards)
    ensures var k := IndexOf(IdsOf(dashboard.cards), cardId);
      forall i :: 0 <= i < |dashboard.cards| ==>
        dashboard.cards[i].State() == if i == k then old(dashboard.cards[i].State()).(config := config) else old(dashboard.cards[i].State())
  {
    forall d: CardConfig ensures Patched(d, FullPatch(config)) == config {
      FullPatchReplaces(config, d);
    }
    dashboard.UpdateCard(cardId, FullPatch(config));
  }

  /** The save of a form for a card not on the dashboard. */
  method SaveNew(f: CardForm, cardId: string, randomId: string, dashboard: DashboardStore, rt: Runtime)
    requires dashboard.Valid() && (cardId == "" || cardId !in IdsOf(dashboard.cards))
    modifies dashboard
    ensures dashboard.Valid()
    ensures NewCardSaved(f, cardId, randomId, dashboard, rt)
  {
    var card := dashboard.AddCard(if cardId != "" then cardId else randomId, CardConfigOf(f, None, rt));
  }

  /** The store update of a save with a non-empty topic. */
  method SaveRecord(f: CardForm, cardId: string, randomId: string, dashboard: DashboardStore, rt: Runtime)
    requires dashboard.Valid()
    modifies dashboard, dashboard.cards
    ensures dashboard.Valid()
    ensures ExistingCardSaved(f, cardId, dashboard, rt)
    ensures NewCardSaved(f, cardId, randomId, dashboard, rt)
  {
    if cardId != "" && cardId in IdsOf(dashboard.cards) {
      SaveExisting(f, cardId, dashboard, rt);
    } else {
      SaveNew(f, cardId, randomId, dashboard, rt);
    }
  }

  /** `handleSave()`: with an empty topic nothing happens; otherwise the
      record is saved and its topic is subscribed through the connection
      store. */
  method HandleSave(f: CardForm, cardId: string, randomId: string, dashboard: DashboardStore, store: MqttStore, rt: Runtime)
    requires dashboard.Valid()
    modifies dashboard, dashboard.cards, store.client
    ensures store.client != null ==> store.client.listening == old(store.client.listening)
    ensures dashboard.Valid()
    ensures f.topic == "" ==>
      && dashboard.cards == old(dashboard.cards)
      && (forall i :: 0 <= i < |dashboard.cards| ==> dashboard.cards[i].State() == old(dashboard.cards[i].State()))
      && (store.client != null ==> store.client.calls == old(store.client.calls))
    ensures store.client != null && f.topic != "" ==>
      store.client.calls == old(store.client.calls) +
        (if store.status == Connected then [MqttClients.Call.Subscribe([f.topic])] else [])
    ensures f.topic != "" ==> ExistingCardSaved(f, cardId, dashboard, rt)
    ensures f.topic != "" ==> NewCardSaved(f, cardId, randomId, dashboard, rt)
  {
    if f.topic == "" {
      return;
    }
    SaveRecord(f, cardId, randomId, dashboard, rt);
    store.Subscribe(f.topic);
  }

  /** `handleDelete()`: only a `cardId` removes a card. */
  method HandleDelete(cardId: string, dashboard: DashboardStore)
    requires dashboard.Valid()
    modifies dashboard
    ensures dashboard.Valid()
    ensures cardId == "" ==> dashboard.cards == old(dashboard.cards)
    ensures var k := IndexOf(IdsOf(old(dashboard.cards)), cardId);
      cardId != "" ==>
        dashboard.cards == if k < |old(dashboard.cards)| then old(dashboard.cards)[..k] + old(dashboard.cards)[k + 1..] else old(dashboard.cards)
  {
    if cardId != "" {
      dashboard.RemoveCard(cardId);
    }
  }
}
