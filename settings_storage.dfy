/** Validation and persistence of the settings
    (app/services/settingsStorage.ts). The schemas are parsers from a parsed
    JSON value to typed settings: an object schema accepts only a plain
    object (never null or an array), drops keys it does not name, and needs
    each named key present with the right type unless the key is optional;
    an integer schema accepts only a number with no fractional part. Storage
    is a map from keys to texts. */
module SettingsStorage {
  import opened Options
  import opened Js
  import opened Settings

  const SettingsKey: string := "app.settings.v1"

  function Field(fields: map<string, Value>, key: string): Option<Value>
  {
    if key in fields then Some(fields[key]) else None
  }

  /** `z.string()`. */
  function AsString(v: Option<Value>): (r: Option<string>)
    ensures r.Some? <==> v.Some? && v.value.Str?
    ensures r.Some? ==> v == Some(Str(r.value))
  {
    if v.Some? && v.value.Str? then Some(v.value.s) else None
  }

  /** `z.string().min(1)`. */
  function AsNonEmptyString(v: Option<Value>): (r: Option<string>)
    ensures r.Some? <==> v.Some? && v.value.Str? && v.value.s != ""
    ensures r.Some? ==> v == Some(Str(r.value))
  {
    if v.Some? && v.value.Str? && v.value.s != "" then Some(v.value.s) else None
  }

  /** `z.string().optional()`: the outer `None` is a rejection, the inner one
      an absent key. */
  function AsOptionalString(v: Option<Value>): (r: Option<Option<string>>)
    ensures r == Some(None) <==> v.None?
    ensures r.Some? && r.value.Some? <==> v.Some? && v.value.Str?
    ensures r.Some? && r.value.Some? ==> v == Some(Str(r.value.value))
  {
    match v
    case None => Some(None)
    case Some(Str(s)) => Some(Some(s))
    case Some(_) => None
  }

  /** `z.number().int()`. */
  function AsInt(v: Option<Value>): (r: Option<int>)
    ensures r.Some? <==> v.Some? && v.value.Num? && v.value.n == v.value.n.Floor as real
    ensures r.Some? ==> v == Some(Num(r.value as real))
  {
    if v.Some? && v.value.Num? && v.value.n == v.value.n.Floor as real then Some(v.value.n.Floor) else None
  }

  /** `z.number().int().nonnegative().optional()`. */
  function AsOptionalNat(v: Option<Value>): (r: Option<Option<int>>)
    ensures r == Some(None) <==> v.None?
    ensures r.Some? && r.value.Some? ==> v == Some(Num(r.value.value as real)) && r.value.value >= 0
  {
    match v
    case None => Some(None)
    case Some(x) =>
      var k := AsInt(v);
      if k.Some? && k.value >= 0 then Some(k) else None
  }

  /** The widget `type` check as written: `String(val)` is one of the three
      names. The value itself passes through unchanged, so anything whose
      text is a type name is accepted, an array holding one such string
      included. */
  predicate TypeCheckAsWritten(v: Option<Value>, rt: Runtime)
  {
    v.Some? && ToText(v.value, rt) in ["numeric", "text", "boolean"]
  }

  /** The check as intended: a string naming one of the three widget types. */
  function AsWidgetType(v: Option<Value>): (r: Option<WidgetType>)
    ensures r.Some? <==> v == Some(Str("numeric")) || v == Some(Str("text")) || v == Some(Str("boolean"))
    ensures r.Some? ==> v == Some(Str(TypeName(r.value)))
  {
    if v == Some(Str("numeric")) then Some(Numeric)
    else if v == Some(Str("text")) then Some(Text)
    else if v == Some(Str("boolean")) then Some(Boolean)
    else None
  }

  function TypeName(t: WidgetType): string
  {
    match t
    case Numeric => "numeric"
    case Text => "text"
    case Boolean => "boolean"
  }

  /** An array holding the string "text" passes the check as written but is
      not a widget type; the intended check refuses it. */
  lemma TypeCheckAcceptsArray(rt: Runtime)
    ensures TypeCheckAsWritten(Some(Arr([Str("text")])), rt)
    ensures AsWidgetType(Some(Arr([Str("text")]))).None?
  {
    SingletonArrayText("text", rt);
  }

  /** Every value the intended check accepts also passes the check as
      written: the correction only removes values that are not widget
      types. */
  lemma IntendedTypeCheckIsNarrower(v: Option<Value>, rt: Runtime)
    requires AsWidgetType(v).Some?
    ensures TypeCheckAsWritten(v, rt)
  {
  }

  /** `WidgetSchema`. */
  function ParseWidget(v: Value): Option<TopicWidget>
  {
    match v
    case Obj(f) =>
      var id := AsString(Field(f, "id"));
      var topic := AsNonEmptyString(Field(f, "topic"));
      var labelText := AsNonEmptyString(Field(f, "label"));
      var unit := AsOptionalString(Field(f, "unit"));
      var kind := AsWidgetType(Field(f, "type"));
      var precision := AsOptionalNat(Field(f, "precision"));
      if id.Some? && topic.Some? && labelText.Some? && unit.Some? && kind.Some? && precision.Some?
      then Some(TopicWidget(id.value, topic.value, labelText.value, unit.value, kind.value, precision.value))
      else None
    case _ => None
  }

  /** `z.array(WidgetSchema)` on the items of an array: every item must
      pass. */
  function ParseWidgets(items: seq<Value>): (r: Option<seq<TopicWidget>>)
    ensures r.Some? <==> forall i :: 0 <= i < |items| ==> ParseWidget(items[i]).Some?
    ensures r.Some? ==> |r.value| == |items| && forall i :: 0 <= i < |items| ==> Some(r.value[i]) == ParseWidget(items[i])
  {
    if items == [] then Some([])
    else
      match (ParseWidgets(items[..|items| - 1]), ParseWidget(items[|items| - 1]))
      case (Some(ws), Some(w)) => Some(ws + [w])
      case _ => None
  }

  function ParseMqtt(v: Value): Option<MqttSettings>
  {
    match v
    case Obj(f) =>
      var url := AsString(Field(f, "url"));
      var clientId := AsOptionalString(Field(f, "clientId"));
      var username := AsOptionalString(Field(f, "username"));
      var password := AsOptionalString(Field(f, "password"));
      var topics := Field(f, "topics");
      if url.Some? && clientId.Some? && username.Some? && password.Some? && topics.Some? && topics.value.Arr?
      then match ParseWidgets(topics.value.items)
        case Some(ws) => Some(MqttSettings(url.value, clientId.value, username.value, password.value, ws))
        case None => None
      else None
    case _ => None
  }

  function ParseUi(v: Value): Option<UiSettings>
  {
    match v
    case Obj(f) =>
      var gridColumns := AsInt(Field(f, "gridColumns"));
      var staleMs := AsInt(Field(f, "staleMs"));
      if gridColumns.Some? && 1 <= gridColumns.value <= 4 && staleMs.Some? && staleMs.value >= 1000
      then Some(UiSettings(gridColumns.value, staleMs.value))
      else None
    case _ => None
  }

  /** `SettingsSchema.safeParse(v)`: the validated data, or `None` for a
      failure. */
  function ParseSettings(v: Value): Option<AppSettings>
  {
    if v.Obj? && "mqtt" in v.fields && "ui" in v.fields then
      var mqtt := ParseMqtt(v.fields["mqtt"]);
      var ui := ParseUi(v.fields["ui"]);
      if mqtt.Some? && ui.Some? then Some(AppSettings(mqtt.value, ui.value)) else None
    else None
  }

  /** What the schema demands of a widget, stated on the typed record. */
  predicate ValidWidget(w: TopicWidget)
  {
    w.topic != "" && w.labelText != "" && (w.precision.Some? ==> w.precision.value >= 0)
  }

  /** What the schema demands of the settings, stated on the typed record. */
  predicate Valid(s: AppSettings)
  {
    && (forall i :: 0 <= i < |s.mqtt.topics| ==> ValidWidget(s.mqtt.topics[i]))
    && 1 <= s.ui.gridColumns <= 4
    && s.ui.staleMs >= 1000
  }

  /** A value with an optional key: the key is left out when absent, as
      `JSON.stringify` leaves out an `undefined` property. */
  function WithOptional(fields: map<string, Value>, key: string, v: Option<Value>): map<string, Value>
  {
    if v.Some? then fields[key := v.value] else fields
  }

  function EncodeWidget(w: TopicWidget): Value
  {
    var f := map["id" := Str(w.id), "topic" := Str(w.topic), "label" := Str(w.labelText),
                 "type" := Str(TypeName(w.kind))];
    var f := WithOptional(f, "unit", if w.unit.Some? then Some(Str(w.unit.value)) else None);
    Obj(WithOptional(f, "precision", if w.precision.Some? then Some(Num(w.precision.value as real)) else None))
  }

  function EncodeWidgets(ws: seq<TopicWidget>): (vs: seq<Value>)
    ensures |vs| == |ws| && forall i :: 0 <= i < |ws| ==> vs[i] == EncodeWidget(ws[i])
  {
    seq(|ws|, i requires 0 <= i < |ws| => EncodeWidget(ws[i]))
  }

  function OptionalText(o: Option<string>): Option<Value>
  {
    if o.Some? then Some(Str(o.value)) else None
  }

  function EncodeMqtt(m: MqttSettings): Value
  {
    var f := map["url" := Str(m.url), "topics" := Arr(EncodeWidgets(m.topics))];
    var f := WithOptional(f, "clientId", OptionalText(m.clientId));
    var f := WithOptional(f, "username", OptionalText(m.username));
    Obj(WithOptional(f, "password", OptionalText(m.password)))
  }

  function EncodeUi(u: UiSettings): Value
  {
    Obj(map["gridColumns" := Num(u.gridColumns as real), "staleMs" := Num(u.staleMs as real)])
  }

  /** The settings as the JSON value `JSON.stringify` writes out. */
  function Encode(s: AppSettings): Value
  {
    Obj(map["mqtt" := EncodeMqtt(s.mqtt), "ui" := EncodeUi(s.ui)])
  }

  /** Whatever passes the widget schema meets the widget rules. */
  lemma ParseWidgetSound(v: Value)
    requires ParseWidget(v).Some?
    ensures ValidWidget(ParseWidget(v).value)
  {
  }

  /** Whatever passes the settings schema meets the settings rules. */
  lemma ParseSound(v: Value)
    requires ParseSettings(v).Some?
    ensures Valid(ParseSettings(v).value)
  {
    var f := v.fields;
    var mqtt := ParseMqtt(f["mqtt"]).value;
    var ws := ParseWidgets(f["mqtt"].fields["topics"].items);
    forall i | 0 <= i < |mqtt.topics| ensures ValidWidget(mqtt.topics[i]) {
      ParseWidgetSound(f["mqtt"].fields["topics"].items[i]);
    }
  }

  lemma EncodeParseWidget(w: TopicWidget)
    requires ValidWidget(w)
    ensures ParseWidget(EncodeWidget(w)) == Some(w)
  {
    var f := EncodeWidget(w).fields;
    assert AsString(Field(f, "id")) == Some(w.id);
    assert AsNonEmptyString(Field(f, "topic")) == Some(w.topic);
    assert AsNonEmptyString(Field(f, "label")) == Some(w.labelText);
    assert AsOptionalString(Field(f, "unit")) == Some(w.unit);
    assert AsWidgetType(Field(f, "type")) == Some(w.kind) by {
      match w.kind
      case Numeric =>
      case Text =>
      case Boolean =>
    }
    assert AsOptionalNat(Field(f, "precision")) == Some(w.precision);
  }

  lemma {:induction false} EncodeParseWidgets(ws: seq<TopicWidget>)
    requires forall i :: 0 <= i < |ws| ==> ValidWidget(ws[i])
    ensures ParseWidgets(EncodeWidgets(ws)) == Some(ws)
  {
    if ws != [] {
      var n := |ws| - 1;
      EncodeParseWidgets(ws[..n]);
      EncodeParseWidget(ws[n]);
      assert EncodeWidgets(ws)[..n] == EncodeWidgets(ws[..n]);
      assert ws[..n] + [ws[n]] == ws;
    }
  }

  lemma EncodeParseMqtt(m: MqttSettings)
    requires forall i :: 0 <= i < |m.topics| ==> ValidWidget(m.topics[i])
    ensures ParseMqtt(EncodeMqtt(m)) == Some(m)
  {
    EncodeParseWidgets(m.topics);
    var f := EncodeMqtt(m).fields;
    assert AsString(Field(f, "url")) == Some(m.url);
    assert AsOptionalString(Field(f, "clientId")) == Some(m.clientId);
    assert AsOptionalString(Field(f, "username")) == Some(m.username);
    assert AsOptionalString(Field(f, "password")) == Some(m.password);
    assert Field(f, "topics") == Some(Arr(EncodeWidgets(m.topics)));
  }

  lemma EncodeParseUi(u: UiSettings)
    requires 1 <= u.gridColumns <= 4 && u.staleMs >= 1000
    ensures ParseUi(EncodeUi(u)) == Some(u)
  {
    var f := EncodeUi(u).fields;
    assert AsInt(Field(f, "gridColumns")) == Some(u.gridColumns);
    assert AsInt(Field(f, "staleMs")) == Some(u.staleMs);
  }

  /** Settings that meet the rules survive encoding and validation
      unchanged. */
  lemma EncodeParseRoundTrip(s: AppSettings)
    requires Valid(s)
    ensures ParseSettings(Encode(s)) == Some(s)
  {
    EncodeParseMqtt(s.mqtt);
    EncodeParseUi(s.ui);
  }

  /** The defaults meet the settings rules and pass the schema once
      encoded. */
  lemma DefaultsValid(suffix: string)
    ensures Valid(MakeDefaultSettings(suffix))
    ensures ParseSettings(Encode(MakeDefaultSettings(suffix))) == Some(MakeDefaultSettings(suffix))
  {
    EncodeParseRoundTrip(MakeDefaultSettings(suffix));
  }

  /** The outcome of `AsyncStorage.getItem`: a failure, or the stored text
      if there is one. */
  datatype StorageRead = ReadFailed | Stored(item: Option<string>)

  /** `loadSettings()`: the validated stored settings, or fresh defaults when
      the read fails, nothing (or the empty text) is stored, the text is not
      JSON, or the value fails the schema. */
  function Loaded(read: StorageRead, rt: Runtime, suffix: string): (s: AppSettings)
    ensures Valid(s)
  {
    DefaultsValid(suffix);
    match read
    case ReadFailed => MakeDefaultSettings(suffix)
    case Stored(None) => MakeDefaultSettings(suffix)
    case Stored(Some(raw)) =>
      if raw == "" then MakeDefaultSettings(suffix)
      else match rt.jsonParse(raw)
        case None => MakeDefaultSettings(suffix)
        case Some(v) =>
          match ParseSettings(v)
          case Some(s) => ParseSound(v); s
          case None => MakeDefaultSettings(suffix)
  }

  /** The load falls back to the defaults exactly when there is no valid
      stored value. */
  lemma LoadedFallsBack(read: StorageRead, rt: Runtime, suffix: string)
    ensures read.ReadFailed? || read.item.None? || read.item.value == "" ==>
      Loaded(read, rt, suffix) == MakeDefaultSettings(suffix)
    ensures read.Stored? && read.item.Some? && read.item.value != "" && rt.jsonParse(read.item.value).None? ==>
      Loaded(read, rt, suffix) == MakeDefaultSettings(suffix)
    ensures read.Stored? && read.item.Some? && read.item.value != "" && rt.jsonParse(read.item.value).Some? ==>
      Loaded(read, rt, suffix) == ParseSettings(rt.jsonParse(read.item.value).value).GetOr(MakeDefaultSettings(suffix))
  {
  }

  /** Saved settings that meet the rules load back unchanged, provided the
      runtime's JSON text reads back as the value written and the empty text
      is not JSON. */
  lemma SaveThenLoad(s: AppSettings, rt: Runtime, suffix: string)
    requires Valid(s)
    requires rt.jsonParse(rt.jsonStringify(Encode(s))) == Some(Encode(s))
    requires rt.jsonParse("") == None
    ensures Loaded(Stored(Some(rt.jsonStringify(Encode(s)))), rt, suffix) == s
  {
    EncodeParseRoundTrip(s);
  }

  /** The key-value store behind `AsyncStorage`. */
  class Storage {
    var items: map<string, string>

    constructor ()
      ensures items == map[]
    {
      items := map[];
    }

    /** `saveSettings(settings)`. */
    method Save(s: AppSettings, rt: Runtime)
      modifies this
      ensures items == old(items)[SettingsKey := rt.jsonStringify(Encode(s))]
    {
      items := items[SettingsKey := rt.jsonStringify(Encode(s))];
    }

    /** `loadSettings()`; `readFails` says whether the storage read threw. */
    method Load(rt: Runtime, suffix: string, readFails: bool) returns (s: AppSettings)
      ensures s == Loaded(if readFails then ReadFailed
                          else Stored(if SettingsKey in items then Some(items[SettingsKey]) else None), rt, suffix)
      ensures Valid(s)
    {
      var read := if readFails then ReadFailed
                  else Stored(if SettingsKey in items then Some(items[SettingsKey]) else None);
      s := Loaded(read, rt, suffix);
    }

    /** `resetSettings()`: fresh defaults are saved and returned. */
    method Reset(rt: Runtime, suffix: string) returns (d: AppSettings)
      modifies this
      ensures d == MakeDefaultSettings(suffix) && Valid(d)
      ensures items == old(items)[SettingsKey := rt.jsonStringify(Encode(d))]
    {
      d := MakeDefaultSettings(suffix);
      DefaultsValid(suffix);
      Save(d, rt);
    }
  }
}
