/** A dashboard card (app/models/CardModel.ts): its configuration, its live
    value, its bounded numeric history, and the update pipeline that an inbound
    message drives (walk the JSON path, apply the optional transform, store the
    value and its time, record numbers in a 30-entry first-in first-out
    history). */
module Cards {
  import opened Options
  import opened Js
  import Text

  /** The number of points a card's history keeps. */
  const HistoryCapacity: nat := 30

  datatype CardKind = Sensor | Button | Switch

  /** Every property of a card that the user edits. */
  datatype CardConfig = CardConfig(
    topic: string,
    jsonPath: string,
    labelText: string,  // the source's `label`
    unit: string,
    mathExpression: string,
    showTopic: bool,
    showGraph: bool,
    showFlash: bool,
    width: int,
    height: int,
    kind: CardKind,
    publishTopic: string,
    publishPayload: string,
    onPayload: string,
    offPayload: string,
    thresholdMax: Option<real>,
    thresholdMin: Option<real>,
    alertColor: string,
    cardBgColor: Option<string>,
    cardTextColor: Option<string>)

  /** The whole mutable state of a card: its configuration and what the
      pipeline maintains. */
  datatype CardState = CardState(config: CardConfig, value: Value, history: seq<real>, lastUpdated: int)

  /** The argument of `Object.assign(card, updates)`: `Some` for each property
      that `updates` carries. */
  datatype CardPatch = CardPatch(
    topic: Option<string>,
    jsonPath: Option<string>,
    labelText: Option<string>,
    unit: Option<string>,
    mathExpression: Option<string>,
    showTopic: Option<bool>,
    showGraph: Option<bool>,
    showFlash: Option<bool>,
    width: Option<int>,
    height: Option<int>,
    kind: Option<CardKind>,
    publishTopic: Option<string>,
    publishPayload: Option<string>,
    onPayload: Option<string>,
    offPayload: Option<string>,
    thresholdMax: Option<Option<real>>,
    thresholdMin: Option<Option<real>>,
    alertColor: Option<string>,
    cardBgColor: Option<Option<string>>,
    cardTextColor: Option<Option<string>>)

  /** The configuration after assigning the properties the patch carries. */
  function Patched(c: CardConfig, p: CardPatch): CardConfig
  {
    CardConfig(
      p.topic.GetOr(c.topic),
      p.jsonPath.GetOr(c.jsonPath),
      p.labelText.GetOr(c.labelText),
      p.unit.GetOr(c.unit),
      p.mathExpression.GetOr(c.mathExpression),
      p.showTopic.GetOr(c.showTopic),
      p.showGraph.GetOr(c.showGraph),
      p.showFlash.GetOr(c.showFlash),
      p.width.GetOr(c.width),
      p.height.GetOr(c.height),
      p.kind.GetOr(c.kind),
      p.publishTopic.GetOr(c.publishTopic),
      p.publishPayload.GetOr(c.publishPayload),
      p.onPayload.GetOr(c.onPayload),
      p.offPayload.GetOr(c.offPayload),
      p.thresholdMax.GetOr(c.thresholdMax),
      p.thresholdMin.GetOr(c.thresholdMin),
      p.alertColor.GetOr(c.alertColor),
      p.cardBgColor.GetOr(c.cardBgColor),
      p.cardTextColor.GetOr(c.cardTextColor))
  }

  /** The patch that carries every property of `c`. */
  function FullPatch(c: CardConfig): CardPatch
  {
    CardPatch(
      Some(c.topic), Some(c.jsonPath), Some(c.labelText), Some(c.unit), Some(c.mathExpression),
      Some(c.showTopic), Some(c.showGraph), Some(c.showFlash), Some(c.width), Some(c.height),
      Some(c.kind), Some(c.publishTopic), Some(c.publishPayload), Some(c.onPayload),
      Some(c.offPayload), Some(c.thresholdMax), Some(c.thresholdMin), Some(c.alertColor),
      Some(c.cardBgColor), Some(c.cardTextColor))
  }

  /** Walking a JSON path: each step must meet an object or array, and the
      field must be present; otherwise the result is `undefined`. */
  function Walk(v: Value, parts: seq<string>): Option<Value>
    decreases |parts|
  {
    if parts == [] then Some(v)
    else if !IsObject(v) then None
    else match Member(v, parts[0])
      case None => None
      case Some(w) => Walk(w, parts[1..])
  }

  /** What the card extracts from a payload: the whole payload for an empty
      path, otherwise the walk along the path's dot-separated parts. */
  function Extracted(payload: Value, jsonPath: string): Option<Value>
  {
    if jsonPath == "" then Some(payload) else Walk(payload, Text.Split(jsonPath, '.'))
  }

  /** The value after the optional transform. */
  function Transformed(v: Value, expr: string, rt: Runtime): (r: Value)
    ensures r != v ==> expr != "" && ToNumber(v, rt).Some?
    ensures expr != "" && ToNumber(v, rt).Some? && rt.eval(expr, ToNumber(v, rt).value).None? ==> r == v
    ensures expr != "" && ToNumber(v, rt).Some? && rt.eval(expr, ToNumber(v, rt).value).Some? ==>
      r == rt.eval(expr, ToNumber(v, rt).value).value
  {
    var x := ToNumber(v, rt);
    if expr != "" && (v.Num? || x.Some?) then rt.eval(expr, x.value).GetOr(v) else v
  }

  /** The history after pushing `n`: the oldest point leaves once there are
      more than `HistoryCapacity`. */
  function Pushed(h: seq<real>, n: real): seq<real>
  {
    var h' := h + [n];
    if |h'| > HistoryCapacity then h'[1..] else h'
  }

  /** The history after storing `v`: only numbers are recorded. */
  function Recorded(h: seq<real>, v: Value, rt: Runtime): seq<real>
  {
    match ToNumber(v, rt)
    case Some(n) => Pushed(h, n)
    case None => h
  }

  /** What the pipeline computes from a payload: the extracted value after
      the transform, or `None` when the path does not resolve. */
  function Result(s: CardState, payload: Value, rt: Runtime): Option<Value>
  {
    match Extracted(payload, s.config.jsonPath)
    case None => None
    case Some(v) => Some(Transformed(v, s.config.mathExpression, rt))
  }

  /** What the card's `value` property accepts: a string or a number. Any
      other value makes the assignment throw. */
  predicate Storable(v: Value)
  {
    v.Str? || v.Num?
  }

  /** The state after a message whose decoded payload is `payload` reaches the
      card at time `now`. A result the value property rejects ends the update
      in its `catch`, before anything is written. */
  function Updated(s: CardState, payload: Value, now: int, rt: Runtime): CardState
  {
    match Result(s, payload, rt)
    case None => s
    case Some(val) =>
      if Storable(val) then s.(value := val, lastUpdated := now, history := Recorded(s.history, val, rt))
      else s
  }

  /** The path walk of `updateFromPayload`, as the source's loop over the
      path's parts. */
  method Extract(payload: Value, jsonPath: string) returns (r: Option<Value>)
    ensures r == Extracted(payload, jsonPath)
  {
    r := Some(payload);
    if jsonPath != "" {
      var parts := Text.Split(jsonPath, '.');
      var i := 0;
      while i < |parts|
        invariant 0 <= i <= |parts|
        invariant r.Some? ==> Walk(payload, parts) == Walk(r.value, parts[i..])
        invariant r.None? ==> Walk(payload, parts) == None
      {
        if r.Some? && IsObject(r.value) {
          r := Member(r.value, parts[i]);
        } else {
          r := None;
          break;
        }
        i := i + 1;
      }
    }
  }

  class Card {
    const id: string
    var config: CardConfig
    var value: Value
    var history: seq<real>
    var lastUpdated: int

    function State(): CardState
      reads this
    {
      CardState(config, value, history, lastUpdated)
    }

    /** A card created from a snapshot that carries its id and configuration;
        value, history and time take their declared defaults. */
    constructor (id: string, config: CardConfig)
      ensures this.id == id
      ensures State() == CardState(config, Str("--"), [], 0)
    {
      this.id := id;
      this.config := config;
      value := Str("--");
      history := [];
      lastUpdated := 0;
    }

    method SetValue(v: Value)
      requires v.Str? || v.Num?
      modifies this
      ensures State() == old(State()).(value := v)
    {
      value := v;
    }

    /** `Object.assign(card, updates)`. */
    method Assign(p: CardPatch)
      modifies this
      ensures State() == old(State()).(config := Patched(old(config), p))
    {
      config := Patched(config, p);
    }

    /** `setProp("width", w)`. */
    method SetWidth(w: int)
      modifies this
      ensures State() == old(State()).(config := old(config).(width := w))
    {
      config := config.(width := w);
    }

    /** `setProp("height", h)`. */
    method SetHeight(h: int)
      modifies this
      ensures State() == old(State()).(config := old(config).(height := h))
    {
      config := config.(height := h);
    }

    method UpdateFromPayload(payload: Value, now: int, rt: Runtime)
      modifies this
      ensures State() == Updated(old(State()), payload, now, rt)
    {
      var r := Extract(payload, config.jsonPath);
      if r.Some? {
        var val := r.value;
        var x := ToNumber(val, rt);
        if config.mathExpression != "" && (val.Num? || x.Some?) {
          var result := rt.eval(config.mathExpression, x.value);
          // an expression that throws is logged and the extracted value kept
          if result.Some? {
            val := result.value;
          }
        }
        // a result that is neither a string nor a number makes the
        // assignment throw, and the catch leaves the card as it was
        if val.Str? || val.Num? {
          value := val;
          lastUpdated := now;
          var numVal := ToNumber(val, rt);
          if numVal.Some? {
            history := history + [numVal.value];
            if |history| > HistoryCapacity {
              history := history[1..];
            }
          }
        }
      }
    }
  }

  // Properties of the pipeline

  /** Assigning a full patch replaces the configuration, whatever it was. */
  lemma FullPatchReplaces(c: CardConfig, d: CardConfig)
    ensures Patched(d, FullPatch(c)) == c
  {
  }

  /** Walking along `p + q` is walking along `p`, then along `q` from where
      `p` ended: the path is walked left to right, and a miss stays a miss. */
  lemma {:induction false} WalkConcat(v: Value, p: seq<string>, q: seq<string>)
    ensures Walk(v, p + q) == match Walk(v, p) case None => None case Some(w) => Walk(w, q)
    decreases |p|
  {
    if p == [] {
      assert p + q == q;
    } else if IsObject(v) {
      assert (p + q)[0] == p[0];
      assert (p + q)[1..] == p[1..] + q;
      match Member(v, p[0])
      case None =>
      case Some(w) => WalkConcat(w, p[1..], q);
    }
  }

  /** A step that meets a value that is not an object or array (null, false,
      0, a string, a number) yields nothing, however long the rest of the
      path is. */
  lemma {:induction false} WalkMissesOnNonObject(v: Value, parts: seq<string>)
    requires parts != [] && !IsObject(v)
    ensures Walk(v, parts) == None
  {
  }

  /** An empty path extracts the whole payload. */
  lemma EmptyPathExtractsPayload(payload: Value)
    ensures Extracted(payload, "") == Some(payload)
  {
  }

  /** A path without dots reads one field of an object payload. */
  lemma SingleFieldPath(fields: map<string, Value>, key: string)
    requires key != "" && '.' !in key
    ensures Extracted(Obj(fields), key) == if key in fields then Some(fields[key]) else None
  {
    Text.SplitWithoutSeparator(key, '.');
    assert Extracted(Obj(fields), key) == Walk(Obj(fields), [key]);
    assert [key][1..] == [];
    if key in fields {
      assert Walk(Obj(fields), [key]) == Walk(fields[key], []);
    }
  }

  /** A message the path does not resolve on changes nothing: value, time
      and history keep their values. */
  lemma MissLeavesCard(s: CardState, payload: Value, now: int, rt: Runtime)
    requires Extracted(payload, s.config.jsonPath).None?
    ensures Updated(s, payload, now, rt) == s
  {
  }

  /** A result the value property rejects (null, a boolean, an array, an
      object) changes nothing either. */
  lemma RejectedResultLeavesCard(s: CardState, payload: Value, now: int, rt: Runtime)
    requires Result(s, payload, rt).Some? && !Storable(Result(s, payload, rt).value)
    ensures Updated(s, payload, now, rt) == s
  {
  }

  /** The history never outgrows its capacity. */
  lemma HistoryStaysBounded(s: CardState, payload: Value, now: int, rt: Runtime)
    requires |s.history| <= HistoryCapacity
    ensures |Updated(s, payload, now, rt).history| <= HistoryCapacity
  {
  }

  /** A numeric result becomes the value and the newest point, stamped with
      the time; the older points keep their order, and the oldest leaves once
      the history is full. */
  lemma NumericResultRecorded(s: CardState, payload: Value, now: int, rt: Runtime, n: real)
    requires Result(s, payload, rt).Some? && Storable(Result(s, payload, rt).value)
    requires ToNumber(Result(s, payload, rt).value, rt) == Some(n)
    ensures Updated(s, payload, now, rt).value == Result(s, payload, rt).value
    ensures Updated(s, payload, now, rt).history ==
      if |s.history| >= HistoryCapacity then s.history[1..] + [n] else s.history + [n]
    ensures Updated(s, payload, now, rt).lastUpdated == now
  {
    if |s.history| >= HistoryCapacity {
      assert (s.history + [n])[1..] == s.history[1..] + [n];
    }
  }

  /** A text that is not a number is stored with its time, and the history
      keeps its points. */
  lemma NonNumericResultKeepsHistory(s: CardState, payload: Value, now: int, rt: Runtime)
    requires Result(s, payload, rt).Some? && Storable(Result(s, payload, rt).value)
    requires ToNumber(Result(s, payload, rt).value, rt).None?
    ensures Updated(s, payload, now, rt).value == Result(s, payload, rt).value
    ensures Updated(s, payload, now, rt).history == s.history
    ensures Updated(s, payload, now, rt).lastUpdated == now
  {
  }

  /** The pipeline only touches value, history and time. */
  lemma UpdateKeepsConfig(s: CardState, payload: Value, now: int, rt: Runtime)
    ensures Updated(s, payload, now, rt).config == s.config
  {
  }
}
