/** The event envelope: events flattened into stored payloads and read back from them. */
module EventEnvelope {
  import opened Text

  /** A JSON value. `Compound` stands for floats, lists and objects, given by their text and by
      what reading them as an integer yields. */
  datatype Value =
    | Null
    | Bool(b: bool)
    | Int(i: int)
    | Str(s: string)
    | Compound(text: string, asInt: Option<int>)

  type Payload = map<string, Value>

  const EVENT_SCHEMA_VERSION := 1
  const VERSION_KEY := "schema_version"

  /** `str(value)`. */
  function ToText(v: Value): string {
    match v
    case Null => "None"
    case Bool(b) => if b then "True" else "False"
    case Int(i) => Decimal(i)
    case Str(s) => s
    case Compound(text, _) => text
  }

  /** `int(value)`, None when that fails. */
  function ToInt(v: Value): Option<int> {
    match v
    case Null => None
    case Bool(b) => Some(if b then 1 else 0)
    case Int(i) => Some(i)
    case Str(s) => ParseInt(s)
    case Compound(_, n) => n
  }

  function PayloadSchemaVersion(p: Payload): int {
    if VERSION_KEY !in p then 0
    else
      match ToInt(p[VERSION_KEY])
      case None => 0
      case Some(n) => n
  }

  function EnvelopePayload(p: Payload): Payload {
    if VERSION_KEY in p then p else p[VERSION_KEY := Int(EVENT_SCHEMA_VERSION)]
  }

  datatype RuntimeEvent = RuntimeEvent(
    schemaVersion: int,
    kind: string,
    meta: Payload,
    content: Option<string>,
    data: Payload)

  /** Where the content goes: tokens into "text", errors into "error" unless taken, everything
      else into "message" unless a message or a text is there. */
  function WithContent(kind: string, out: Payload, content: Option<string>): Payload {
    match content
    case None => out
    case Some(text) =>
      if kind == "token" then out["text" := Str(text)]
      else if kind == "error" && "error" !in out then out["error" := Str(text)]
      else if "message" !in out && "text" !in out then out["message" := Str(text)]
      else out
  }

  function Stored(e: RuntimeEvent): Payload {
    (e.meta + WithContent(e.kind, e.data, e.content))[VERSION_KEY := Int(e.schemaVersion)]
  }

  /** `setdefault` for each key in turn. */
  function DefaultsSet(base: Payload, defaults: Payload, order: seq<string>): Payload
    requires forall k :: k in order ==> k in defaults
  {
    if order == [] then base
    else
      var before, key := DefaultsSet(base, defaults, order[..|order| - 1]), order[|order| - 1];
      if key in before then before else before[key := defaults[key]]
  }

  /** Whatever the order, keys that are there stay and the others get their defaults. */
  lemma {:induction false} DefaultsSetMeaning(base: Payload, defaults: Payload, order: seq<string>)
    requires forall k :: k in order ==> k in defaults
    ensures forall k :: k in DefaultsSet(base, defaults, order) <==> k in base || k in order
    ensures forall k :: k in DefaultsSet(base, defaults, order) ==>
              DefaultsSet(base, defaults, order)[k] == if k in base then base[k] else defaults[k]
  {
    if order != [] {
      var front := order[..|order| - 1];
      DefaultsSetMeaning(base, defaults, front);
      assert order == front + [order[|order| - 1]];
    }
  }

  /** The keys in some order. */
  method InSomeOrder(keys: set<string>) returns (order: seq<string>)
    ensures forall k :: k in order <==> k in keys
  {
    var rest := keys;
    order := [];
    while rest != {}
      invariant rest <= keys
      invariant forall k :: k in order <==> k in keys && k !in rest
      decreases |rest|
    {
      var key :| key in rest;
      order := order + [key];
      rest := rest - {key};
    }
  }

  /** Adds the defaults whose key is not there yet, one by one. */
  method SetDefaults(base: Payload, defaults: Payload) returns (out: Payload)
    ensures out == defaults + base
  {
    out := base;
    var order := InSomeOrder(defaults.Keys);
    for i := 0 to |order|
      invariant out == DefaultsSet(base, defaults, order[..i])
    {
      assert order[..i + 1][..i] == order[..i];
      if order[i] !in out {
        out := out[order[i] := defaults[order[i]]];
      }
    }
    assert order[..|order|] == order;
    DefaultsSetMeaning(base, defaults, order);
    assert out.Keys == (defaults + base).Keys;
  }

  method ToStorePayload(e: RuntimeEvent) returns (out: Payload)
    ensures out == Stored(e)
  {
    out := e.data;
    if e.content.Some? {
      if e.kind == "token" {
        out := out["text" := Str(e.content.value)];
      } else if e.kind == "error" && "error" !in out {
        out := out["error" := Str(e.content.value)];
      } else if "message" !in out && "text" !in out {
        out := out["message" := Str(e.content.value)];
      }
    }
    out := SetDefaults(out, e.meta);
    out := out[VERSION_KEY := Int(e.schemaVersion)];
    out := EnvelopePayload(out);
  }

  /** Where an event's content goes: a token's into "text", an error's into "error" unless the data
      has one, and else into "message" unless the data has a message or a text. */
  function ContentKey(kind: string, data: Payload): Option<string> {
    if kind == "token" then Some("text")
    else if kind == "error" && "error" !in data then Some("error")
    else if "message" in data || "text" in data then None
    else Some("message")
  }

  /** A stored payload key by key: the version is the event's; the content stands under its key;
      else the data's value; else the meta's. Nothing else is there. */
  lemma StoredExactly(e: RuntimeEvent, k: string)
    ensures var out := Stored(e);
            var here := if e.content.Some? then ContentKey(e.kind, e.data) else None;
            if k == "schema_version" then k in out && out[k] == Int(e.schemaVersion)
            else if here == Some(k) then k in out && out[k] == Str(e.content.value)
            else if k in e.data then k in out && out[k] == e.data[k]
            else if k in e.meta then k in out && out[k] == e.meta[k]
            else k !in out
  {
  }

  function Without(p: Payload, key: string): Payload { p - {key} }

  predicate LoneError(kind: string, raw: Payload) {
    kind == "error" && raw.Keys == {"error"}
  }

  function Loaded(kind: string, p: Payload): RuntimeEvent {
    var raw := Without(p, VERSION_KEY);
    var read := PayloadSchemaVersion(p);
    var version := if read != 0 then read else EVENT_SCHEMA_VERSION;
    if kind == "token" && "text" in raw then
      RuntimeEvent(version, kind, map[], Some(ToText(raw["text"])), Without(raw, "text"))
    else if LoneError(kind, raw) then
      RuntimeEvent(version, kind, map[], Some(ToText(raw["error"])), raw)
    else RuntimeEvent(version, kind, map[], None, raw)
  }

  method FromPayload(kind: string, p: Payload) returns (e: RuntimeEvent)
    ensures e == Loaded(kind, p)
  {
    var raw := p;
    var version := PayloadSchemaVersion(raw);
    if version == 0 {
      version := EVENT_SCHEMA_VERSION;
    }
    if VERSION_KEY in raw {
      raw := map k | k in raw && k != VERSION_KEY :: raw[k];
    }
    assert raw == Without(p, VERSION_KEY);
    var content: Option<string> := None;
    if kind == "token" && "text" in raw {
      content := Some(ToText(raw["text"]));
      raw := raw - {"text"};
    } else if kind == "error" && "error" in raw && |raw| == 1 {
      content := Some(ToText(raw["error"]));
    }
    LoneErrorByCount(kind, Without(p, VERSION_KEY));
    e := RuntimeEvent(version, kind, map[], content, raw);
  }

  lemma LoneErrorByCount(kind: string, raw: Payload)
    ensures LoneError(kind, raw) <==> kind == "error" && "error" in raw && |raw| == 1
  {
    if "error" in raw {
      var rest := raw.Keys - {"error"};
      assert raw.Keys == rest + {"error"};
      assert |raw| == |raw.Keys| == |rest| + 1;
    } else {
      assert raw.Keys != {"error"};
    }
  }

  /** Reading a payload and storing it again. */
  function Normalised(kind: string, p: Payload): Payload { Stored(Loaded(kind, p)) }

  /** A payload that says all that normalising would add: an integer version other than zero,
      token text that is text, and not an error with nothing but its error. */
  predicate Normal(kind: string, p: Payload) {
    && VERSION_KEY in p && p[VERSION_KEY].Int? && p[VERSION_KEY].i != 0
    && (kind == "token" && "text" in p ==> p["text"].Str?)
    && !(kind == "error" && p.Keys == {"error", VERSION_KEY})
  }

  lemma LoneErrorKeys(kind: string, p: Payload)
    ensures VERSION_KEY in p ==> (LoneError(kind, Without(p, VERSION_KEY)) <==> kind == "error" && p.Keys == {"error", VERSION_KEY})
  {
    var raw := Without(p, VERSION_KEY);
    assert raw.Keys == p.Keys - {VERSION_KEY};
    if VERSION_KEY in p && raw.Keys == {"error"} {
      assert p.Keys == raw.Keys + {VERSION_KEY};
    }
  }

  lemma KeyNamesDiffer()
    ensures "message" !in {"text", "error", VERSION_KEY} && "text" !in {"error", VERSION_KEY} && "error" != VERSION_KEY
  {
    assert |"text"| == 4 && |"message"| == 7 && |"error"| == 5 && |VERSION_KEY| == 14;
  }

  /** What normalising does, key by key. */
  lemma NormalisedMeaning(kind: string, p: Payload)
    ensures var n := Normalised(kind, p);
            var raw := Without(p, VERSION_KEY);
            var read := PayloadSchemaVersion(p);
            && VERSION_KEY in n && n[VERSION_KEY] == Int(if read != 0 then read else EVENT_SCHEMA_VERSION)
            && Without(n, VERSION_KEY) ==
                 (if kind == "token" && "text" in raw then raw["text" := Str(ToText(raw["text"]))]
                  else if LoneError(kind, raw) then raw["message" := Str(ToText(raw["error"]))]
                  else raw)
  {
    var raw := Without(p, VERSION_KEY);
    var e := Loaded(kind, p);
    KeyNamesDiffer();
    assert e.meta + WithContent(kind, e.data, e.content) == WithContent(kind, e.data, e.content);
    if kind == "token" && "text" in raw {
      assert Without(raw, "text")["text" := Str(ToText(raw["text"]))] == raw["text" := Str(ToText(raw["text"]))];
    } else if LoneError(kind, raw) {
      assert "message" !in raw.Keys && "text" !in raw.Keys;
    }
  }

  /** A payload is unchanged by normalising exactly when it is normal. */
  lemma NormalIffFixed(kind: string, p: Payload)
    ensures Normalised(kind, p) == p <==> Normal(kind, p)
  {
    NormalisedMeaning(kind, p);
    LoneErrorKeys(kind, p);
    var n, raw := Normalised(kind, p), Without(p, VERSION_KEY);
    if VERSION_KEY in p {
      assert p == raw[VERSION_KEY := p[VERSION_KEY]];
      assert n == Without(n, VERSION_KEY)[VERSION_KEY := n[VERSION_KEY]];
    }
    KeyNamesDiffer();
    assert LoneError(kind, raw) ==> "message" !in raw.Keys && "message" in Without(n, VERSION_KEY).Keys;
    if kind == "token" && "text" in raw {
      assert Without(n, VERSION_KEY)["text"] == Str(ToText(raw["text"]));
    }
  }

  /** Normalising twice is normalising once, for every kind and payload. */
  lemma NormalisedTwice(kind: string, p: Payload)
    ensures Normalised(kind, Normalised(kind, p)) == Normalised(kind, p)
  {
    var n, raw := Normalised(kind, p), Without(p, VERSION_KEY);
    NormalisedMeaning(kind, p);
    assert n == Without(n, VERSION_KEY)[VERSION_KEY := n[VERSION_KEY]];
    LoneErrorKeys(kind, n);
    KeyNamesDiffer();
    assert LoneError(kind, raw) ==> "message" in Without(n, VERSION_KEY) && "message" in n.Keys;
    NormalIffFixed(kind, n);
  }

  /** Storing an event and reloading it gives the same payload exactly when its version is not
      zero, its token text is text, and it is not an error whose payload is its error alone. */
  lemma StoreRoundTripIff(e: RuntimeEvent)
    ensures var p := Stored(e);
            Normalised(e.kind, p) == p <==>
              && e.schemaVersion != 0
              && (e.kind == "token" && "text" in p ==> p["text"].Str?)
              && !(e.kind == "error" && p.Keys == {"error", VERSION_KEY})
  {
    NormalIffFixed(e.kind, Stored(e));
  }

  /** The lone error gains a message once and is fixed from then on. */
  lemma LoneErrorGainsMessage(version: int, error: Value)
    requires version != 0
    ensures var p: Payload := map["error" := error, VERSION_KEY := Int(version)];
            var n := Normalised("error", p);
            && n == p["message" := Str(ToText(error))]
            && Normalised("error", n) == n
  {
    var p: Payload := map["error" := error, VERSION_KEY := Int(version)];
    var n := Normalised("error", p);
    NormalisedMeaning("error", p);
    NormalisedTwice("error", p);
    LoneErrorKeys("error", p);
    KeyNamesDiffer();
    assert n == Without(n, VERSION_KEY)[VERSION_KEY := n[VERSION_KEY]];
  }
}
