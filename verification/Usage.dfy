/** LLM usage records: what the Store keeps of a payload, and what it makes of the
    numbers in requests. */
module Usage {
  import opened Common
  import opened Utf8

  const MAX_STRING: nat := 256
  const MAX_NUMERIC: nat := 1_000_000_000_000
  const FUTURE_SKEW: int := 5 * 60 * 1_000_000_000
  const RECENT_DEFAULT: nat := 50
  const RECENT_MAX: nat := 500

  /** A parsed time: its instant in nanoseconds since Go's zero Time, and its date in
      its own zone. */
  datatype Stamp = Stamp(instant: int, year: int, month: nat, day: nat)

  /** The same time written in whole seconds, as time.RFC3339 does. */
  function ToSecond(t: Stamp): Stamp {
    t.(instant := t.instant - t.instant % 1_000_000_000)
  }

  /** A decoded JSON value, or a Go number where the caller is in-process: a signed or an
      unsigned one. A json.Number carries its float64 value when it has one. */
  datatype Value =
    | Int(n: int) | Unsigned(u: nat) | Float(x: real) | NotFinite | JsonNumber(parsed: Option<real>)
    | Str(text: Text) | Boolean(b: bool) | Other

  type Payload = map<string, Value>

  datatype Record = Record(
    seqNo: nat,
    agent: Option<Text>,
    model: Option<Text>,
    error: Option<Text>,
    prompt: Option<nat>,
    completion: Option<nat>,
    duration: Option<nat>,
    success: Option<bool>,
    stamp: Option<Stamp>)

  function Lookup(p: Payload, key: string): Value {
    if key in p then p[key] else Other
  }

  /** What a value stands for where a count is expected. */
  function Amount(v: Value): Option<real> {
    match v
    case Int(n) => Some(n as real)
    case Float(x) => Some(x)
    case JsonNumber(x) => x
    case _ => None
  }

  /** Kept exactly when it lies between 0 and the cap, and then cut to a whole number;
      counts above the cap are dropped, not clamped. */
  function NonNegNumber(v: Value): (r: Option<nat>)
    ensures r.Some? <==> Amount(v).Some? && 0.0 <= Amount(v).value <= 1_000_000_000_000.0
    ensures r.Some? ==> r.value as real <= Amount(v).value < (r.value + 1) as real && r.value <= MAX_NUMERIC
  {
    match v
    case Int(n) => if n < 0 || n > MAX_NUMERIC then None else Some(n)
    case Float(x) => FromFloat(x)
    case JsonNumber(Some(x)) => FromFloat(x)
    case _ => None
  }

  function FromFloat(x: real): (r: Option<nat>)
    ensures r.Some? <==> 0.0 <= x <= MAX_NUMERIC as real
    ensures r.Some? ==> r.value as real <= x < (r.value + 1) as real && r.value <= MAX_NUMERIC
  {
    if x < 0.0 || x > MAX_NUMERIC as real then None else Some(x.Floor)
  }

  /** A page size: what was asked for if that is a page, the largest page if it is more,
      else the default. */
  function RecentLimit(v: Value): (n: nat)
    ensures 1 <= n <= 500
    ensures var x := Amount(v);
            if x.None? || x.value < 1.0 || x.value > 1_000_000_000_000.0 then n == 50
            else if x.value >= 501.0 then n == 500
            else n as real <= x.value < (n + 1) as real
  {
    var n := NonNegNumber(v);
    if n.None? || n.value == 0 then RECENT_DEFAULT
    else if n.value > RECENT_MAX then RECENT_MAX
    else n.value
  }

  function SeqValue(v: Value): Option<nat> {
    match v
    case Int(n) => if n < 0 then None else Some(n)
    case Unsigned(u) => Some(u)
    case Float(x) => if x < 0.0 then None else Some(x.Floor)
    case JsonNumber(Some(x)) => if x < 0.0 then None else Some(x.Floor)
    case _ => None
  }

  predicate CleanText(t: Option<Text>) {
    t.Some? ==> 0 < |t.value| <= MAX_STRING
  }

  predicate CleanCount(n: Option<nat>) {
    n.Some? ==> n.value <= MAX_NUMERIC
  }

  /** What every stored record looks like. */
  predicate Clean(r: Record) {
    && CleanText(r.agent) && CleanText(r.model) && CleanText(r.error)
    && CleanCount(r.prompt) && CleanCount(r.completion) && CleanCount(r.duration) && r.stamp.Some?
  }

  /** `t` is what is kept of a text field: capped, and nothing at all of an empty or
      missing one. */
  ghost predicate KeptOf(v: Value, t: Option<Text>) {
    match t
    case None => v.Str? ==> DroppedUntilValid(v.text, MAX_STRING, [])
    case Some(s) => v.Str? && s != [] && DroppedUntilValid(v.text, MAX_STRING, s)
  }

  method KeepText(v: Value) returns (t: Option<Text>)
    ensures CleanText(t) && KeptOf(v, t)
  {
    if !v.Str? { return None; }
    var s := CappedUsageString(v.text, MAX_STRING);
    if s == [] { return None; }
    return Some(s);
  }

  /** A timestamp that parses and is not too far ahead is kept; any other is replaced by
      the receive time. */
  function NormalizeStamp(t: Option<Stamp>, now: Stamp): (r: Stamp)
    ensures r.instant <= now.instant + 300_000_000_000
    ensures t.Some? && t.value.instant <= now.instant + 300_000_000_000 ==> r == t.value
    ensures t.None? || t.value.instant > now.instant + 300_000_000_000 ==>
              now.instant - 1_000_000_000 < r.instant <= now.instant && r == now.(instant := r.instant)
  {
    if t.None? || t.value.instant > now.instant + FUTURE_SKEW then ToSecond(now) else t.value
  }

  /** `r` is a stored copy of the payload, field by field. `parsed` is the parse of the
      payload's own timestamp, if it has a good one. */
  ghost predicate SanitizedFrom(raw: Payload, parsed: Option<Stamp>, now: Stamp, r: Record) {
    && KeptOf(Lookup(raw, "agent_id"), r.agent) && KeptOf(Lookup(raw, "model"), r.model)
    && KeptOf(Lookup(raw, "error"), r.error)
    && r.prompt == NonNegNumber(Lookup(raw, "tokens_prompt"))
    && r.completion == NonNegNumber(Lookup(raw, "tokens_completion"))
    && r.duration == NonNegNumber(Lookup(raw, "duration_ms"))
    && (match r.success
        case Some(b) => Lookup(raw, "success") == Boolean(b)
        case None => !Lookup(raw, "success").Boolean?)
    && r.stamp == Some(NormalizeStamp(parsed, now))
  }

  method SanitizeRecord(raw: Payload, parsed: Option<Stamp>, now: Stamp) returns (r: Record)
    ensures Clean(r) && SanitizedFrom(raw, parsed, now, r)
  {
    var agent := KeepText(Lookup(raw, "agent_id"));
    var model := KeepText(Lookup(raw, "model"));
    var error := KeepText(Lookup(raw, "error"));
    var success := Lookup(raw, "success");
    r := Record(0, agent, model, error,
                NonNegNumber(Lookup(raw, "tokens_prompt")), NonNegNumber(Lookup(raw, "tokens_completion")),
                NonNegNumber(Lookup(raw, "duration_ms")), if success.Boolean? then Some(success.b) else None,
                Some(NormalizeStamp(parsed, now)));
  }

  // ------------------------------------------------------------------ by example

  /** Which values count, and for how much. */
  lemma CountsAreRead(n: int, u: nat, x: real, t: Text, b: bool)
    ensures NonNegNumber(Int(n)) == if 0 <= n <= 1_000_000_000_000 then Some(n) else None
    ensures NonNegNumber(Float(x)) == if 0.0 <= x <= 1_000_000_000_000.0 then Some(x.Floor) else None
    ensures NonNegNumber(JsonNumber(Some(x))) == NonNegNumber(Float(x))
    ensures NonNegNumber(JsonNumber(None)) == NonNegNumber(Unsigned(u)) == NonNegNumber(NotFinite) == None
    ensures NonNegNumber(Str(t)) == NonNegNumber(Boolean(b)) == NonNegNumber(Other) == None
  {
  }

  /** Which values are sequence numbers. */
  lemma SeqNumbersAreRead(n: int, u: nat, x: real, t: Text, b: bool)
    ensures SeqValue(Int(n)) == if n >= 0 then Some(n) else None
    ensures SeqValue(Unsigned(u)) == Some(u)
    ensures SeqValue(Float(x)) == if x >= 0.0 then Some(x.Floor) else None
    ensures SeqValue(JsonNumber(Some(x))) == SeqValue(Float(x))
    ensures SeqValue(JsonNumber(None)) == SeqValue(NotFinite) == SeqValue(Str(t)) == SeqValue(Boolean(b)) == None
    ensures SeqValue(Other) == None
  {
  }

  /** `kept` is what the payload says under `key`, or nothing if that is no text to keep. */
  ghost predicate TextField(raw: Payload, key: string, kept: Option<Text>) {
    if key in raw && raw[key].Str?
    then (0 < |raw[key].text| <= 256 ==> kept == Some(raw[key].text))
         && (raw[key].text == [] ==> kept == None)
         && (kept.Some? ==> kept.value <= raw[key].text && 0 < |kept.value| <= 256)
    else kept == None
  }

  ghost predicate CountField(raw: Payload, key: string, kept: Option<nat>) {
    kept == if key in raw then NonNegNumber(raw[key]) else None
  }

  /** The stored fields are those of the payload, under their own names. */
  lemma FieldsAreStored(raw: Payload, parsed: Option<Stamp>, now: Stamp, r: Record)
    requires SanitizedFrom(raw, parsed, now, r)
    ensures TextField(raw, "agent_id", r.agent) && TextField(raw, "model", r.model) && TextField(raw, "error", r.error)
    ensures CountField(raw, "tokens_prompt", r.prompt) && CountField(raw, "tokens_completion", r.completion)
    ensures CountField(raw, "duration_ms", r.duration)
    ensures r.success == if "success" in raw && raw["success"].Boolean? then Some(raw["success"].b) else None
    ensures parsed.Some? && parsed.value.instant <= now.instant + 300_000_000_000 ==> r.stamp == parsed
  {
  }
}
