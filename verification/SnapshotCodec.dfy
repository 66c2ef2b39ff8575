/** The strict message codec of snapshots over the permissive one it repairs (snapshots.py, messages.py). */
module SnapshotCodec {
  import opened JsonCopy
  import opened TextCodecs
  import History

  type Number = d: Data | d.Whole? || d.Fraction? witness Whole(0)

  const ZERO: Number := Fraction(0.0)

  datatype Part =
    | Text(text: string, signature: Option<string>)
    | Thinking(thinking: string, signature: Option<string>, redacted: bool)
    | ToolCall(id: string, name: string, arguments: Object, signature: Option<string>)
    | Image(data: string, mime: string)

  datatype Content = Plain(text: string) | Parts(parts: seq<Part>)

  datatype Cost = Cost(input: Number, output: Number, cacheRead: Number, cacheWrite: Number, total: Number)

  datatype Usage = Usage(input: int, output: int, cacheRead: int, cacheWrite: int, total: int, cost: Cost)

  datatype Failure = Failure(kind: string, status: Option<int>, code: Option<string>, partial: bool)

  datatype Message =
    | User(content: Content, timestamp: Number)
    | Assistant(parts: seq<Part>, usage: Usage, api: string, provider: string, model: string, responseId: Option<string>,
                stop: string, error: Option<string>, failure: Option<Failure>, timestamp: Number)
    | ToolResult(callId: string, toolName: string, parts: seq<Part>, isError: bool, details: Data, timestamp: Number)
    | Custom(kind: string, data: Object)

  /**
    * Checks the codec gets from outside: failure facts, custom records, how much detail the inner codec keeps, the
    * bytes a string, number or constant takes as JSON text, and the top-level fields that have nothing to do with
    * messages.
    */
  datatype Checks = Checks(failure: Failure -> bool, custom: (string, Object) -> bool, small: Data -> bool,
                           width: Width, others: Object -> bool)

  function Optional(s: Option<string>): Data {
    if s.Some? then Str(s.value) else Null
  }

  function Get(o: Object, key: string, default: Data): Data {
    if key in o then o[key] else default
  }

  // ---- The permissive encoder (message_to_dict): falsy values are left out ------------------------------

  function InnerTruthy(o: Object, key: string, s: Option<string>): Object {
    if s.Some? && s.value != "" then o[key := Str(s.value)] else o
  }

  function InnerPlainPart(p: Part): Object
    requires p.Text? || p.Image?
  {
    if p.Text? then map["type" := Str("text"), "text" := Str(p.text)]
    else map["type" := Str("image"), "data" := Str(p.data), "mime_type" := Str(p.mime)]
  }

  function InnerReplyPart(p: Part): Object
    requires !p.Image?
  {
    match p
    case Text(text, signature) => InnerTruthy(map["type" := Str("text"), "text" := Str(text)], "text_signature", signature)
    case Thinking(thinking, signature, redacted) =>
      var o := InnerTruthy(map["type" := Str("thinking"), "thinking" := Str(thinking)], "thinking_signature", signature);
      if redacted then o["redacted" := Flag(true)] else o
    case ToolCall(id, name, arguments, signature) =>
      InnerTruthy(map["type" := Str("toolCall"), "id" := Str(id), "name" := Str(name), "arguments" := Fields(arguments)],
                  "thought_signature", signature)
  }

  // ---- The strict encoder (_encode_message): what was left out is put back ------------------------------

  function PlainPart(p: Part): Data
    requires p.Text? || p.Image?
  {
    var o := InnerPlainPart(p);
    Fields(if p.Text? && p.signature.Some? then o["text_signature" := Str(p.signature.value)] else o)
  }

  function ReplyPart(p: Part): Data
    requires !p.Image?
  {
    var o := InnerReplyPart(p);
    Fields(match p
           case Text(_, signature) => o["text_signature" := Optional(signature)]
           case Thinking(_, signature, _) => o["thinking_signature" := Optional(signature)]
           case ToolCall(_, _, _, signature) => o["thought_signature" := Optional(signature)])
  }

  predicate PlainParts(parts: seq<Part>) {
    forall p | p in parts :: p.Text? || p.Image?
  }

  predicate ReplyParts(parts: seq<Part>) {
    forall p | p in parts :: !p.Image?
  }

  function EncodePlain(parts: seq<Part>): seq<Data>
    requires PlainParts(parts)
  {
    seq(|parts|, k requires 0 <= k < |parts| => assert parts[k] in parts; PlainPart(parts[k]))
  }

  function EncodeReply(parts: seq<Part>): seq<Data>
    requires ReplyParts(parts)
  {
    seq(|parts|, k requires 0 <= k < |parts| => assert parts[k] in parts; ReplyPart(parts[k]))
  }

  function EncodeUsage(u: Usage): Data {
    Fields(map["input" := Whole(u.input), "output" := Whole(u.output), "cache_read" := Whole(u.cacheRead),
               "cache_write" := Whole(u.cacheWrite), "total_tokens" := Whole(u.total),
               "cost" := Fields(map["input" := u.cost.input, "output" := u.cost.output, "cache_read" := u.cost.cacheRead,
                                    "cache_write" := u.cost.cacheWrite, "total" := u.cost.total])])
  }

  function EncodeFailure(f: Failure): Data {
    Fields(map["kind" := Str(f.kind), "status" := (if f.status.Some? then Whole(f.status.value) else Null),
               "code" := Optional(f.code), "partial" := Flag(f.partial)])
  }

  /** The inner encoding of a reply, with what it leaves out left out. */
  function InnerReply(m: Message): Object
    requires m.Assistant? && ReplyParts(m.parts)
  {
    var o := map["role" := Str("assistant"), "content" := Items(EncodeReply(m.parts)), "usage" := EncodeUsage(m.usage)];
    var o1 := if m.stop != "stop" then o["stop_reason" := Str(m.stop)] else o;
    if m.failure.Some? then o1["failure" := EncodeFailure(m.failure.value)] else o1
  }

  /** `_encode_message`; None when a part is of the wrong class. */
  function Encode(m: Message): Option<Object> {
    match m
    case User(Plain(text), timestamp) =>
      Some(map["role" := Str("user"), "content" := Str(text), "timestamp" := timestamp])
    case User(Parts(parts), timestamp) =>
      if !PlainParts(parts) then None
      else Some(map["role" := Str("user"), "content" := Items(EncodePlain(parts)), "timestamp" := timestamp])
    case Assistant(parts, _, api, provider, model, responseId, _, error, _, timestamp) =>
      if !ReplyParts(parts) then None
      else
        Some(InnerReply(m)["api" := Str(api)]["provider" := Str(provider)]["model" := Str(model)]
               ["response_id" := Optional(responseId)]["error_message" := Optional(error)]["timestamp" := timestamp])
    case ToolResult(callId, toolName, parts, isError, details, timestamp) =>
      if !PlainParts(parts) then None
      else
        Some(map["role" := Str("toolResult"), "tool_call_id" := Str(callId), "tool_name" := Str(toolName),
                 "content" := Items(EncodePlain(parts)), "is_error" := Flag(isError), "timestamp" := timestamp,
                 "details" := details])
    case Custom(kind, data) => Some(map["role" := Str("custom"), "type" := Str(kind), "data" := Fields(data)])
  }

  // ---- The strict checks (_message, _content) ------------------------------------------------------------

  /** `_object`: these fields, and of others only the optional ones. */
  predicate Shape(o: Object, required: set<string>, optional: set<string>) {
    required <= o.Keys <= required + optional
  }

  predicate IsStr(d: Data, nullable: bool, nonempty: bool) {
    (d.Null? && nullable) || (d.Str? && (nonempty ==> d.s != ""))
  }

  predicate IsCount(d: Data) {
    d.Whole? && d.n >= 0
  }

  predicate IsNumber(d: Data) {
    (d.Whole? && d.n >= 0) || (d.Fraction? && d.x >= 0.0)
  }

  predicate CheckPart(d: Data, reply: bool) {
    d.Fields? &&
    var o := d.fields;
    var kind := Get(o, "type", Null);
    if kind == Str("text") then
      && Shape(o, {"type", "text"}, {"text_signature"})
      && IsStr(o["text"], false, false) && IsStr(Get(o, "text_signature", Null), true, false)
    else if kind == Str("image") && !reply then
      Shape(o, {"type", "data", "mime_type"}, {}) && IsStr(o["data"], false, false) && IsStr(o["mime_type"], false, true)
    else if kind == Str("thinking") && reply then
      && Shape(o, {"type", "thinking"}, {"thinking_signature", "redacted"})
      && IsStr(o["thinking"], false, false) && IsStr(Get(o, "thinking_signature", Null), true, false)
      && Get(o, "redacted", Flag(false)).Flag?
    else if kind == Str("toolCall") && reply then
      && Shape(o, {"type", "id", "name", "arguments"}, {"thought_signature"})
      && IsStr(o["id"], false, true) && IsStr(o["name"], false, true) && o["arguments"].Fields?
      && IsStr(Get(o, "thought_signature", Null), true, false)
    else false
  }

  predicate CheckContent(d: Data, reply: bool) {
    d.Items? && forall k | 0 <= k < |d.items| :: CheckPart(d.items[k], reply)
  }

  predicate CheckUsage(d: Data) {
    d.Fields? &&
    var o := d.fields;
    && Shape(o, {}, {"input", "output", "cache_read", "cache_write", "total_tokens", "cost"})
    && IsCount(Get(o, "input", Whole(0))) && IsCount(Get(o, "output", Whole(0))) && IsCount(Get(o, "cache_read", Whole(0)))
    && IsCount(Get(o, "cache_write", Whole(0))) && IsCount(Get(o, "total_tokens", Whole(0)))
    && var cost := Get(o, "cost", Fields(map[]));
       && cost.Fields? && Shape(cost.fields, {}, {"input", "output", "cache_read", "cache_write", "total"})
       && forall key | key in cost.fields :: IsNumber(cost.fields[key])
  }

  /** A failure record of the right types; None otherwise. */
  function ParseFailure(d: Data): Option<Failure> {
    if !d.Fields? || !Shape(d.fields, {"kind", "status", "code", "partial"}, {}) then None else
      var o := d.fields;
      if o["kind"].Str? && (o["status"].Null? || o["status"].Whole?) && IsStr(o["code"], true, false) && o["partial"].Flag?
      then Some(Failure(o["kind"].s, if o["status"].Null? then None else Some(o["status"].n),
                        if o["code"].Null? then None else Some(o["code"].s), o["partial"].b))
      else None
  }

  const REPLY_FIELDS := {"usage", "api", "provider", "model", "response_id", "stop_reason", "error_message", "failure", "timestamp"}

  const STOPS := {"stop", "length", "toolUse", "error", "aborted"}

  /** `_message` up to the point where the record is known to be well formed. */
  predicate Check(checks: Checks, o: Object) {
    var role := Get(o, "role", Null);
    if role == Str("custom") then
      && Shape(o, {"role", "type", "data"}, {})
      && IsStr(o["type"], false, true) && o["data"].Fields? && checks.custom(o["type"].s, o["data"].fields)
    else if role == Str("user") then
      && Shape(o, {"role", "content"}, {"timestamp"})
      && (o["content"].Str? || CheckContent(o["content"], false)) && IsNumber(Get(o, "timestamp", ZERO))
    else if role == Str("assistant") then
      && Shape(o, {"role", "content"}, REPLY_FIELDS)
      && CheckContent(o["content"], true)
      && IsStr(Get(o, "api", Str("")), false, false) && IsStr(Get(o, "provider", Str("")), false, false)
      && IsStr(Get(o, "model", Str("")), false, false)
      && IsStr(Get(o, "response_id", Null), true, false) && IsStr(Get(o, "error_message", Null), true, false)
      && IsStr(Get(o, "stop_reason", Str("stop")), false, false) && Get(o, "stop_reason", Str("stop")).s in STOPS
      && (var f := Get(o, "failure", Null); f.Null? || (ParseFailure(f).Some? && checks.failure(ParseFailure(f).value)))
      && CheckUsage(Get(o, "usage", Fields(map[]))) && IsNumber(Get(o, "timestamp", ZERO))
    else if role == Str("toolResult") then
      && Shape(o, {"role", "tool_call_id", "tool_name", "content"}, {"is_error", "details", "timestamp"})
      && IsStr(o["tool_call_id"], false, true) && IsStr(o["tool_name"], false, true) && Get(o, "is_error", Flag(false)).Flag?
      && CheckContent(o["content"], false) && IsNumber(Get(o, "timestamp", ZERO))
    else false
  }

  // ---- The permissive decoder (dict_to_message) and its repair --------------------------------------------

  function Nullable(d: Data): Option<string>
    requires d.Null? || d.Str?
  {
    if d.Null? then None else Some(d.s)
  }

  /** The inner decoder drops the signatures of texts outside replies. */
  function InnerPart(d: Data, reply: bool): Part
    requires CheckPart(d, reply)
  {
    var o := d.fields;
    if o["type"] == Str("text") then Text(o["text"].s, if reply then Nullable(Get(o, "text_signature", Null)) else None)
    else if o["type"] == Str("image") then Image(o["data"].s, o["mime_type"].s)
    else if o["type"] == Str("thinking") then
      Thinking(o["thinking"].s, Nullable(Get(o, "thinking_signature", Null)), Get(o, "redacted", Flag(false)).b)
    else ToolCall(o["id"].s, o["name"].s, o["arguments"].fields, Nullable(Get(o, "thought_signature", Null)))
  }

  /** `_message` reads the parts of user and tool messages once more, with their signatures. */
  function RepairedPart(d: Data): Part
    requires CheckPart(d, false)
  {
    var o := d.fields;
    if o["type"] == Str("text") then Text(o["text"].s, Nullable(Get(o, "text_signature", Null)))
    else Image(o["data"].s, o["mime_type"].s)
  }

  function InnerParts(d: Data, reply: bool): seq<Part>
    requires CheckContent(d, reply)
  {
    seq(|d.items|, k requires 0 <= k < |d.items| => InnerPart(d.items[k], reply))
  }

  function RepairedParts(d: Data): seq<Part>
    requires CheckContent(d, false)
  {
    seq(|d.items|, k requires 0 <= k < |d.items| => RepairedPart(d.items[k]))
  }

  function InnerUsage(d: Data): Usage
    requires CheckUsage(d)
  {
    var o := d.fields;
    var cost := Get(o, "cost", Fields(map[])).fields;
    Usage(Get(o, "input", Whole(0)).n, Get(o, "output", Whole(0)).n, Get(o, "cache_read", Whole(0)).n,
          Get(o, "cache_write", Whole(0)).n, Get(o, "total_tokens", Whole(0)).n,
          Cost(Get(cost, "input", ZERO), Get(cost, "output", ZERO), Get(cost, "cache_read", ZERO),
               Get(cost, "cache_write", ZERO), Get(cost, "total", ZERO)))
  }

  /** `dict_to_message` on a checked record: no timestamps of users and tools, no large details. */
  function Inner(checks: Checks, o: Object): Message
    requires Check(checks, o)
  {
    var role := o["role"].s;
    if role == "custom" then Custom(o["type"].s, o["data"].fields)
    else if role == "user" then
      User(if o["content"].Str? then Plain(o["content"].s) else Parts(InnerParts(o["content"], false)), ZERO)
    else if role == "assistant" then
      Assistant(
        InnerParts(o["content"], true), InnerUsage(Get(o, "usage", Fields(map[]))),
        Get(o, "api", Str("")).s, Get(o, "provider", Str("")).s, Get(o, "model", Str("")).s,
        Nullable(Get(o, "response_id", Null)), Get(o, "stop_reason", Str("stop")).s, Nullable(Get(o, "error_message", Null)),
        (if Get(o, "failure", Null).Null? then None else ParseFailure(o["failure"])), Get(o, "timestamp", ZERO))
    else
      ToolResult(o["tool_call_id"].s, o["tool_name"].s, InnerParts(o["content"], false), Get(o, "is_error", Flag(false)).b,
                 (if checks.small(Get(o, "details", Null)) then Get(o, "details", Null) else Null), ZERO)
  }

  /** `_message`: checked, decoded permissively, and repaired; None is its refusal. */
  function Decode(checks: Checks, o: Object): Option<Message> {
    if !Check(checks, o) then None else
      var m := Inner(checks, o);
      match m
      case User(_, _) =>
        Some(User(if o["content"].Str? then Plain(o["content"].s) else Parts(RepairedParts(o["content"])), Get(o, "timestamp", ZERO)))
      case ToolResult(_, _, _, _, _, _) =>
        Some(m.(parts := RepairedParts(o["content"]), timestamp := Get(o, "timestamp", ZERO), details := Get(o, "details", Null)))
      case _ => Some(m)
  }

  // ---- The round trip --------------------------------------------------------------------------------------

  predicate StorablePart(p: Part) {
    match p
    case Image(_, mime) => mime != ""
    case ToolCall(id, name, _, _) => id != "" && name != ""
    case _ => true
  }

  predicate StorableUsage(u: Usage) {
    && u.input >= 0 && u.output >= 0 && u.cacheRead >= 0 && u.cacheWrite >= 0 && u.total >= 0
    && IsNumber(u.cost.input) && IsNumber(u.cost.output) && IsNumber(u.cost.cacheRead) && IsNumber(u.cost.cacheWrite)
    && IsNumber(u.cost.total)
  }

  /** What a message has to be for the strict codec to take it. */
  predicate Storable(checks: Checks, m: Message) {
    match m
    case User(content, timestamp) =>
      IsNumber(timestamp) && (content.Parts? ==> PlainParts(content.parts) && forall p | p in content.parts :: StorablePart(p))
    case Assistant(parts, usage, _, _, _, _, stop, _, failure, timestamp) =>
      && ReplyParts(parts) && (forall p | p in parts :: StorablePart(p)) && StorableUsage(usage) && stop in STOPS
      && (failure.Some? ==> checks.failure(failure.value)) && IsNumber(timestamp)
    case ToolResult(callId, toolName, parts, _, _, timestamp) =>
      callId != "" && toolName != "" && PlainParts(parts) && (forall p | p in parts :: StorablePart(p)) && IsNumber(timestamp)
    case Custom(kind, data) => kind != "" && checks.custom(kind, data)
  }

  lemma PlainPartTrip(p: Part)
    requires p.Text? || p.Image?
    ensures CheckPart(PlainPart(p), false) <==> StorablePart(p)
    ensures StorablePart(p) ==> RepairedPart(PlainPart(p)) == p
  {
  }

  lemma ReplyTextTrip(text: string, signature: Option<string>)
    ensures CheckPart(ReplyPart(Text(text, signature)), true)
    ensures InnerPart(ReplyPart(Text(text, signature)), true) == Text(text, signature)
  {
  }

  lemma ThinkingTrip(thinking: string, signature: Option<string>, redacted: bool)
    ensures CheckPart(ReplyPart(Thinking(thinking, signature, redacted)), true)
    ensures InnerPart(ReplyPart(Thinking(thinking, signature, redacted)), true) == Thinking(thinking, signature, redacted)
  {
  }

  lemma ToolCallTrip(id: string, name: string, arguments: Object, signature: Option<string>)
    ensures var p := ToolCall(id, name, arguments, signature);
            (CheckPart(ReplyPart(p), true) <==> StorablePart(p)) && (StorablePart(p) ==> InnerPart(ReplyPart(p), true) == p)
  {
  }

  lemma ReplyPartTrip(p: Part)
    requires !p.Image?
    ensures CheckPart(ReplyPart(p), true) <==> StorablePart(p)
    ensures StorablePart(p) ==> InnerPart(ReplyPart(p), true) == p
  {
    hide CheckPart, ReplyPart, InnerPart;
    match p
    case Text(text, signature) => ReplyTextTrip(text, signature);
    case Thinking(thinking, signature, redacted) => ThinkingTrip(thinking, signature, redacted);
    case ToolCall(id, name, arguments, signature) => ToolCallTrip(id, name, arguments, signature);
  }

  lemma PlainTrip(parts: seq<Part>)
    requires PlainParts(parts)
    ensures CheckContent(Items(EncodePlain(parts)), false) <==> forall p | p in parts :: StorablePart(p)
    ensures CheckContent(Items(EncodePlain(parts)), false) ==> RepairedParts(Items(EncodePlain(parts))) == parts
  {
    hide PlainPart, CheckPart, StorablePart, RepairedPart;
    var items := EncodePlain(parts);
    forall k | 0 <= k < |parts|
      ensures items[k] == PlainPart(parts[k]) && (CheckPart(items[k], false) <==> StorablePart(parts[k]))
      ensures StorablePart(parts[k]) ==> RepairedPart(items[k]) == parts[k]
    {
      assert parts[k] in parts;
      PlainPartTrip(parts[k]);
    }
    if CheckContent(Items(items), false) {
      forall p | p in parts ensures StorablePart(p) {
        var k :| 0 <= k < |parts| && parts[k] == p;
        assert CheckPart(items[k], false);
      }
    }
  }

  lemma ReplyTrip(parts: seq<Part>)
    requires ReplyParts(parts)
    ensures CheckContent(Items(EncodeReply(parts)), true) <==> forall p | p in parts :: StorablePart(p)
    ensures CheckContent(Items(EncodeReply(parts)), true) ==> InnerParts(Items(EncodeReply(parts)), true) == parts
  {
    hide ReplyPart, CheckPart, StorablePart, InnerPart;
    var items := EncodeReply(parts);
    forall k | 0 <= k < |parts|
      ensures items[k] == ReplyPart(parts[k]) && (CheckPart(items[k], true) <==> StorablePart(parts[k]))
      ensures StorablePart(parts[k]) ==> InnerPart(items[k], true) == parts[k]
    {
      assert parts[k] in parts;
      ReplyPartTrip(parts[k]);
    }
    if CheckContent(Items(items), true) {
      forall p | p in parts ensures StorablePart(p) {
        var k :| 0 <= k < |parts| && parts[k] == p;
        assert CheckPart(items[k], true);
      }
    }
  }

  lemma UsageTrip(u: Usage)
    ensures CheckUsage(EncodeUsage(u)) <==> StorableUsage(u)
    ensures StorableUsage(u) ==> InnerUsage(EncodeUsage(u)) == u
  {
    var cost := EncodeUsage(u).fields["cost"].fields;
    assert cost["input"] == u.cost.input && cost["output"] == u.cost.output && cost["cache_read"] == u.cost.cacheRead
        && cost["cache_write"] == u.cost.cacheWrite && cost["total"] == u.cost.total;
  }

  lemma FailureTrip(f: Failure)
    ensures ParseFailure(EncodeFailure(f)) == Some(f)
  {
  }

  lemma UserTrip(checks: Checks, m: Message)
    requires m.User? && Encode(m).Some?
    ensures Decode(checks, Encode(m).value) == if Storable(checks, m) then Some(m) else None
  {
    if m.content.Parts? { PlainTrip(m.content.parts); }
    hide EncodePlain, CheckContent, InnerParts, RepairedParts, PlainParts;
  }

  lemma ToolResultTrip(checks: Checks, m: Message)
    requires m.ToolResult? && Encode(m).Some?
    ensures Decode(checks, Encode(m).value) == if Storable(checks, m) then Some(m) else None
  {
    PlainTrip(m.parts);
    hide EncodePlain, CheckContent, InnerParts, RepairedParts, PlainParts;
  }

  lemma ReplyShape(m: Message)
    requires m.Assistant? && ReplyParts(m.parts)
    ensures var o := Encode(m).value;
      && Shape(o, {"role", "content"}, REPLY_FIELDS)
      && o["role"] == Str("assistant") && o["content"] == Items(EncodeReply(m.parts))
      && (m.failure.Some? ==> "failure" in o && o["failure"] == EncodeFailure(m.failure.value))
  {
    hide EncodeReply, EncodeUsage, EncodeFailure;
  }

  lemma ReplyNames(m: Message)
    requires m.Assistant? && ReplyParts(m.parts)
    ensures var o := Encode(m).value;
      && Get(o, "role", Null) == Str("assistant")
      && Get(o, "api", Str("")) == Str(m.api) && Get(o, "provider", Str("")) == Str(m.provider)
      && Get(o, "model", Str("")) == Str(m.model)
      && Get(o, "usage", Fields(map[])) == EncodeUsage(m.usage)
  {
    hide EncodeReply, EncodeUsage, EncodeFailure;
  }

  lemma ReplyOutcome(m: Message)
    requires m.Assistant? && ReplyParts(m.parts)
    ensures var o := Encode(m).value;
      && Get(o, "response_id", Null) == Optional(m.responseId) && Get(o, "error_message", Null) == Optional(m.error)
      && Get(o, "stop_reason", Str("stop")) == Str(m.stop)
      && Get(o, "failure", Null) == (if m.failure.Some? then EncodeFailure(m.failure.value) else Null)
      && Get(o, "timestamp", ZERO) == m.timestamp
  {
    hide EncodeReply, EncodeUsage, EncodeFailure;
  }

  /** The fields of an encoded reply, as the decoder reads them. */
  lemma ReplyFields(m: Message)
    requires m.Assistant? && ReplyParts(m.parts)
    ensures var o := Encode(m).value;
      && Shape(o, {"role", "content"}, REPLY_FIELDS)
      && o["role"] == Str("assistant") && o["content"] == Items(EncodeReply(m.parts))
      && Get(o, "role", Null) == Str("assistant")
      && Get(o, "api", Str("")) == Str(m.api) && Get(o, "provider", Str("")) == Str(m.provider)
      && Get(o, "model", Str("")) == Str(m.model)
      && Get(o, "response_id", Null) == Optional(m.responseId) && Get(o, "error_message", Null) == Optional(m.error)
      && Get(o, "stop_reason", Str("stop")) == Str(m.stop)
      && Get(o, "failure", Null) == (if m.failure.Some? then EncodeFailure(m.failure.value) else Null)
      && (m.failure.Some? ==> "failure" in o && o["failure"] == EncodeFailure(m.failure.value))
      && Get(o, "usage", Fields(map[])) == EncodeUsage(m.usage) && Get(o, "timestamp", ZERO) == m.timestamp
  {
    hide EncodeReply, EncodeUsage, EncodeFailure, Shape, Get;
    ReplyShape(m);
    ReplyNames(m);
    ReplyOutcome(m);
  }

  lemma FailureIsRecord(f: Failure)
    ensures EncodeFailure(f).Fields?
  {
  }

  lemma OptionalTrip(s: Option<string>)
    ensures IsStr(Optional(s), true, false) && Nullable(Optional(s)) == s
  {
  }

  /** A failure record is accepted exactly when its facts are. */
  lemma FailureChecked(checks: Checks, failure: Option<Failure>)
    ensures var f := if failure.Some? then EncodeFailure(failure.value) else Null;
            (f.Null? || (ParseFailure(f).Some? && checks.failure(ParseFailure(f).value)))
            <==> (failure.Some? ==> checks.failure(failure.value))
  {
    if failure.Some? {
      FailureTrip(failure.value);
      FailureIsRecord(failure.value);
    }
    hide EncodeFailure, ParseFailure;
  }

  lemma AssistantChecked(checks: Checks, m: Message)
    requires m.Assistant? && Encode(m).Some?
    ensures Check(checks, Encode(m).value) <==> Storable(checks, m)
  {
    ReplyTrip(m.parts);
    UsageTrip(m.usage);
    OptionalTrip(m.responseId);
    OptionalTrip(m.error);
    ReplyFields(m);
    FailureChecked(checks, m.failure);
    hide Encode, EncodeReply, CheckContent, ReplyParts, EncodeUsage, CheckUsage, StorableUsage, EncodeFailure, ParseFailure, Get,
         Shape, Optional, StorablePart, IsNumber;
  }

  lemma AssistantValue(checks: Checks, m: Message)
    requires m.Assistant? && Encode(m).Some? && Check(checks, Encode(m).value)
    ensures Decode(checks, Encode(m).value) == Some(m)
  {
    ReplyFields(m);
    ReplyTrip(m.parts);
    UsageTrip(m.usage);
    OptionalTrip(m.responseId);
    OptionalTrip(m.error);
    if m.failure.Some? {
      FailureTrip(m.failure.value);
      FailureIsRecord(m.failure.value);
    }
    hide Encode, EncodeReply, CheckContent, InnerParts, RepairedParts, ReplyParts, EncodeUsage, CheckUsage, InnerUsage, StorableUsage,
         EncodeFailure, ParseFailure, Get, Shape, Optional, Nullable;
  }

  lemma AssistantTrip(checks: Checks, m: Message)
    requires m.Assistant? && Encode(m).Some?
    ensures Decode(checks, Encode(m).value) == if Storable(checks, m) then Some(m) else None
  {
    AssistantChecked(checks, m);
    if Check(checks, Encode(m).value) { AssistantValue(checks, m); }
    hide Check, Encode, Storable, Inner;
  }

  lemma CustomTrip(checks: Checks, m: Message)
    requires m.Custom?
    ensures Decode(checks, Encode(m).value) == if Storable(checks, m) then Some(m) else None
  {
  }

  /** Whatever the encoder produces decodes to the very message, or is refused; it is accepted exactly when storable. */
  lemma RoundTrip(checks: Checks, m: Message)
    requires Encode(m).Some?
    ensures Decode(checks, Encode(m).value) == if Storable(checks, m) then Some(m) else None
  {
    hide Encode, Decode, Storable;
    match m
    case User(_, _) => UserTrip(checks, m);
    case Assistant(_, _, _, _, _, _, _, _, _, _) => AssistantTrip(checks, m);
    case ToolResult(_, _, _, _, _, _) => ToolResultTrip(checks, m);
    case Custom(_, _) => CustomTrip(checks, m);
  }

  lemma DecodedPart(d: Data, reply: bool)
    requires CheckPart(d, reply)
    ensures StorablePart(InnerPart(d, reply)) && (InnerPart(d, reply).Image? ==> !reply)
    ensures !reply ==> InnerPart(d, reply).Text? || InnerPart(d, reply).Image?
    ensures !reply ==> StorablePart(RepairedPart(d)) && (RepairedPart(d).Text? || RepairedPart(d).Image?)
  {
  }

  lemma DecodedParts(d: Data, reply: bool)
    requires CheckContent(d, reply)
    ensures forall p | p in InnerParts(d, reply) :: StorablePart(p) && (reply ==> !p.Image?)
    ensures !reply ==> forall p | p in RepairedParts(d) :: StorablePart(p) && (p.Text? || p.Image?)
  {
    hide CheckPart, InnerPart, RepairedPart, StorablePart;
    forall k | 0 <= k < |d.items| { DecodedPart(d.items[k], reply); }
  }

  /** Everything the decoder accepts is a message the encoder takes; decoding its encoding changes nothing. */
  lemma DecodedIsStorable(checks: Checks, o: Object)
    requires Decode(checks, o).Some?
    ensures var m := Decode(checks, o).value;
            Storable(checks, m) && Encode(m).Some? && Decode(checks, Encode(m).value) == Some(m)
  {
    var m := Decode(checks, o).value;
    StorableDecoded(checks, o);
    assert Encode(m).Some? by { hide Decode; }
    hide Decode, Encode, Storable;
    RoundTrip(checks, m);
  }

  lemma StorableDecoded(checks: Checks, o: Object)
    requires Decode(checks, o).Some?
    ensures Storable(checks, Decode(checks, o).value)
  {
    var reply := Get(o, "role", Null) == Str("assistant");
    if CheckContent(Get(o, "content", Null), reply) { DecodedParts(o["content"], reply); }
    if reply { DecodedUsage(Get(o, "usage", Fields(map[]))); }
    hide CheckContent, InnerParts, RepairedParts, CheckUsage, InnerUsage, StorableUsage, StorablePart, ParseFailure, Shape;
  }

  lemma DecodedUsage(d: Data)
    requires CheckUsage(d)
    ensures StorableUsage(InnerUsage(d))
  {
  }

  // ---- Message lists --------------------------------------------------------------------------------------

  /** The rows of a history; None when some message has a part of the wrong class. */
  function EncodeAll(ms: seq<Message>): Option<seq<Object>> {
    if ms == [] then Some([]) else
      var n := |ms| - 1;
      match (EncodeAll(ms[..n]), Encode(ms[n]))
      case (Some(rows), Some(row)) => Some(rows + [row])
      case _ => None
  }

  function DecodeAll(checks: Checks, rows: seq<Object>): Option<seq<Message>> {
    if rows == [] then Some([]) else
      var n := |rows| - 1;
      match (DecodeAll(checks, rows[..n]), Decode(checks, rows[n]))
      case (Some(ms), Some(m)) => Some(ms + [m])
      case _ => None
  }

  /** A history decodes to itself from its rows, or is refused. */
  lemma {:induction false} AllTrip(checks: Checks, ms: seq<Message>)
    requires EncodeAll(ms).Some?
    ensures |EncodeAll(ms).value| == |ms|
    ensures DecodeAll(checks, EncodeAll(ms).value) == if forall m | m in ms :: Storable(checks, m) then Some(ms) else None
  {
    hide Encode, Decode, Storable;
    if ms != [] {
      var n := |ms| - 1;
      AllTrip(checks, ms[..n]);
      RoundTrip(checks, ms[n]);
      assert ms == ms[..n] + [ms[n]];
      assert EncodeAll(ms).value[..n] == EncodeAll(ms[..n]).value;
    }
  }

  // ---- _tool_pairs ------------------------------------------------------------------------------------------

  function CallsOf(parts: seq<Part>): seq<History.Call> {
    if parts == [] then [] else
      var rest := CallsOf(parts[..|parts| - 1]);
      var last := parts[|parts| - 1];
      if last.ToolCall? then rest + [History.Call(last.id, last.name)] else rest
  }

  /** A reply that a failed run leaves behind: it may stand inside an unfinished batch of a diagnostic export. */
  predicate DiagnosticError(m: Message) {
    m.Assistant? && m.stop in {"error", "aborted"} && CallsOf(m.parts) == []
  }

  function OpenAny(s: History.Scan, calls: seq<History.Call>): History.Scanned {
    if calls == [] then History.Clean(s) else
      match OpenAny(s, calls[..|calls| - 1])
      case Broken => History.Broken
      case Clean(t) =>
        var last := calls[|calls| - 1];
        if last.id in t.seen then History.Broken
        else History.Clean(History.Scan(t.pending[last.id := last.name], t.seen + {last.id}))
  }

  function PairStep(s: History.Scan, m: Message, diagnostic: bool): History.Scanned {
    if m.ToolResult? then
      if m.callId in s.pending && s.pending[m.callId] == m.toolName then History.Clean(s.(pending := s.pending - {m.callId}))
      else History.Broken
    else if s.pending != map[] && !(diagnostic && DiagnosticError(m)) then History.Broken
    else OpenAny(s, if m.Assistant? then CallsOf(m.parts) else [])
  }

  function PairRun(ms: seq<Message>, diagnostic: bool): History.Scanned {
    if ms == [] then History.Clean(History.START) else
      match PairRun(ms[..|ms| - 1], diagnostic)
      case Broken => History.Broken
      case Clean(s) => PairStep(s, ms[|ms| - 1], diagnostic)
  }

  lemma {:induction false} BrokenStays(ms: seq<Message>, n: nat, diagnostic: bool)
    requires n <= |ms| && PairRun(ms[..n], diagnostic).Broken?
    ensures PairRun(ms, diagnostic).Broken?
  {
    if n < |ms| {
      assert ms[..|ms| - 1][..n] == ms[..n];
      BrokenStays(ms[..|ms| - 1], n, diagnostic);
    } else {
      assert ms[..n] == ms;
    }
  }

  lemma {:induction false} OpenStays(s: History.Scan, calls: seq<History.Call>, n: nat)
    requires n <= |calls| && OpenAny(s, calls[..n]).Broken?
    ensures OpenAny(s, calls).Broken?
  {
    if n < |calls| {
      assert calls[..|calls| - 1][..n] == calls[..n];
      OpenStays(s, calls[..|calls| - 1], n);
    } else {
      assert calls[..n] == calls;
    }
  }

  /** `_tool_pairs`: the calls that still wait, None for a history that cannot be paired. */
  method ToolPairs(ms: seq<Message>, diagnostic: bool) returns (pending: Option<map<string, string>>)
    ensures pending == match PairRun(ms, diagnostic) case Broken => None case Clean(s) => Some(s.pending)
  {
    var waiting: map<string, string>, seen: set<string> := map[], {};
    assert ms[..0] == [];
    for k := 0 to |ms|
      invariant PairRun(ms[..k], diagnostic) == History.Clean(History.Scan(waiting, seen))
    {
      assert ms[..k + 1][..k] == ms[..k];
      ghost var s := History.Scan(waiting, seen);
      var m := ms[k];
      if PairStep(s, m, diagnostic).Broken? { BrokenStays(ms, k + 1, diagnostic); }
      if m.ToolResult? {
        if m.callId !in waiting || waiting[m.callId] != m.toolName { return None; }
        waiting := waiting - {m.callId};
      } else {
        if waiting != map[] && !(diagnostic && DiagnosticError(m)) { return None; }
        if m.Assistant? {
          var calls := CallsOf(m.parts);
          assert calls[..0] == [];
          for j := 0 to |calls|
            invariant OpenAny(s, calls[..j]) == History.Clean(History.Scan(waiting, seen))
          {
            assert calls[..j + 1][..j] == calls[..j];
            if calls[j].id in seen {
              OpenStays(s, calls, j + 1);
              return None;
            }
            seen := seen + {calls[j].id};
            waiting := waiting[calls[j].id := calls[j].name];
          }
          assert calls[..|calls|] == calls;
        }
      }
    }
    assert ms[..|ms|] == ms;
    return Some(waiting);
  }

  /** The history as pairing sees it. */
  function Skeleton(m: Message): History.Message {
    match m
    case User(_, _) => History.User(History.Plain(""))
    case Assistant(parts, _, _, _, _, _, _, _, _, _) => History.Assistant(SkeletonParts(parts))
    case ToolResult(callId, toolName, _, _, _, _) => History.Result(History.Call(callId, toolName), [])
    case Custom(kind, _) => History.Custom(kind, "")
  }

  function SkeletonParts(parts: seq<Part>): seq<History.Part> {
    seq(|parts|, k requires 0 <= k < |parts| =>
      if parts[k].ToolCall? then History.ToolCall(History.Call(parts[k].id, parts[k].name), "", "") else History.Text("", ""))
  }

  function Skeletons(ms: seq<Message>): seq<History.Message> {
    seq(|ms|, k requires 0 <= k < |ms| => Skeleton(ms[k]))
  }

  lemma {:induction false} SkeletonCalls(parts: seq<Part>)
    ensures History.CallsIn(SkeletonParts(parts)) == CallsOf(parts)
  {
    if parts != [] {
      var n := |parts| - 1;
      SkeletonCalls(parts[..n]);
      var last := SkeletonParts(parts)[n];
      assert SkeletonParts(parts) == SkeletonParts(parts[..n]) + [last];
      History.CallsInSplit(SkeletonParts(parts[..n]), [last]);
      assert [last][1..] == [];
    }
  }

  lemma {:induction false} OpenAgrees(s: History.Scan, calls: seq<History.Call>)
    requires forall c | c in calls :: c.id != ""
    ensures OpenAny(s, calls) == History.Open(s, calls)
  {
    if calls != [] {
      var n := |calls| - 1;
      OpenAgrees(s, calls[..n]);
      assert calls == calls[..n] + [calls[n]];
      History.OpenSplit(s, calls[..n], [calls[n]]);
      assert [calls[n]][1..] == [] && calls[n] in calls;
    }
  }

  lemma {:induction false} CallIdsUsable(parts: seq<Part>)
    requires forall p | p in parts :: StorablePart(p)
    ensures forall c | c in CallsOf(parts) :: c.id != ""
  {
    if parts != [] {
      var n := |parts| - 1;
      assert parts[n] in parts;
      CallIdsUsable(parts[..n]);
    }
  }

  /** On storable messages pairing is the scan compaction uses. */
  lemma {:induction false} PairsAreRun(checks: Checks, ms: seq<Message>)
    requires forall m | m in ms :: Storable(checks, m)
    ensures PairRun(ms, false) == History.Run(History.START, Skeletons(ms))
  {
    if ms != [] {
      var n := |ms| - 1;
      PairsAreRun(checks, ms[..n]);
      var m := ms[n];
      assert m in ms;
      assert Skeletons(ms)[..n] == Skeletons(ms[..n]) && Skeletons(ms)[..n + 1] == Skeletons(ms);
      History.RunNext(History.START, Skeletons(ms), n);
      if m.Assistant? {
        SkeletonCalls(m.parts);
        CallIdsUsable(m.parts);
        if PairRun(ms[..n], false).Clean? { OpenAgrees(PairRun(ms[..n], false).scan, CallsOf(m.parts)); }
      }
    }
  }

  /** The history without the errors that a diagnostic export may carry. */
  function WithoutErrors(ms: seq<Message>): seq<Message> {
    if ms == [] then [] else
      var n := |ms| - 1;
      WithoutErrors(ms[..n]) + if DiagnosticError(ms[n]) then [] else [ms[n]]
  }

  /** Such an error changes nothing in a diagnostic scan, and any other message is scanned as ever. */
  lemma DiagnosticStep(s: History.Scan, m: Message)
    ensures DiagnosticError(m) ==> PairStep(s, m, true) == History.Clean(s)
    ensures !DiagnosticError(m) ==> PairStep(s, m, true) == PairStep(s, m, false)
  {
    assert OpenAny(s, []) == History.Clean(s);
  }

  lemma PairRunNext(ms: seq<Message>, m: Message, diagnostic: bool)
    ensures PairRun(ms + [m], diagnostic) ==
              if PairRun(ms, diagnostic).Broken? then History.Broken else PairStep(PairRun(ms, diagnostic).scan, m, diagnostic)
  {
    hide PairStep;
    assert (ms + [m])[..|ms|] == ms;
  }

  /** A diagnostic export pairs exactly as an ordinary one does without its errors. */
  lemma {:induction false} DiagnosticPairs(ms: seq<Message>)
    ensures PairRun(ms, true) == PairRun(WithoutErrors(ms), false)
    ensures forall m | m in WithoutErrors(ms) :: m in ms
  {
    hide PairRun, PairStep, DiagnosticError;
    if ms == [] {
      NothingPaired();
    } else {
      var n := |ms| - 1;
      DiagnosticPairs(ms[..n]);
      assert ms == ms[..n] + [ms[n]];
      PairRunNext(ms[..n], ms[n], true);
      PairRunNext(WithoutErrors(ms[..n]), ms[n], false);
      if PairRun(ms[..n], true).Clean? { DiagnosticStep(PairRun(ms[..n], true).scan, ms[n]); }
      if DiagnosticError(ms[n]) {
        assert WithoutErrors(ms) == WithoutErrors(ms[..n]);
      }
    }
  }

  lemma NothingPaired()
    ensures PairRun([], true) == PairRun([], false)
  {
  }

  /** What pairing returns: the calls without a result, and none exactly when the history is well paired. */
  lemma PendingIsUnanswered(checks: Checks, ms: seq<Message>, diagnostic: bool)
    requires forall m | m in ms :: Storable(checks, m)
    ensures var h := Skeletons(if diagnostic then WithoutErrors(ms) else ms);
            var run := PairRun(ms, diagnostic);
            && (run.Clean? ==> forall id :: id in run.scan.pending <==> History.Unanswered(h, id))
            && (run.Clean? && run.scan.pending == map[] <==> History.Paired(h, {}))
  {
    hide Storable, PairRun, Skeletons;
    if diagnostic { DiagnosticPairs(ms); }
    var kept := if diagnostic then WithoutErrors(ms) else ms;
    PairsAreRun(checks, kept);
    History.AcceptedIsPaired(Skeletons(kept), {});
    var run := PairRun(kept, false);
    if run.Clean? {
      History.SamePending(Skeletons(kept));
      forall id ensures id in run.scan.pending <==> History.Unanswered(Skeletons(kept), id) {
        History.OpenIdsAreUnanswered(Skeletons(kept), id);
      }
    }
  }

  // ---- The two ways to decode a snapshot --------------------------------------------------------------------

  /** A recovery record: a call whose outcome is not confirmed. */
  datatype Tool = Tool(id: string, name: string, status: string)

  datatype Snapshot = Snapshot(messages: seq<Message>, meta: Object, interrupted: bool, tools: seq<Tool>)

  const FIELDS := {"format", "version", "messages", "base_system_prompt", "model", "options", "settings", "skills", "compaction",
                   "session_id", "run_id", "run_active", "cwd", "error", "interrupted", "interrupted_tools"}

  function ParseTool(d: Data): Option<Tool> {
    if !d.Fields? || !Shape(d.fields, {"tool_call_id", "tool_name", "status"}, {}) then None else
      var o := d.fields;
      if IsStr(o["tool_call_id"], false, true) && IsStr(o["tool_name"], false, true)
         && o["status"] in {Str("not_started"), Str("cancelled"), Str("unknown")}
      then Some(Tool(o["tool_call_id"].s, o["tool_name"].s, o["status"].s)) else None
  }

  function ParseTools(items: seq<Data>): Option<seq<Tool>> {
    if items == [] then Some([]) else
      match (ParseTools(items[..|items| - 1]), ParseTool(items[|items| - 1]))
      case (Some(tools), Some(tool)) => Some(tools + [tool])
      case _ => None
  }

  /** Every call of the history, with the name it was last made under. */
  function KnownCalls(ms: seq<Message>): map<string, string> {
    if ms == [] then map[] else
      var last := ms[|ms| - 1];
      KnownCalls(ms[..|ms| - 1]) + if last.Assistant? then NamesOf(CallsOf(last.parts)) else map[]
  }

  function NamesOf(calls: seq<History.Call>): map<string, string> {
    if calls == [] then map[] else NamesOf(calls[..|calls| - 1])[calls[|calls| - 1].id := calls[|calls| - 1].name]
  }

  /** The recovery records fit the history: they cover what waits, and an uninterrupted snapshot has none. */
  predicate ToolsFit(ms: seq<Message>, pending: map<string, string>, tools: seq<Tool>, interrupted: bool) {
    && (forall j, k | 0 <= j < k < |tools| :: tools[j].id != tools[k].id)
    && (tools != [] ==> interrupted)
    && (forall id | id in pending :: exists t :: t in tools && t.id == id)
    && (forall t | t in tools :: t.id in KnownCalls(ms) && KnownCalls(ms)[t.id] == t.name
                                 && (t.id !in pending ==> t.status != "not_started"))
  }

  /** The compaction record of a snapshot. */
  predicate CheckCompaction(d: Data) {
    d.Fields? && Shape(d.fields, {"generation", "summary", "compacted_messages"}, {}) &&
    var generation, summary, compacted := d.fields["generation"], d.fields["summary"], d.fields["compacted_messages"];
    && IsCount(generation) && IsCount(compacted) && IsStr(summary, generation.n == 0, true)
    && (if generation.n == 0 then summary.Null? && compacted.n == 0 else compacted.n >= generation.n)
  }

  /** The fields of the format; anything else is ignored. */
  function Known(all: Object): Object {
    map key | key in all && key in FIELDS :: all[key]
  }

  /** `_decode_snapshot` once the messages are known; None is its refusal. */
  function DecodeFields(checks: Checks, all: Object, ms: seq<Message>): Option<Snapshot> {
    var raw := Known(all);
    if raw.Keys != FIELDS || raw["format"] != Str("xdog.agent.snapshot") || raw["version"] != Whole(1)
       || !raw["messages"].Items? || !raw["interrupted"].Flag? || !raw["run_active"].Flag? || !IsStr(raw["run_id"], true, false)
       || (raw["run_active"].b && raw["run_id"] in {Null, Str("")}) || !raw["interrupted_tools"].Items?
       || !CheckCompaction(raw["compaction"]) || !checks.others(raw - {"messages"})
    then None
    else
      match (PairRun(ms, raw["interrupted"].b), ParseTools(raw["interrupted_tools"].items))
      case (Clean(s), Some(tools)) =>
        if ToolsFit(ms, s.pending, tools, raw["interrupted"].b)
        then Some(Snapshot(ms, raw - {"messages"}, raw["interrupted"].b, tools)) else None
      case _ => None
  }

  function RowsOf(items: seq<Data>): Option<seq<Object>> {
    if items == [] then Some([]) else
      match RowsOf(items[..|items| - 1])
      case None => None
      case Some(rows) => if items[|items| - 1].Fields? then Some(rows + [items[|items| - 1].fields]) else None
  }

  function AsItems(rows: seq<Object>): seq<Data> {
    seq(|rows|, k requires 0 <= k < |rows| => Fields(rows[k]))
  }

  lemma {:induction false} RowsOfItems(rows: seq<Object>)
    ensures RowsOf(AsItems(rows)) == Some(rows)
  {
    if rows != [] {
      var n := |rows| - 1;
      assert AsItems(rows)[..n] == AsItems(rows[..n]);
      RowsOfItems(rows[..n]);
      assert rows == rows[..n] + [rows[n]];
    }
  }

  /** `decode_snapshot`: the whole document is copied, its messages are decoded, then its fields. */
  ghost function DecodeWhole(checks: Checks, raw: Object): Option<Snapshot> {
    if !Copyable(checks.width, Fields(raw)) || !Get(raw, "messages", Null).Items? then None else
      match RowsOf(raw["messages"].items)
      case None => None
      case Some(rows) =>
        match DecodeAll(checks, rows)
        case None => None
        case Some(ms) => DecodeFields(checks, raw, ms)
  }

  /** Each header and each content part of a row is within the bounds of the copier. */
  ghost predicate RowFits(checks: Checks, row: Object) {
    if Get(row, "content", Null).Items? then
      && Copyable(checks.width, Fields(row - {"content"}))
      && forall part | part in row["content"].items :: Copyable(checks.width, part)
    else Copyable(checks.width, Fields(row))
  }

  /** `decode_snapshot_parts`: metadata without messages, and the typed history, encoded and decoded row by row. */
  ghost function DecodeParts(checks: Checks, meta: Object, history: seq<Message>): Option<Snapshot> {
    if !Copyable(checks.width, Fields(meta)) || "messages" in meta then None else
      match EncodeAll(history)
      case None => None
      case Some(rows) =>
        if exists row | row in rows :: !RowFits(checks, row) then None else
          match DecodeAll(checks, rows)
          case None => None
          case Some(ms) => DecodeFields(checks, meta["messages" := Items([])], ms)
  }

  /** The bounds of a whole document are bounds of its metadata and of every header and part of its messages. */
  lemma WholeBoundsParts(checks: Checks, meta: Object, rows: seq<Object>)
    requires "messages" !in meta && Copyable(checks.width, Fields(meta["messages" := Items(AsItems(rows))]))
    ensures Copyable(checks.width, Fields(meta))
    ensures forall row | row in rows :: RowFits(checks, row)
  {
    hide Copyable, RowFits;
    var whole := meta["messages" := Items(AsItems(rows))];
    FieldCopyable(checks.width, whole, "messages");
    assert whole - {"messages"} == meta;
    forall row | row in rows ensures RowFits(checks, row) {
      var k :| 0 <= k < |rows| && rows[k] == row;
      ItemCopyable(checks.width, AsItems(rows), k);
      RowFitsAlone(checks, row);
    }
  }

  lemma RowFitsAlone(checks: Checks, row: Object)
    requires Copyable(checks.width, Fields(row))
    ensures RowFits(checks, row)
  {
    hide Copyable;
    if Get(row, "content", Null).Items? {
      FieldCopyable(checks.width, row, "content");
      var items := row["content"].items;
      forall part | part in items ensures Copyable(checks.width, part) {
        var k :| 0 <= k < |items| && items[k] == part;
        ItemCopyable(checks.width, items, k);
      }
    }
  }

  /**
    * The two routes agree on every document the whole route can read; the whole route also refuses every document
    * beyond the bounds of the copier, and for the other route these bound each part alone.
    */
  lemma TwoRoutesAgree(checks: Checks, meta: Object, history: seq<Message>, rows: seq<Object>)
    requires EncodeAll(history) == Some(rows) && "messages" !in meta
    ensures var whole := meta["messages" := Items(AsItems(rows))];
            DecodeWhole(checks, whole) == if Copyable(checks.width, Fields(whole)) then DecodeParts(checks, meta, history) else None
  {
    hide Copyable, RowFits, DecodeFields;
    var whole := meta["messages" := Items(AsItems(rows))];
    if Copyable(checks.width, Fields(whole)) {
      WholeBoundsParts(checks, meta, rows);
      RowsOfItems(rows);
      match DecodeAll(checks, rows)
      case None =>
      case Some(ms) => MessagesOnlyListed(checks, meta, AsItems(rows), ms);
    }
  }

  lemma KnownWith(meta: Object, items: seq<Data>)
    ensures "messages" in Known(meta["messages" := Items(items)]) && Known(meta["messages" := Items(items)])["messages"] == Items(items)
    ensures Known(meta["messages" := Items(items)]) - {"messages"} == Known(meta) - {"messages"}
    ensures Known(meta["messages" := Items(items)]) == Known(meta)["messages" := Items(items)]
  {
  }

  lemma MessagesOnlyListed(checks: Checks, meta: Object, items: seq<Data>, ms: seq<Message>)
    ensures DecodeFields(checks, meta["messages" := Items(items)], ms) == DecodeFields(checks, meta["messages" := Items([])], ms)
  {
    KnownWith(meta, items);
    KnownWith(meta, []);
    hide ToolsFit, PairRun, ParseTools, CheckCompaction, Known, IsStr;
  }

  /** What a snapshot gives back: the history itself, whenever its own encoding is accepted. */
  lemma SnapshotRoundTrip(checks: Checks, meta: Object, history: seq<Message>, rows: seq<Object>)
    requires EncodeAll(history) == Some(rows)
    requires DecodeWhole(checks, meta["messages" := Items(AsItems(rows))]).Some?
    ensures DecodeWhole(checks, meta["messages" := Items(AsItems(rows))]).value.messages == history
  {
    RowsOfItems(rows);
    AllTrip(checks, history);
  }

  /** `require_resumable` */
  predicate Resumable(s: Snapshot) {
    !s.interrupted && s.tools == []
  }

  /** A decoded snapshot that may be resumed holds a well paired history: no call is unanswered, no id used twice. */
  lemma ResumableIsPaired(checks: Checks, all: Object, ms: seq<Message>)
    requires forall m | m in ms :: Storable(checks, m)
    requires DecodeFields(checks, all, ms).Some? && Resumable(DecodeFields(checks, all, ms).value)
    ensures History.Paired(Skeletons(ms), {})
  {
    PairsAreRun(checks, ms);
    var run := PairRun(ms, false);
    assert run.Clean?;
    assert run.scan.pending == map[] by {
      forall id ensures id !in run.scan.pending {}
    }
    History.AcceptedIsPaired(Skeletons(ms), {});
  }

  lemma {:induction false} DecodedAllStorable(checks: Checks, rows: seq<Object>)
    requires DecodeAll(checks, rows).Some?
    ensures forall m | m in DecodeAll(checks, rows).value :: Storable(checks, m)
  {
    hide Decode, Storable;
    if rows != [] {
      DecodedAllStorable(checks, rows[..|rows| - 1]);
      DecodedIsStorable(checks, rows[|rows| - 1]);
    }
  }

  /** Whatever document is decoded: if it may be resumed, compaction and a new run find its history well paired. */
  lemma ResumedHistoryIsPaired(checks: Checks, raw: Object)
    requires DecodeWhole(checks, raw).Some? && Resumable(DecodeWhole(checks, raw).value)
    ensures History.Paired(Skeletons(DecodeWhole(checks, raw).value.messages), {})
  {
    var rows := RowsOf(raw["messages"].items).value;
    DecodedAllStorable(checks, rows);
    ResumableIsPaired(checks, raw, DecodeAll(checks, rows).value);
  }
}
