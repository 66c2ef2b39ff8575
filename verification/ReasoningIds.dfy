/** Reasoning item identities on both sides of the Responses facade (proxy_responses.py). */
module ReasoningIds {
  import opened TextCodecs

  const LOSSLESS_PREFIX := "rs_xdog_v1_"
  const COMPACT_PREFIX := "rs_xdog_v2_"
  const ENVELOPE_PREFIX := "xdog:v2:"
  const MAX_ITEM_ID := 64

  /** SHA-256, of which only the size of the result is known. */
  type Hash = seq<byte> -> Digest
  type Digest = d: seq<byte> | |d| == 32 witness seq(32, _ => 0)

  datatype Outcome<T> = Accepted(value: T) | Invalid

  predicate StartsWith(s: string, prefix: string) {
    prefix <= s
  }

  predicate Plain(id: string) {
    && StartsWith(id, "rs_") && |id| > 3
    && (forall c | c in id[3..] :: IsSymbol(c))
    && !StartsWith(id, LOSSLESS_PREFIX) && !StartsWith(id, COMPACT_PREFIX)
  }

  function CompactId(hash: Hash, original: string): string {
    COMPACT_PREFIX + Base64(hash(Utf8(original)))
  }

  /** `_client_reasoning_id` */
  function ClientId(hash: Hash, original: string): string {
    if |original| <= MAX_ITEM_ID && Plain(original) then original
    else
      var encoded := LOSSLESS_PREFIX + Base64(Utf8(original));
      if |encoded| <= MAX_ITEM_ID then encoded else CompactId(hash, original)
  }

  const ENVELOPE_HEAD := "{\"id\":\""
  const ENVELOPE_MIDDLE := ",\"encrypted_content\":\""

  function EnvelopeText(id: string, content: string): string {
    ENVELOPE_HEAD + EnvelopeTail(id, ENVELOPE_MIDDLE + EnvelopeTail(content, "}"))
  }

  function EnvelopeTail(field: string, rest: string): string {
    Escape(field) + "\"" + rest
  }

  /** `_reasoning_envelope` */
  function Envelope(id: string, content: string): string {
    ENVELOPE_PREFIX + Base64(Utf8(EnvelopeText(id, content)))
  }

  /** Reads what `EnvelopeText` prints; any other JSON text would fail the comparison in `Unpack`. */
  function ReadEnvelopeText(s: string): Option<(string, string)> {
    if !StartsWith(s, ENVELOPE_HEAD) then None else
      match ScanString(s[|ENVELOPE_HEAD|..])
      case None => None
      case Some((id, rest)) =>
        if !StartsWith(rest, ENVELOPE_MIDDLE) then None else
          match ScanString(rest[|ENVELOPE_MIDDLE|..])
          case Some((content, after)) => if after == "}" then Some((id, content)) else None
          case None => None
  }

  /** The pattern rs_xdog_v2_[A-Za-z0-9_-]{43} */
  predicate IsCompact(id: string) {
    StartsWith(id, COMPACT_PREFIX) && |id| == 11 + 43 && forall c | c in id[11..] :: IsSymbol(c)
  }

  /** `_unpack_reasoning_envelope` */
  function Unpack(hash: Hash, value: string, itemId: string): Outcome<(string, string)>
    requires StartsWith(value, ENVELOPE_PREFIX)
  {
    if !IsCompact(itemId) then Invalid else
      match FromBase64(value[|ENVELOPE_PREFIX|..])
      case None => Invalid
      case Some(payload) =>
        match FromUtf8(payload)
        case None => Invalid
        case Some(text) =>
          match ReadEnvelopeText(text)
          case None => Invalid
          case Some((id, content)) =>
            if id == "" || CompactId(hash, id) != itemId || Envelope(id, content) != value then Invalid
            else Accepted((id, content))
  }

  /** `_upstream_reasoning_id` */
  function UpstreamId(hash: Hash, value: string): Outcome<string> {
    if StartsWith(value, COMPACT_PREFIX) then
      if IsCompact(value) then Accepted(value) else Invalid
    else if !StartsWith(value, LOSSLESS_PREFIX) then Accepted(value)
    else
      match FromBase64(value[|LOSSLESS_PREFIX|..])
      case None => Invalid
      case Some(bytes) =>
        match FromUtf8(bytes)
        case None => Invalid
        case Some(original) =>
          if original == "" || ClientId(hash, original) != value then Invalid else Accepted(original)
  }

  // ---- Emitting a reasoning item and reading it back ------------------------------------------

  /** What a reasoning block knows about its origin (the block's thinking_signature). */
  datatype Origin = NoOrigin | Native(id: Option<string>, content: Option<string>)

  /** The identity fields of a reasoning item on the wire. */
  datatype WireItem = WireItem(id: string, encrypted: Option<string>)

  /** The reasoning branch of `_output_item`; `generated` is the generated item id. */
  function Emit(hash: Hash, origin: Origin, generated: string): Outcome<WireItem> {
    match origin
    case NoOrigin => Accepted(WireItem(generated, None))
    case Native(id, content) =>
      if content.Some? && (id.None? || id.value == "") then Invalid
      else
        var itemId := if id.Some? then ClientId(hash, id.value) else generated;
        Accepted(WireItem(itemId,
          if content.None? then None
          else if StartsWith(itemId, COMPACT_PREFIX) && |id.value| <= MAX_ITEM_ID then Some(Envelope(id.value, content.value))
          else if |id.value| <= MAX_ITEM_ID then content
          else None))
  }

  /** The reasoning branch of `parse_request`: the origin that is replayed upstream. */
  function Replay(hash: Hash, item: WireItem): Outcome<Origin> {
    if item.encrypted.None? then Accepted(NoOrigin)
    else if item.id == "" then Invalid
    else if StartsWith(item.id, COMPACT_PREFIX) then
      if !StartsWith(item.encrypted.value, ENVELOPE_PREFIX) then Invalid
      else match Unpack(hash, item.encrypted.value, item.id)
        case Invalid => Invalid
        case Accepted((id, content)) => Accepted(Replayed(id, content))
    else match UpstreamId(hash, item.id)
      case Invalid => Invalid
      case Accepted(id) => Accepted(Replayed(id, item.encrypted.value))
  }

  /** An empty encrypted_content is not replayed. */
  function Replayed(id: string, content: string): Origin {
    if content == "" then NoOrigin else Native(Some(id), Some(content))
  }

  // ---- Lemmas -----------------------------------------------------------------------------------

  lemma CompactIdShape(hash: Hash, original: string)
    ensures IsCompact(CompactId(hash, original)) && |CompactId(hash, original)| == 54
  {
    Base64Shape(hash(Utf8(original)));
    assert CompactId(hash, original)[11..] == Base64(hash(Utf8(original)));
  }

  /** Every id shown to a client fits the 64 characters the API allows. */
  lemma ClientIdFits(hash: Hash, original: string)
    ensures |ClientId(hash, original)| <= MAX_ITEM_ID
  {
    CompactIdShape(hash, original);
  }

  /** The three shapes of a client id do not overlap. */
  lemma ClientIdKind(hash: Hash, original: string)
    ensures var id := ClientId(hash, original);
            if |original| <= MAX_ITEM_ID && Plain(original) then
              id == original && !StartsWith(id, COMPACT_PREFIX) && !StartsWith(id, LOSSLESS_PREFIX)
            else if StartsWith(id, COMPACT_PREFIX) then id == CompactId(hash, original)
            else id == LOSSLESS_PREFIX + Base64(Utf8(original))
  {
    CompactIdShape(hash, original);
    assert COMPACT_PREFIX[9] == '2' && LOSSLESS_PREFIX[9] == '1';
  }

  lemma DropPrefix(prefix: string, s: string)
    ensures StartsWith(prefix + s, prefix) && (prefix + s)[|prefix|..] == s
  {
  }

  lemma EnvelopeRoundTrip(id: string, content: string)
    ensures ReadEnvelopeText(EnvelopeText(id, content)) == Some((id, content))
  {
    var last := EnvelopeTail(content, "}");
    var rest := ENVELOPE_MIDDLE + last;
    DropPrefix(ENVELOPE_HEAD, EnvelopeTail(id, rest));
    DropPrefix(ENVELOPE_MIDDLE, last);
    ScanEscaped(id, rest);
    ScanEscaped(content, "}");
  }

  lemma UnpackEnvelope(hash: Hash, id: string, content: string)
    requires id != ""
    ensures Unpack(hash, Envelope(id, content), CompactId(hash, id)) == Accepted((id, content))
  {
    CompactIdShape(hash, id);
    var text := EnvelopeText(id, content);
    assert Envelope(id, content)[|ENVELOPE_PREFIX|..] == Base64(Utf8(text));
    Base64RoundTrip(Utf8(text));
    Utf8RoundTrip(text);
    EnvelopeRoundTrip(id, content);
  }

  lemma UpstreamOfClient(hash: Hash, original: string)
    requires original != "" && !StartsWith(ClientId(hash, original), COMPACT_PREFIX)
    ensures UpstreamId(hash, ClientId(hash, original)) == Accepted(original)
  {
    ClientIdKind(hash, original);
    if !(|original| <= MAX_ITEM_ID && Plain(original)) {
      assert ClientId(hash, original)[|LOSSLESS_PREFIX|..] == Base64(Utf8(original));
      Base64RoundTrip(Utf8(original));
      Utf8RoundTrip(original);
    }
  }

  /**
    * Emitting an item and replaying it restores the upstream id and its encrypted content exactly when
    * that content is not empty; an empty one comes back as no origin at all.
    */
  lemma EmitReplayRoundTrip(hash: Hash, id: string, content: string, generated: string)
    requires 0 < |id| <= MAX_ITEM_ID
    ensures var origin := Native(Some(id), Some(content));
            var item := Emit(hash, origin, generated);
            && item.Accepted? && item.value.id == ClientId(hash, id) && item.value.encrypted.Some?
            && Replay(hash, item.value) == Accepted(if content == "" then NoOrigin else origin)
  {
    ClientIdKind(hash, id);
    CompactIdShape(hash, id);
    if StartsWith(ClientId(hash, id), COMPACT_PREFIX) {
      UnpackEnvelope(hash, id, content);
    } else {
      UpstreamOfClient(hash, id);
    }
  }

  /** Ids too long to replay travel without their content: the item is readable but carries no origin. */
  lemma LongIdsAreNotReplayed(hash: Hash, id: string, content: string, generated: string)
    requires |id| > MAX_ITEM_ID
    ensures var item := Emit(hash, Native(Some(id), Some(content)), generated);
            && item.Accepted? && IsCompact(item.value.id) && item.value.encrypted.None?
            && Replay(hash, item.value) == Accepted(NoOrigin)
  {
    Base64Shape(Utf8(id));
    Utf8Grows(id);
    CompactIdShape(hash, id);
  }

  lemma {:induction false} Utf8Grows(s: string)
    ensures |Utf8(s)| >= |s|
  {
    if s != "" { Utf8Grows(s[1..]); }
  }

  /** The decoder accepts a lossless id exactly when it is the client form of some upstream id. */
  lemma LosslessIdsAreCanonical(hash: Hash, value: string)
    requires StartsWith(value, LOSSLESS_PREFIX)
    ensures UpstreamId(hash, value).Accepted? <==> exists original :: original != "" && ClientId(hash, original) == value
    ensures UpstreamId(hash, value).Accepted? ==> ClientId(hash, UpstreamId(hash, value).value) == value
  {
    assert !StartsWith(value, COMPACT_PREFIX) by {
      assert LOSSLESS_PREFIX[9] == value[9] == '1' && COMPACT_PREFIX[9] == '2';
    }
    if original :| original != "" && ClientId(hash, original) == value {
      UpstreamOfClient(hash, original);
    }
  }

  /** An envelope is accepted exactly when it is the one the facade would print for that item. */
  lemma EnvelopesAreCanonical(hash: Hash, value: string, itemId: string)
    requires StartsWith(value, ENVELOPE_PREFIX)
    ensures Unpack(hash, value, itemId).Accepted? <==>
              exists id, content :: id != "" && CompactId(hash, id) == itemId && Envelope(id, content) == value
  {
    if id, content :| id != "" && CompactId(hash, id) == itemId && Envelope(id, content) == value {
      UnpackEnvelope(hash, id, content);
    }
    if Unpack(hash, value, itemId).Accepted? {
      var (id, content) := Unpack(hash, value, itemId).value;
      assert id != "" && CompactId(hash, id) == itemId && Envelope(id, content) == value;
    }
  }

  /** Different upstream ids never share a lossless or plain client id. */
  lemma ClientIdInjective(hash: Hash, a: string, b: string)
    requires a != "" && b != "" && ClientId(hash, a) == ClientId(hash, b)
    ensures a == b || (StartsWith(ClientId(hash, a), COMPACT_PREFIX) && hash(Utf8(a)) == hash(Utf8(b)))
  {
    if StartsWith(ClientId(hash, a), COMPACT_PREFIX) {
      ClientIdKind(hash, a);
      ClientIdKind(hash, b);
      assert CompactId(hash, a)[11..] == CompactId(hash, b)[11..];
      Base64RoundTrip(hash(Utf8(a)));
      Base64RoundTrip(hash(Utf8(b)));
    } else {
      UpstreamOfClient(hash, a);
      UpstreamOfClient(hash, b);
    }
  }
}
