/** The Responses event stream as a state machine: what each upstream event does to it (proxy_responses.py). */
module ResponseSpec {
  import opened TextCodecs
  import opened ReasoningIds

  // ---- Upstream parts and events -----------------------------------------------------------------

  /** A block's thinking_signature: absent, empty, of another protocol, or a native reasoning item. */
  datatype Signature = Missing | Empty | Foreign | ReasoningItem(id: Option<string>, content: Option<string>)

  /** Parsed call arguments: their JSON text, and the member `input` when that is a string. */
  datatype Arguments = Arguments(json: string, input: Option<string>)

  datatype Part =
    | Text(text: string)
    | Thinking(text: string, redacted: bool, signature: Signature)
    | Call(id: string, name: string, arguments: Arguments)

  datatype Snapshot = Snapshot(content: seq<Part>, otherApi: bool)

  datatype Stop = Completed | Incomplete | Failed

  datatype Phase = Opened | Grew | Ended

  /** `part` holds the fields a block event carries, with defaults where it has none. */
  datatype Event =
    | Notice(partial: Option<Snapshot>)   // start, usage, status
    | Block(phase: Phase, index: int, part: Part, delta: string, partial: Option<Snapshot>)
    | Finished(message: Option<Snapshot>, stop: Stop)
    | Errored(message: Option<Snapshot>)

  // ---- Client items and chunks -------------------------------------------------------------------

  datatype Kind = Message | Reasoning | FunctionCall | CustomCall | SearchCall

  /** `text` is the text, summary, arguments or input; `block` says that a content block exists. */
  datatype OutItem = OutItem(kind: Kind, id: string, text: string, block: bool, encrypted: Option<string>)

  datatype Body =
    | Created
    | InProgress
    | ItemAdded(output: nat, item: OutItem)
    | PartAdded(output: nat, itemId: string)
    | Delta(output: nat, itemId: string, text: string)
    | TextDone(output: nat, itemId: string, text: string)
    | PartDone(output: nat, itemId: string, text: string)
    | ItemDone(output: nat, item: OutItem)
    | Terminal(status: Stop, items: seq<OutItem>)

  datatype Chunk = Chunk(number: nat, body: Body)

  /** The facade's identity codec: the wire form of an origin, and the client form of an upstream id. */
  datatype Codec = Codec(wire: (Origin, string) -> Outcome<WireItem>, clientId: string -> string)

  /** The codec of module ReasoningIds. */
  function XdogCodec(hash: Hash): Codec {
    Codec((origin, generated) => Emit(hash, origin, generated), original => ClientId(hash, original))
  }

  /** All the stream relies on: content travels only with a named origin, and under the client form of its id. */
  ghost predicate Lawful(codec: Codec) {
    forall origin: Origin, generated: string {:trigger codec.wire(origin, generated)} ::
      var w := codec.wire(origin, generated);
      && (w.Accepted? && w.value.encrypted.Some? ==>
            origin.Native? && origin.id.Some? && origin.id.value != "" && origin.content.Some?)
      && (origin.Native? && origin.id.Some? ==>
            w == codec.wire(origin, "") && (w.Accepted? ==> w.value.id == codec.clientId(origin.id.value)))
  }

  lemma XdogCodecLawful(hash: Hash)
    ensures Lawful(XdogCodec(hash))
  {
  }

  /** What a response is created with: the codec, the kinds of bound tools, and the source of generated ids. */
  datatype Env = Env(codec: Codec, tools: map<string, Kind>, generate: nat -> string)

  datatype Stream = Stream(
    items: map<int, OutItem>,
    indices: map<int, nat>,
    closed: set<int>,
    sequence: nat,
    ids: map<int, string>,
    parts: map<int, Part>,
    output: seq<int>,
    drawn: nat)

  const START := Stream(map[], map[], {}, 0, map[], map[], [], 0)

  /** The chunks a call hands out, or an exception: then they are lost, but the state stays as it was left. */
  datatype Step = Did(st: Stream, chunks: seq<Chunk>) | Raised(st: Stream)

  // ---- Output items --------------------------------------------------------------------------------

  function OriginOf(s: Signature): Origin {
    if s.ReasoningItem? then Native(s.id, s.content) else NoOrigin
  }

  /** What follows the first bar of a tool call id. */
  function AfterBar(id: string): string {
    if id == "" then "" else if id[0] == '|' then id[1..] else AfterBar(id[1..])
  }

  /** `_output_item` */
  function OutputItem(codec: Codec, tools: map<string, Kind>, part: Part, partial: bool, generated: string): Outcome<OutItem> {
    match part
    case Text(text) => Accepted(OutItem(Message, generated, text, true, None))
    case Call(id, name, arguments) =>
      var kind := if name in tools then tools[name] else FunctionCall;
      if kind == CustomCall then
        if partial then Accepted(OutItem(CustomCall, generated, "", true, None))
        else if arguments.input.Some? then Accepted(OutItem(CustomCall, generated, arguments.input.value, true, None))
        else Invalid
      else if kind == SearchCall then Accepted(OutItem(SearchCall, generated, arguments.json, true, None))
      else Accepted(OutItem(FunctionCall, if AfterBar(id) != "" then AfterBar(id) else generated, arguments.json, true, None))
    case Thinking(text, redacted, signature) =>
      match codec.wire(OriginOf(signature), generated)
      case Invalid => Invalid
      case Accepted(wire) =>
        var shown := if redacted then "" else text;
        Accepted(OutItem(Reasoning, wire.id, shown, shown != "", wire.encrypted))
  }

  // ---- _ResponseStream -------------------------------------------------------------------------------

  /** `event`: one numbered chunk. */
  function Say(st: Stream, body: Body): Step {
    Did(st.(sequence := st.sequence + 1), [Chunk(st.sequence, body)])
  }

  predicate Streams(kind: Kind) {
    kind == Message || kind == Reasoning || kind == FunctionCall
  }

  predicate HasBlocks(kind: Kind) {
    kind == Message || kind == Reasoning
  }

  /** The item as it is announced: nothing in it yet. */
  function Bare(item: OutItem): OutItem {
    item.(text := "", block := !HasBlocks(item.kind), encrypted := None)
  }

  /** `add` */
  function Add(env: Env, st: Stream, index: int, part: Part): Step {
    if index in st.items then Did(st, []) else
      match OutputItem(env.codec, env.tools, part, true, env.generate(st.drawn))
      case Invalid => Raised(st)
      case Accepted(made) =>
        var item := Bare(if part.Thinking? && index in st.ids then made.(id := env.codec.clientId(st.ids[index])) else made);
        var n := |st.output|;
        var st1 := st.(
          items := st.items[index := item.(block := true)],
          indices := st.indices[index := n],
          output := st.output + [index],
          drawn := st.drawn + 1);
        var first := [Chunk(st.sequence, ItemAdded(n, item))];
        if HasBlocks(item.kind) then
          Did(st1.(sequence := st.sequence + 2), first + [Chunk(st.sequence + 1, PartAdded(n, item.id))])
        else
          Did(st1.(sequence := st.sequence + 1), first)
  }

  /** `delta`; a reasoning item that was closed without a summary has no block to extend. */
  function Grow(st: Stream, index: int, delta: string): Step
    requires index in st.items && index in st.indices
  {
    var item := st.items[index];
    if !Streams(item.kind) then Did(st, [])
    else if !item.block then Raised(st)
    else
      Say(st.(items := st.items[index := item.(text := item.text + delta)]), Delta(st.indices[index], item.id, delta))
  }

  /** The text the final part adds to what was streamed, if it extends it. */
  function Extension(streamed: string, text: string): string {
    if streamed <= text then text[|streamed|..] else ""
  }

  /** `item.update(final)`: an encrypted_content the final item lacks stays. */
  function Updated(item: OutItem, final: OutItem): OutItem {
    final.(encrypted := if final.encrypted.Some? then final.encrypted else item.encrypted)
  }

  /** The part of `finish` after the item is known to be open and of the right kind. */
  function Close(st: Stream, index: int, final: OutItem): Step
    requires index in st.items && index in st.indices
  {
    var n := st.indices[index];
    var item := Updated(st.items[index], final);
    var st1 := st.(items := st.items[index := item], closed := st.closed + {index});
    var q := st.sequence;
    if HasBlocks(item.kind) then
      Did(st1.(sequence := q + 3),
          [Chunk(q, TextDone(n, item.id, item.text)), Chunk(q + 1, PartDone(n, item.id, item.text)), Chunk(q + 2, ItemDone(n, item))])
    else
      Did(st1.(sequence := q + 2), [Chunk(q, TextDone(n, item.id, item.text)), Chunk(q + 1, ItemDone(n, item))])
  }

  /** The item's text is brought up to the final text by one more delta, if it can be. */
  function CatchUp(st: Stream, index: int, text: string): Step
    requires index in st.items && index in st.indices
  {
    var item := st.items[index];
    var rest := Extension(item.text, text);
    if rest == "" then Did(st, [])
    else if item.kind == CustomCall then Say(st, Delta(st.indices[index], item.id, rest))
    else Grow(st, index, rest)
  }

  /** What `finish` does with the final item once the item is in the table. */
  function Complete(env: Env, st: Stream, index: int, thinking: bool, final: OutItem): Step
    requires index in st.items && index in st.indices
  {
    var item := st.items[index];
    if thinking && index in st.ids && final.id != item.id then Raised(st)
    else
      var final := final.(id := item.id);
      if item.kind == SearchCall then
        CloseSearch(st, index, final)
      else if final.kind != item.kind then Raised(st) // the final item lacks the field that was streamed
      else
        match CatchUp(st, index, final.text)
        case Raised(st1) => Raised(st1)
        case Did(st1, deltas) =>
          match Close(st1, index, final)
          case Raised(st2) => Raised(st2)
          case Did(st2, dones) => Did(st2, deltas + dones)
  }

  /** A native search call is complete with its item; whatever the final part is, it replaces the item. */
  function CloseSearch(st: Stream, index: int, final: OutItem): Step
    requires index in st.items && index in st.indices
  {
    var item := Updated(st.items[index], final);
    Say(st.(items := st.items[index := item], closed := st.closed + {index}), ItemDone(st.indices[index], item))
  }

  /** A finalized reasoning block is completed with the signature its identity came with. */
  function Resolved(st: Stream, index: int, part: Part): Part {
    if part.Thinking? && index in st.ids && index in st.parts && st.parts[index].Thinking?
    then part.(signature := st.parts[index].signature) else part
  }

  /** A block that is already closed can still receive its encrypted content, under the same id. */
  function Reopen(st: Stream, index: int, thinking: bool, final: OutItem): Step
    requires index in st.items
  {
    if thinking && final.encrypted.Some? then
      if final.id != st.items[index].id then Raised(st)
      else Did(st.(items := st.items[index := st.items[index].(encrypted := final.encrypted)]), [])
    else Did(st, [])
  }

  /** An open block: announce it if need be, then complete it. What `add` emitted is lost if that raises. */
  function AddAndComplete(env: Env, st: Stream, index: int, part: Part, final: OutItem): Step
    requires index in st.items ==> index in st.indices
  {
    match Add(env, st, index, part)
    case Raised(st1) => Raised(st1)
    case Did(st1, added) =>
      match Complete(env, st1, index, part.Thinking?, final)
      case Raised(st2) => Raised(st2)
      case Did(st2, rest) => Did(st2, added + rest)
  }

  function FinishWith(env: Env, st: Stream, index: int, part: Part, final: OutItem): Step
    requires index in st.closed ==> index in st.items
    requires index in st.items ==> index in st.indices
  {
    if index in st.closed then Reopen(st, index, part.Thinking?, final)
    else AddAndComplete(env, st, index, part, final)
  }

  /** `finish` */
  function Finish(env: Env, st: Stream, index: int, given: Part): Step
    requires index in st.closed ==> index in st.items
    requires index in st.items ==> index in st.indices
  {
    var part := Resolved(st, index, given);
    match OutputItem(env.codec, env.tools, part, false, env.generate(st.drawn))
    case Invalid => Raised(st)
    case Accepted(final) => FinishWith(env, st.(drawn := st.drawn + 1), index, part, final)
  }

  /** `terminal`: the final message is formatted first, and that can fail. */
  function Conclude(env: Env, st: Stream, content: seq<Part>, status: Stop): Step
    requires forall k | 0 <= k < |st.output| :: st.output[k] in st.items
  {
    if exists p | p in content :: OutputItem(env.codec, map[], p, false, "").Invalid? then Raised(st)
    else Say(st, Terminal(status, seq(|st.output|, k requires 0 <= k < |st.output| => st.items[st.output[k]])))
  }

  // ---- Late identities ---------------------------------------------------------------------------------

  datatype Observed = Seen(st: Stream) | Conflict

  predicate Identified(part: Part) {
    part.Thinking? && part.signature.ReasoningItem? && part.signature.id.Some? && part.signature.id.value != ""
  }

  /** `remember` in `observe_reasoning` */
  function Remember(env: Env, st: Stream, index: int, part: Part, finalized: bool): Observed {
    if finalized && Identified(part) then
      var id := part.signature.id.value;
      if (index in st.ids && st.ids[index] != id)
         || (index in st.items && st.items[index].id != env.codec.clientId(id))
      then Conflict
      else Seen(st.(ids := st.ids[index := id], parts := st.parts[index := part]))
    else if index !in st.ids then Seen(st.(parts := st.parts[index := part]))
    else Seen(st)
  }

  function MessageOf(e: Event): Option<Snapshot> {
    match e
    case Notice(partial) => partial
    case Block(_, _, _, _, partial) => partial
    case Finished(message, _) => message
    case Errored(message) => message
  }

  predicate ThinkingDone(e: Event) {
    e.Block? && e.phase == Ended && e.part.Thinking?
  }

  /** The event makes the thinking part at `index` of its snapshot final. */
  predicate Finalizes(e: Event, index: int) {
    e.Finished? || e.Errored? || (ThinkingDone(e) && index == e.index)
  }

  function RememberAll(env: Env, st: Stream, e: Event, content: seq<Part>, from: nat): Observed
    requires from <= |content|
    decreases |content| - from
  {
    if from == |content| then Seen(st)
    else if content[from].Thinking? then
      match Remember(env, st, from, content[from], Finalizes(e, from))
      case Conflict => Conflict
      case Seen(st1) => RememberAll(env, st1, e, content, from + 1)
    else RememberAll(env, st, e, content, from + 1)
  }

  /** `observe_reasoning` */
  function Observe(env: Env, st: Stream, e: Event): Observed {
    var message := MessageOf(e);
    match (if message.Some? then RememberAll(env, st, e, message.value.content, 0) else Seen(st))
    case Conflict => Conflict
    case Seen(st1) =>
      if ThinkingDone(e) && (e.part.signature != Missing || message.None?)
      then Remember(env, st1, e.index, e.part, true) else Seen(st1)
  }

  // ---- The identity buffer ---------------------------------------------------------------------------

  datatype Buffer = Buffer(pending: seq<Event>, unresolved: set<int>)

  /** A thinking block that ended under another protocol has no Responses identity. */
  predicate EndedElsewhere(st: Stream, e: Event) {
    && ThinkingDone(e)
    && (|| (e.index in st.parts && st.parts[e.index].Thinking? && st.parts[e.index].signature == Foreign)
        || (e.partial.Some? && e.partial.value.otherApi))
  }

  function Unresolved(st: Stream, b: Buffer, e: Event): set<int> {
    var waiting := if e.Block? && e.part.Thinking? && e.index !in st.ids
                   then if EndedElsewhere(st, e) then b.unresolved - {e.index} else b.unresolved + {e.index}
                   else b.unresolved;
    if e.Finished? || e.Errored? then {} else waiting - st.ids.Keys
  }

  /** Buffered deltas drop their snapshot. */
  function Strip(e: Event): Event {
    if e.Block? && e.phase == Grew then e.(partial := None) else e
  }

  /** `_reasoning_identity_events` for one event: what is released now, and what is kept. */
  function Hold(st: Stream, b: Buffer, e: Event): (seq<Event>, Buffer) {
    var unresolved := Unresolved(st, b, e);
    if b.pending == [] && unresolved == {} then ([e], Buffer([], {}))
    else
      var pending := b.pending + [Strip(e)];
      if unresolved == {} then (pending, Buffer([], {})) else ([], Buffer(pending, unresolved))
  }

  // ---- The main loop -----------------------------------------------------------------------------------

  /** After one event: carry on, done (the terminal chunk is out), or an exception after these chunks. */
  datatype Handled = Next(st: Stream, chunks: seq<Chunk>) | Stopped(chunks: seq<Chunk>) | Broken(st: Stream, chunks: seq<Chunk>)

  /** State that the calls below rely on: every table speaks about the same blocks. */
  predicate Coherent(st: Stream) {
    && st.indices.Keys == st.items.Keys
    && st.closed <= st.items.Keys
    && (forall k | 0 <= k < |st.output| :: st.output[k] in st.indices && st.indices[st.output[k]] == k)
    && (forall i | i in st.indices :: st.indices[i] < |st.output| && st.output[st.indices[i]] == i)
  }

  /** The tables of `b` are those of `a` with one more block, announced last. */
  predicate OneMore(a: Stream, b: Stream, index: int) {
    && index !in a.items
    && b.items.Keys == a.items.Keys + {index} && b.indices == a.indices[index := |a.output|] && b.output == a.output + [index]
    && b.closed == a.closed
  }

  lemma AddAppends(env: Env, st: Stream, index: int, part: Part)
    ensures var added := Add(env, st, index, part);
            && (added.st == st || OneMore(st, added.st, index))
            && (added.Did? && added.st == st ==> index in st.items)
  {
    hide OutputItem, Bare;
  }

  lemma OneMoreCoherent(a: Stream, b: Stream, index: int)
    requires Coherent(a) && OneMore(a, b, index)
    ensures Coherent(b)
  {
    assert b.indices.Keys == a.indices.Keys + {index};
    forall k | 0 <= k < |b.output| ensures b.output[k] in b.indices && b.indices[b.output[k]] == k {
      if k < |a.output| { assert b.output[k] == a.output[k] && a.output[k] in a.indices; }
    }
  }

  lemma AddCoherent(env: Env, st: Stream, index: int, part: Part)
    requires Coherent(st)
    ensures Coherent(Add(env, st, index, part).st)
    ensures Add(env, st, index, part).Did? ==> index in Add(env, st, index, part).st.items
    ensures st.items.Keys <= Add(env, st, index, part).st.items.Keys
  {
    hide Add, Coherent;
    AddAppends(env, st, index, part);
    if OneMore(st, Add(env, st, index, part).st, index) { OneMoreCoherent(st, Add(env, st, index, part).st, index); }
  }

  /** The same blocks are announced, in the same places; what differs is inside their items. */
  predicate SameTables(a: Stream, b: Stream) {
    && b.items.Keys == a.items.Keys && b.indices == a.indices && b.output == a.output
    && a.closed <= b.closed <= a.items.Keys + a.closed
    && b.ids == a.ids && b.parts == a.parts
  }

  lemma SameTablesCoherent(a: Stream, b: Stream)
    requires Coherent(a) && SameTables(a, b)
    ensures Coherent(b)
  {
  }

  lemma GrowTables(st: Stream, index: int, delta: string)
    requires index in st.items && index in st.indices
    ensures SameTables(st, Grow(st, index, delta).st)
  {
  }

  lemma CatchUpTables(st: Stream, index: int, text: string)
    requires index in st.items && index in st.indices
    ensures SameTables(st, CatchUp(st, index, text).st)
  {
    GrowTables(st, index, Extension(st.items[index].text, text));
  }

  lemma CloseTables(st: Stream, index: int, final: OutItem)
    requires index in st.items && index in st.indices
    ensures SameTables(st, Close(st, index, final).st) && SameTables(st, CloseSearch(st, index, final).st)
  {
  }

  lemma CompleteTables(env: Env, st: Stream, index: int, thinking: bool, final: OutItem)
    requires index in st.items && index in st.indices
    ensures SameTables(st, Complete(env, st, index, thinking, final).st)
  {
    var named := final.(id := st.items[index].id);
    CloseTables(st, index, named);
    CatchUpTables(st, index, named.text);
    var caught := CatchUp(st, index, named.text);
    if caught.Did? { CloseTables(caught.st, index, named); }
  }

  lemma CompleteCoherent(env: Env, st: Stream, index: int, thinking: bool, final: OutItem)
    requires Coherent(st) && index in st.items
    ensures Coherent(Complete(env, st, index, thinking, final).st)
  {
    CompleteTables(env, st, index, thinking, final);
    SameTablesCoherent(st, Complete(env, st, index, thinking, final).st);
  }

  lemma AddAndCompleteCoherent(env: Env, st: Stream, index: int, part: Part, final: OutItem)
    requires Coherent(st)
    ensures Coherent(AddAndComplete(env, st, index, part, final).st)
  {
    AddCoherent(env, st, index, part);
    var added := Add(env, st, index, part);
    if added.Did? { CompleteCoherent(env, added.st, index, part.Thinking?, final); }
  }

  lemma ReopenCoherent(st: Stream, index: int, thinking: bool, final: OutItem)
    requires Coherent(st) && index in st.items
    ensures Coherent(Reopen(st, index, thinking, final).st)
  {
    SameTablesCoherent(st, Reopen(st, index, thinking, final).st);
  }

  lemma FinishWithCoherent(env: Env, st: Stream, index: int, part: Part, final: OutItem)
    requires Coherent(st)
    ensures Coherent(FinishWith(env, st, index, part, final).st)
  {
    hide Add, Complete, Reopen, AddAndComplete, Coherent;
    ClosedKnown(st);
    if index in st.closed {
      ReopenCoherent(st, index, part.Thinking?, final);
    } else {
      AddAndCompleteCoherent(env, st, index, part, final);
    }
  }

  lemma ClosedKnown(st: Stream)
    requires Coherent(st)
    ensures st.closed <= st.items.Keys == st.indices.Keys
    ensures Coherent(st.(drawn := st.drawn + 1))
  {
  }

  lemma FinishCoherent(env: Env, st: Stream, index: int, given: Part)
    requires Coherent(st)
    ensures st.closed <= st.items.Keys == st.indices.Keys
    ensures Coherent(Finish(env, st, index, given).st)
  {
    hide Coherent, FinishWith, OutputItem, Resolved;
    ClosedKnown(st);
    var part := Resolved(st, index, given);
    var made := OutputItem(env.codec, env.tools, part, false, env.generate(st.drawn));
    if made.Accepted? {
      FinishWithCoherent(env, st.(drawn := st.drawn + 1), index, part, made.value);
    }
  }

  /** The part a block-done event is finished with: the snapshot's part if it is of the same type. */
  function FinalPart(e: Event): Part
    requires e.Block?
  {
    if e.partial.Some? && 0 <= e.index < |e.partial.value.content| then
      var part := e.partial.value.content[e.index];
      if (part.Text? && e.part.Text?) || (part.Thinking? && e.part.Thinking?) || (part.Call? && e.part.Call?)
      then part else e.part
    else e.part
  }

  function FinishAll(env: Env, st: Stream, content: seq<Part>, from: nat, stop: Stop): Handled
    requires Coherent(st) && from <= |content|
    decreases |content| - from
  {
    if from == |content| then
      match Conclude(env, st, content, stop)
      case Raised(st1) => Broken(st1, [])
      case Did(_, chunks) => Stopped(chunks)
    else
      FinishCoherent(env, st, from, content[from]);
      match Finish(env, st, from, content[from])
      case Raised(st1) => Broken(st1, [])
      case Did(st1, chunks) => Before(chunks, FinishAll(env, st1, content, from + 1, stop))
  }

  function Before(chunks: seq<Chunk>, h: Handled): Handled {
    h.(chunks := chunks + h.chunks)
  }

  function Handle(env: Env, st: Stream, e: Event): Handled
    requires Coherent(st)
  {
    match e
    case Notice(_) => Next(st, [])
    case Finished(message, stop) =>
      var content := if message.Some? then message.value.content else [];
      FinishAll(env, st, content, 0, stop)
    case Errored(message) =>
      var content := if message.Some? then message.value.content else [];
      (match Conclude(env, st, content, Failed)
       case Raised(st1) => Broken(st1, [])
       case Did(_, chunks) => Stopped(chunks))
    case Block(phase, index, part, delta, _) =>
      if phase == Ended then
        match Finish(env, st, index, FinalPart(e))
        case Raised(st1) => Broken(st1, [])
        case Did(st1, chunks) => Next(st1, chunks)
      else
        AddCoherent(env, st, index, part);
        match Add(env, st, index, part)
        case Raised(st1) => Broken(st1, [])
        case Did(st1, added) =>
          if phase == Opened then Next(st1, added)
          else
            match Grow(st1, index, delta)
            case Raised(st2) => Broken(st2, added)
            case Did(st2, chunks) => Next(st2, added + chunks)
  }

  lemma HandleCoherent(env: Env, st: Stream, e: Event)
    requires Coherent(st)
    ensures Handle(env, st, e).Next? ==> Coherent(Handle(env, st, e).st)
    ensures Handle(env, st, e).Broken? ==> Coherent(Handle(env, st, e).st)
  {
    match e
    case Finished(message, stop) =>
      FinishAllCoherent(env, st, if message.Some? then message.value.content else [], 0, stop);
    case Block(phase, index, part, delta, _) =>
      hide Finish, Add, Grow, FinalPart;
      if phase == Ended {
        FinishCoherent(env, st, index, FinalPart(e));
      } else {
        AddCoherent(env, st, index, part);
        var added := Add(env, st, index, part);
        if added.Did? {
          GrowTables(added.st, index, delta);
          SameTablesCoherent(added.st, Grow(added.st, index, delta).st);
        }
      }
    case _ =>
  }

  lemma {:induction false} FinishAllCoherent(env: Env, st: Stream, content: seq<Part>, from: nat, stop: Stop)
    requires Coherent(st) && from <= |content|
    ensures var h := FinishAll(env, st, content, from, stop); !h.Next? && (h.Broken? ==> Coherent(h.st))
    decreases |content| - from
  {
    if from < |content| {
      FinishCoherent(env, st, from, content[from]);
      var f := Finish(env, st, from, content[from]);
      if f.Did? { FinishAllCoherent(env, f.st, content, from + 1, stop); }
    }
  }

  /** The exception handler: a failed terminal chunk for whatever was announced so far. */
  function Fail(env: Env, st: Stream): seq<Chunk>
    requires Coherent(st)
  {
    Conclude(env, st, [], Failed).chunks
  }

  function HandleAll(env: Env, st: Stream, events: seq<Event>): Handled
    requires Coherent(st)
    decreases |events|
  {
    if events == [] then Next(st, []) else
      HandleCoherent(env, st, events[0]);
      match Handle(env, st, events[0])
      case Next(st1, chunks) => Before(chunks, HandleAll(env, st1, events[1..]))
      case h => h
  }

  lemma {:induction false} HandleAllCoherent(env: Env, st: Stream, events: seq<Event>)
    requires Coherent(st)
    ensures var h := HandleAll(env, st, events); !h.Stopped? ==> Coherent(h.st)
    decreases |events|
  {
    if events != [] {
      HandleCoherent(env, st, events[0]);
      var h := Handle(env, st, events[0]);
      if h.Next? { HandleAllCoherent(env, h.st, events[1..]); }
    }
  }

  lemma RememberCoherent(env: Env, st: Stream, e: Event, content: seq<Part>, from: nat)
    requires Coherent(st) && from <= |content|
    ensures var o := RememberAll(env, st, e, content, from); o.Seen? ==> Coherent(o.st)
    decreases |content| - from
  {
  }

  lemma ObserveCoherent(env: Env, st: Stream, e: Event)
    requires Coherent(st)
    ensures Observe(env, st, e).Seen? ==> Coherent(Observe(env, st, e).st)
  {
    if MessageOf(e).Some? { RememberCoherent(env, st, e, MessageOf(e).value.content, 0); }
  }

  /**
    * The rest of `stream_to_sse`: the upstream delivers `events` and then ends, or raises.
    * Its result is what the client still receives.
    */
  function Drive(env: Env, st: Stream, b: Buffer, events: seq<Event>, raises: bool): seq<Chunk>
    requires Coherent(st)
    decreases |events|
  {
    if events == [] then
      if raises then Fail(env, st)
      else
        HandleAllCoherent(env, st, b.pending);
        match HandleAll(env, st, b.pending)
        case Stopped(chunks) => chunks
        case Next(st1, chunks) => chunks + Fail(env, st1)
        case Broken(st1, chunks) => chunks + Fail(env, st1)
    else
      ObserveCoherent(env, st, events[0]);
      match Observe(env, st, events[0])
      case Conflict => Fail(env, st)
      case Seen(st1) =>
        var (released, b1) := Hold(st1, b, events[0]);
        HandleAllCoherent(env, st1, released);
        match HandleAll(env, st1, released)
        case Stopped(chunks) => chunks
        case Broken(st2, chunks) => chunks + Fail(env, st2)
        case Next(st2, chunks) => chunks + Drive(env, st2, b1, events[1..], raises)
  }

  /** `stream_to_sse` */
  function Sse(env: Env, events: seq<Event>, raises: bool): seq<Chunk> {
    [Chunk(0, Created), Chunk(1, InProgress)] + Drive(env, START.(sequence := 2), Buffer([], {}), events, raises)
  }
}
