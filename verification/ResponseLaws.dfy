/** What every client of the Responses stream can rely on, for every upstream event sequence. */
module ResponseLaws {
  import opened TextCodecs
  import opened ReasoningIds
  import opened ResponseSpec

  // ---- Reading a log ---------------------------------------------------------------------------------

  /** How many items were announced. */
  function Announced(log: seq<Chunk>): nat {
    if log == [] then 0
    else Announced(log[..|log| - 1]) + if log[|log| - 1].body.ItemAdded? then 1 else 0
  }

  /** How often item `o` was reported done. */
  function Dones(log: seq<Chunk>, o: nat): nat {
    if log == [] then 0
    else Dones(log[..|log| - 1], o) + var b := log[|log| - 1].body; if b.ItemDone? && b.output == o then 1 else 0
  }

  /** The deltas of item `o`, concatenated. */
  function Streamed(log: seq<Chunk>, o: nat): string {
    if log == [] then ""
    else Streamed(log[..|log| - 1], o) + var b := log[|log| - 1].body; if b.Delta? && b.output == o then b.text else ""
  }

  /** The kind item `o` was announced with. */
  function KindOf(log: seq<Chunk>, o: nat): Option<Kind> {
    if log == [] then None
    else
      var b := log[|log| - 1].body;
      if b.ItemAdded? && b.output == o then Some(b.item.kind) else KindOf(log[..|log| - 1], o)
  }

  lemma Appended(log: seq<Chunk>, c: Chunk)
    ensures Announced(log + [c]) == Announced(log) + if c.body.ItemAdded? then 1 else 0
    ensures forall o {:trigger Dones(log + [c], o)} ::
              Dones(log + [c], o) == Dones(log, o) + if c.body.ItemDone? && c.body.output == o then 1 else 0
    ensures forall o {:trigger Streamed(log + [c], o)} ::
              Streamed(log + [c], o) == Streamed(log, o) + if c.body.Delta? && c.body.output == o then c.body.text else ""
    ensures forall o {:trigger KindOf(log + [c], o)} ::
              KindOf(log + [c], o) == if c.body.ItemAdded? && c.body.output == o then Some(c.body.item.kind) else KindOf(log, o)
  {
    assert (log + [c])[..|log|] == log;
  }

  // ---- The law, chunk by chunk -------------------------------------------------------------------------

  /** The parts the upstream declared final, with their block index. */
  type Claims = iset<(int, Part)>

  /** Encrypted content an item carries came with a final part of its own block, under the client form of that part's id. */
  ghost predicate Backed(env: Env, claims: Claims, index: int, item: OutItem) {
    item.encrypted.Some? ==> exists part ::
      && (index, part) in claims && Identified(part)
      && item.id == env.codec.clientId(part.signature.id.value)
      && env.codec.wire(OriginOf(part.signature), "") == Accepted(WireItem(item.id, item.encrypted))
  }

  /** The blocks behind the output items, and the ids these are announced with. */
  datatype Layout = Layout(blocks: seq<int>, ids: seq<string>)

  ghost predicate Lays(l: Layout, o: nat, id: string) {
    o < |l.blocks| == |l.ids| && l.ids[o] == id
  }

  /** The text of a finished item extends nothing but what was streamed. */
  predicate TextAgrees(kind: Option<Kind>, streamed: string, item: OutItem) {
    kind.Some? && (kind.value == SearchCall || (kind.value == item.kind && (streamed <= item.text ==> streamed == item.text)))
  }

  ghost predicate BodyOk(env: Env, claims: Claims, l: Layout, before: seq<Chunk>, b: Body) {
    match b
    case Created => true
    case InProgress => true
    case ItemAdded(o, item) => o == Announced(before) && Lays(l, o, item.id) && item.encrypted.None?
    case PartAdded(o, id) => o < Announced(before) && Lays(l, o, id)
    case Delta(o, id, _) => o < Announced(before) && Lays(l, o, id)
    case TextDone(o, id, _) => o < Announced(before) && Lays(l, o, id)
    case PartDone(o, id, _) => o < Announced(before) && Lays(l, o, id)
    case ItemDone(o, item) =>
      && o < Announced(before) && Lays(l, o, item.id)
      && Dones(before, o) == 0
      && Backed(env, claims, l.blocks[o], item)
      && TextAgrees(KindOf(before, o), Streamed(before, o), item)
    case Terminal(_, items) =>
      && |items| == Announced(before) == |l.blocks| == |l.ids|
      && forall o | 0 <= o < |items| :: items[o].id == l.ids[o] && Backed(env, claims, l.blocks[o], items[o])
  }

  ghost predicate Laws(env: Env, claims: Claims, l: Layout, log: seq<Chunk>) {
    log == [] ||
    (var n := |log| - 1;
     Laws(env, claims, l, log[..n]) && log[n].number == n && BodyOk(env, claims, l, log[..n], log[n].body))
  }

  predicate NoTerminal(log: seq<Chunk>) {
    forall k | 0 <= k < |log| :: !log[k].body.Terminal?
  }

  /** More output items announced later do not disturb what was said so far. */
  lemma {:induction false} LawsExtend(env: Env, claims: Claims, l: Layout, m: Layout, log: seq<Chunk>)
    requires Laws(env, claims, l, log) && NoTerminal(log)
    requires |l.blocks| == |l.ids| && |m.blocks| == |m.ids|
    requires l.blocks <= m.blocks && l.ids <= m.ids
    ensures Laws(env, claims, m, log)
  {
    if log != [] {
      LawsExtend(env, claims, l, m, log[..|log| - 1]);
    }
  }

  // ---- State and log together ----------------------------------------------------------------------------

  function LayoutOf(st: Stream): Layout
    requires Coherent(st)
  {
    Layout(st.output, seq(|st.output|, k requires 0 <= k < |st.output| => st.items[st.output[k]].id))
  }

  ghost predicate OpenItem(st: Stream, log: seq<Chunk>, i: int)
    requires i in st.items && i in st.indices
  {
    var item, o := st.items[i], st.indices[i];
    item.block && item.encrypted.None? && KindOf(log, o) == Some(item.kind) && Streamed(log, o) == item.text
  }

  ghost predicate ItemOk(env: Env, claims: Claims, st: Stream, log: seq<Chunk>, i: int)
    requires i in st.items && i in st.indices
  {
    && Dones(log, st.indices[i]) == (if i in st.closed then 1 else 0)
    && Backed(env, claims, i, st.items[i])
    && (i !in st.closed ==> OpenItem(st, log, i))
  }

  ghost predicate KnownIds(claims: Claims, st: Stream) {
    forall i | i in st.ids ::
      && i in st.parts && Identified(st.parts[i]) && st.parts[i].signature.id.value == st.ids[i]
      && (i, st.parts[i]) in claims
  }

  ghost predicate Inv(env: Env, claims: Claims, st: Stream, log: seq<Chunk>) {
    && Lawful(env.codec)
    && Coherent(st)
    && |log| == st.sequence
    && Announced(log) == |st.output|
    && Laws(env, claims, LayoutOf(st), log) && NoTerminal(log)
    && KnownIds(claims, st)
    && forall i | i in st.items :: ItemOk(env, claims, st, log, i)
  }

  /** Nothing is known of items not announced yet. */
  lemma {:induction false} Unannounced(env: Env, claims: Claims, l: Layout, log: seq<Chunk>, o: nat)
    requires Laws(env, claims, l, log) && o >= Announced(log)
    ensures Dones(log, o) == 0 && Streamed(log, o) == "" && KindOf(log, o) == None
  {
    if log != [] {
      Unannounced(env, claims, l, log[..|log| - 1], o);
    }
  }

  // ---- One more chunk ------------------------------------------------------------------------------------

  lemma LawsPush(env: Env, claims: Claims, l: Layout, log: seq<Chunk>, c: Chunk)
    requires Laws(env, claims, l, log) && NoTerminal(log)
    requires c.number == |log| && BodyOk(env, claims, l, log, c.body)
    ensures Laws(env, claims, l, log + [c])
    ensures !c.body.Terminal? ==> NoTerminal(log + [c])
  {
    assert (log + [c])[..|log|] == log;
  }

  /** Everything but the open text of block `x`, which is about to be closed. */
  ghost predicate Closing(env: Env, claims: Claims, st: Stream, log: seq<Chunk>, x: int) {
    && Lawful(env.codec)
    && Coherent(st)
    && |log| == st.sequence
    && Announced(log) == |st.output|
    && Laws(env, claims, LayoutOf(st), log) && NoTerminal(log)
    && KnownIds(claims, st)
    && x in st.items && x !in st.closed
    && (forall i | i in st.items && i != x :: ItemOk(env, claims, st, log, i))
    && st.items[x].encrypted.None? && Dones(log, st.indices[x]) == 0
    && KindOf(log, st.indices[x]) == Some(st.items[x].kind)
  }

  lemma OpenMeansClosing(env: Env, claims: Claims, st: Stream, log: seq<Chunk>, x: int)
    requires Inv(env, claims, st, log) && x in st.items && x !in st.closed
    ensures Closing(env, claims, st, log, x) && OpenItem(st, log, x)
  {
    assert ItemOk(env, claims, st, log, x);
  }

  lemma SameLayout(a: Stream, b: Stream)
    requires Coherent(a) && SameTables(a, b)
    requires forall i | i in a.items :: b.items[i].id == a.items[i].id
    ensures Coherent(b) && LayoutOf(b) == LayoutOf(a)
  {
    SameTablesCoherent(a, b);
    forall k | 0 <= k < |a.output| ensures LayoutOf(a).ids[k] == LayoutOf(b).ids[k] {
      IdAt(a, k);
      IdAt(b, k);
      var i := a.output[k];
      assert i in a.items && b.output[k] == i && b.items[i].id == a.items[i].id;
    }
  }

  lemma IdAt(st: Stream, k: nat)
    requires Coherent(st) && k < |st.output|
    ensures st.output[k] in st.items && LayoutOf(st).ids[k] == st.items[st.output[k]].id
  {
    assert st.output[k] in st.indices;
  }

  lemma GrowKeeps(env: Env, claims: Claims, st: Stream, log: seq<Chunk>, index: int, delta: string)
    requires Inv(env, claims, st, log) && index in st.items
    ensures var g := Grow(st, index, delta);
            if g.Raised? then g.st == st else Inv(env, claims, g.st, log + g.chunks)
  {
    var g := Grow(st, index, delta);
    assert ItemOk(env, claims, st, log, index);
    if g.Did? && g.chunks == [] {
      assert log + [] == log;
    } else if g.Did? {
      var c := g.chunks[0];
      assert g.chunks == [c];
      GrowTables(st, index, delta);
      SameLayout(st, g.st);
      Appended(log, c);
      LawsPush(env, claims, LayoutOf(st), log, c);
      forall i | i in g.st.items ensures ItemOk(env, claims, g.st, log + [c], i) {
        assert ItemOk(env, claims, st, log, i);
      }
    }
  }

  /** A delta for one block leaves what is known of the others alone. */
  lemma OtherKept(env: Env, claims: Claims, st: Stream, now: Stream, log: seq<Chunk>, c: Chunk, index: int, i: int)
    requires Coherent(st) && index in st.items && i in st.items && i != index && ItemOk(env, claims, st, log, i)
    requires now.items.Keys == st.items.Keys && now.indices == st.indices && now.closed == st.closed && now.items[i] == st.items[i]
    requires c.body.Delta? && c.body.output == st.indices[index]
    ensures ItemOk(env, claims, now, log + [c], i)
  {
    hide Backed;
    Appended(log, c);
    assert st.output[st.indices[i]] == i && st.output[st.indices[index]] == index;
  }

  lemma DeltaOk(env: Env, claims: Claims, st: Stream, log: seq<Chunk>, index: int, rest: string)
    requires Coherent(st) && index in st.items && Announced(log) == |st.output|
    ensures BodyOk(env, claims, LayoutOf(st), log, Delta(st.indices[index], st.items[index].id, rest))
  {
    assert st.output[st.indices[index]] == index;
    IdAt(st, st.indices[index]);
  }

  /** What catching up does to the state when there is something to catch up with. */
  lemma CatchUpShape(st: Stream, index: int, text: string)
    requires Coherent(st) && index in st.items && st.items[index].block && st.items[index].kind != SearchCall
    requires Extension(st.items[index].text, text) != ""
    ensures var g := CatchUp(st, index, text);
            var item, c := st.items[index], Chunk(st.sequence, Delta(st.indices[index], st.items[index].id, Extension(st.items[index].text, text)));
            && g.Did? && g.chunks == [c]
            && g.st.items == st.items[index := g.st.items[index]] && g.st.items.Keys == st.items.Keys
            && g.st.items[index].id == item.id && g.st.items[index].kind == item.kind && g.st.items[index].encrypted == item.encrypted
            && g.st.closed == st.closed && g.st.sequence == st.sequence + 1 && SameTables(st, g.st)
    ensures st.items[index].text <= text && st.items[index].text + Extension(st.items[index].text, text) == text
  {
    hide Coherent;
    ClosedKnown(st);
    CatchUpTables(st, index, text);
  }

  /** The final text does not extend what was streamed, or is what was streamed. */
  lemma NothingToCatchUp(st: Stream, index: int, text: string)
    requires Coherent(st) && index in st.items && Extension(st.items[index].text, text) == ""
    ensures index in st.indices && CatchUp(st, index, text) == Did(st, [])
    ensures st.items[index].text <= text ==> st.items[index].text == text
  {
    var streamed := st.items[index].text;
    assert streamed <= text ==> streamed + text[|streamed|..] == text;
  }

  lemma CaughtUp(env: Env, claims: Claims, st: Stream, log: seq<Chunk>, index: int, text: string)
    requires Closing(env, claims, st, log, index) && OpenItem(st, log, index)
    requires st.items[index].kind != SearchCall && Extension(st.items[index].text, text) != ""
    ensures var g := CatchUp(st, index, text);
            && g.Did? && Closing(env, claims, g.st, log + g.chunks, index)
            && g.st.items[index].id == st.items[index].id && g.st.items[index].kind == st.items[index].kind
            && Streamed(log + g.chunks, st.indices[index]) == text
  {
    hide Coherent, BodyOk, Dones, KindOf, Streamed, ItemOk, Announced, Lawful, Laws, NoTerminal, CatchUp, Extension, LayoutOf;
    ClosedKnown(st);
    CatchUpShape(st, index, text);
    var g := CatchUp(st, index, text);
    var c := g.chunks[0];
    SameLayout(st, g.st);
    Appended(log, c);
    DeltaOk(env, claims, st, log, index, c.body.text);
    LawsPush(env, claims, LayoutOf(st), log, c);
    forall i | i in g.st.items && i != index ensures ItemOk(env, claims, g.st, log + [c], i) {
      OtherKept(env, claims, st, g.st, log, c, index, i);
    }
  }

  lemma CatchUpKeeps(env: Env, claims: Claims, st: Stream, log: seq<Chunk>, index: int, text: string)
    requires Closing(env, claims, st, log, index) && OpenItem(st, log, index)
    requires st.items[index].kind != SearchCall
    ensures var g := CatchUp(st, index, text);
            && g.Did? && Closing(env, claims, g.st, log + g.chunks, index)
            && g.st.items[index].id == st.items[index].id && g.st.items[index].kind == st.items[index].kind
            && var streamed := Streamed(log + g.chunks, st.indices[index]); (streamed <= text ==> streamed == text)
  {
    hide Coherent, Dones, KindOf, Streamed, ItemOk, Announced, Lawful, Laws, NoTerminal, CatchUp, Extension;
    if Extension(st.items[index].text, text) == "" {
      NothingToCatchUp(st, index, text);
      assert log + [] == log;
    } else {
      CaughtUp(env, claims, st, log, index, text);
    }
  }

  /** A chunk that only reports on an announced item. */
  predicate Reports(c: Chunk, o: nat, id: string) {
    (c.body.TextDone? && c.body.output == o && c.body.itemId == id) || (c.body.PartDone? && c.body.output == o && c.body.itemId == id)
  }

  lemma ReportOk(env: Env, claims: Claims, st: Stream, log: seq<Chunk>, index: int, c: Chunk)
    requires Closing(env, claims, st, log, index)
    requires Reports(c, st.indices[index], st.items[index].id)
    ensures BodyOk(env, claims, LayoutOf(st), log, c.body)
  {
    hide ItemOk;
    IdAt(st, st.indices[index]);
  }

  /** A chunk that is not about `i`'s own progress leaves `i` alone. */
  lemma ItemOkNoted(env: Env, claims: Claims, st: Stream, st1: Stream, log: seq<Chunk>, c: Chunk, i: int)
    requires i in st.items && i in st.indices && ItemOk(env, claims, st, log, i)
    requires i in st1.items && st1.items[i] == st.items[i] && i in st1.indices && st1.indices[i] == st.indices[i]
    requires i in st1.closed <==> i in st.closed
    requires c.body.TextDone? || c.body.PartDone? || c.body.PartAdded?
    ensures ItemOk(env, claims, st1, log + [c], i)
  {
    Appended(log, c);
  }

  lemma ReportKeeps(env: Env, claims: Claims, st: Stream, log: seq<Chunk>, index: int, c: Chunk)
    requires Closing(env, claims, st, log, index)
    requires c.number == |log| && Reports(c, st.indices[index], st.items[index].id)
    ensures Closing(env, claims, st.(sequence := st.sequence + 1), log + [c], index)
    ensures Streamed(log + [c], st.indices[index]) == Streamed(log, st.indices[index])
  {
    hide Backed, Laws, KnownIds, LayoutOf, BodyOk, ItemOk;
    var st1 := st.(sequence := st.sequence + 1);
    ReportOk(env, claims, st, log, index, c);
    SameLayout(st, st1);
    Appended(log, c);
    LawsPush(env, claims, LayoutOf(st), log, c);
    forall i | i in st1.items && i != index ensures ItemOk(env, claims, st1, log + [c], i) {
      ItemOkNoted(env, claims, st, st1, log, c, i);
    }
    SameKnownIds(claims, st, st1);
  }

  lemma SameKnownIds(claims: Claims, a: Stream, b: Stream)
    requires KnownIds(claims, a) && b.ids == a.ids && b.parts == a.parts
    ensures KnownIds(claims, b)
  {
  }

  lemma DoneKeeps(env: Env, claims: Claims, st: Stream, log: seq<Chunk>, index: int, item: OutItem)
    requires Closing(env, claims, st, log, index)
    requires item.id == st.items[index].id && Backed(env, claims, index, item)
    requires TextAgrees(Some(st.items[index].kind), Streamed(log, st.indices[index]), item)
    ensures var st1 := st.(items := st.items[index := item], closed := st.closed + {index}, sequence := st.sequence + 1);
            Inv(env, claims, st1, log + [Chunk(st.sequence, ItemDone(st.indices[index], item))])
  {
    var st1 := st.(items := st.items[index := item], closed := st.closed + {index}, sequence := st.sequence + 1);
    var c := Chunk(st.sequence, ItemDone(st.indices[index], item));
    SameLayout(st, st1);
    Appended(log, c);
    LawsPush(env, claims, LayoutOf(st), log, c);
    forall i | i in st1.items ensures ItemOk(env, claims, st1, log + [c], i) {
      if i != index { assert ItemOk(env, claims, st, log, i); }
    }
  }

  lemma CloseKeeps(env: Env, claims: Claims, st: Stream, log: seq<Chunk>, index: int, final: OutItem)
    requires Closing(env, claims, st, log, index)
    requires final.id == st.items[index].id && Backed(env, claims, index, final)
    requires TextAgrees(Some(st.items[index].kind), Streamed(log, st.indices[index]), final)
    ensures var g := Close(st, index, final); g.Did? && Inv(env, claims, g.st, log + g.chunks)
    ensures var g := CloseSearch(st, index, final); g.Did? && Inv(env, claims, g.st, log + g.chunks)
  {
    hide Closing, Inv, TextAgrees, Backed;
    ClosingFacts(env, claims, st, log, index);
    var g, q, n := Close(st, index, final), st.sequence, st.indices[index];
    assert Updated(st.items[index], final) == final;
    DoneKeeps(env, claims, st, log, index, final);
    var c0 := Chunk(q, TextDone(n, final.id, final.text));
    var st1, log1 := st.(sequence := q + 1), log + [c0];
    ReportKeeps(env, claims, st, log, index, c0);
    if HasBlocks(final.kind) {
      var c1 := Chunk(q + 1, PartDone(n, final.id, final.text));
      var st2, log2 := st.(sequence := q + 2), log1 + [c1];
      ReportKeeps(env, claims, st1, log1, index, c1);
      DoneKeeps(env, claims, st2, log2, index, final);
      assert log + g.chunks == log2 + [g.chunks[2]];
    } else {
      DoneKeeps(env, claims, st1, log1, index, final);
      assert log + g.chunks == log1 + [g.chunks[1]];
    }
  }

  lemma ClosingFacts(env: Env, claims: Claims, st: Stream, log: seq<Chunk>, x: int)
    requires Closing(env, claims, st, log, x)
    ensures x in st.items && x in st.indices && st.items[x].encrypted.None? && |log| == st.sequence
  {
  }

  lemma CompleteKeeps(env: Env, claims: Claims, st: Stream, log: seq<Chunk>, index: int, thinking: bool, final: OutItem)
    requires Inv(env, claims, st, log) && index in st.items && index !in st.closed
    requires final.encrypted.Some? ==> thinking && index in st.ids && Backed(env, claims, index, final)
    ensures var g := Complete(env, st, index, thinking, final);
            if g.Raised? then g.st == st else Inv(env, claims, g.st, log + g.chunks)
    ensures Complete(env, st, index, thinking, final).Raised? ==>
              (thinking && index in st.ids && final.id != st.items[index].id) || final.kind != st.items[index].kind
  {
    hide Inv, Closing, OpenItem, Backed, CatchUp, Close, CloseSearch;
    OpenMeansClosing(env, claims, st, log, index);
    ClosingFacts(env, claims, st, log, index);
    var item := st.items[index];
    var named := final.(id := item.id);
    if !(thinking && index in st.ids && final.id != item.id) {
      Renamed(env, claims, index, item, final);
      if item.kind == SearchCall {
        CloseKeeps(env, claims, st, log, index, named);
      } else if final.kind == item.kind {
        CatchUpKeeps(env, claims, st, log, index, named.text);
        var deltas := CatchUp(st, index, named.text);
        CatchUpTables(st, index, named.text);
        CloseKeeps(env, claims, deltas.st, log + deltas.chunks, index, named);
        var dones := Close(deltas.st, index, named);
        assert log + deltas.chunks + dones.chunks == log + (deltas.chunks + dones.chunks);
      }
    }
  }

  lemma Renamed(env: Env, claims: Claims, index: int, item: OutItem, final: OutItem)
    requires final.encrypted.Some? ==> final.id == item.id && Backed(env, claims, index, final)
    ensures Backed(env, claims, index, final.(id := item.id))
  {
    assert final.encrypted.Some? ==> final.(id := item.id) == final;
  }

  // ---- Announcing --------------------------------------------------------------------------------------

  lemma LayoutGrows(a: Stream, b: Stream, index: int)
    requires Coherent(a) && Coherent(b) && index !in a.items
    requires b.items.Keys == a.items.Keys + {index} && b.output == a.output + [index]
    requires forall i | i in a.items :: b.items[i].id == a.items[i].id
    ensures LayoutOf(b) == Layout(LayoutOf(a).blocks + [index], LayoutOf(a).ids + [b.items[index].id])
  {
    var ids := LayoutOf(a).ids + [b.items[index].id];
    forall k | 0 <= k < |b.output| ensures LayoutOf(b).ids[k] == ids[k] {
      IdAt(b, k);
      if k < |a.output| {
        IdAt(a, k);
        var i := a.output[k];
        assert i in a.items && b.output[k] == i && b.items[i].id == a.items[i].id;
      }
    }
  }

  /** What announcing a new block does to the state, and the chunks for it. */
  lemma AddedShape(env: Env, st: Stream, index: int, part: Part)
    requires Add(env, st, index, part).Did? && index !in st.items
    ensures var g := Add(env, st, index, part);
            && index in g.st.items && g.st.items == st.items[index := g.st.items[index]]
            && g.st.indices == st.indices[index := |st.output|] && g.st.output == st.output + [index]
            && g.st.closed == st.closed && g.st.ids == st.ids && g.st.parts == st.parts
            && var item := g.st.items[index];
               && item.block && item.text == "" && item.encrypted.None?
               && var c := Chunk(st.sequence, ItemAdded(|st.output|, item.(block := !HasBlocks(item.kind))));
                  if HasBlocks(item.kind)
                  then g.st.sequence == st.sequence + 2 && g.chunks == [c] + [Chunk(st.sequence + 1, PartAdded(|st.output|, item.id))]
                  else g.st.sequence == st.sequence + 1 && g.chunks == [c]
  {
    hide OutputItem;
  }

  lemma AddSame(env: Env, st: Stream, index: int, part: Part)
    ensures var g := Add(env, st, index, part);
            && g.st.ids == st.ids && g.st.parts == st.parts && g.st.closed == st.closed
            && (g.Raised? ==> g.st == st)
            && (index in st.items ==> g == Did(st, []))
  {
    hide OutputItem;
  }

  lemma AddKeeps(env: Env, claims: Claims, st: Stream, log: seq<Chunk>, index: int, part: Part)
    requires Inv(env, claims, st, log)
    ensures var g := Add(env, st, index, part);
            if g.Raised? then g.st == st else Inv(env, claims, g.st, log + g.chunks) && index in g.st.items
    ensures var g := Add(env, st, index, part);
            g.st.ids == st.ids && g.st.parts == st.parts && g.st.closed == st.closed
    ensures Add(env, st, index, part).Did? && Add(env, st, index, part).chunks != [] ==> index !in st.items
  {
    hide Inv, Coherent, Laws, OutputItem, Add, Lawful, KnownIds;
    InvFacts(env, claims, st, log);
    AddSame(env, st, index, part);
    var g := Add(env, st, index, part);
    assert log + [] == log;
    if g.Did? && index !in st.items {
      AddedShape(env, st, index, part);
      var item := g.st.items[index];
      var c := Chunk(st.sequence, ItemAdded(|st.output|, item.(block := !HasBlocks(item.kind))));
      var st1 := g.st.(sequence := st.sequence + 1);
      AnnounceKeeps(env, claims, st, log, st1, c, index);
      if HasBlocks(item.kind) {
        var c2 := Chunk(st.sequence + 1, PartAdded(|st.output|, item.id));
        AddCoherent(env, st, index, part);
        PartAddedKeeps(env, claims, st1, log + [c], index, c2);
        assert log + g.chunks == log + [c] + [c2];
      }
    }
  }

  lemma AnnounceKeeps(env: Env, claims: Claims, st: Stream, log: seq<Chunk>, st1: Stream, c: Chunk, index: int)
    requires Inv(env, claims, st, log)
    requires index !in st.items && index !in st.indices
    requires index in st1.items && st1.items == st.items[index := st1.items[index]]
    requires st1.indices == st.indices[index := |st.output|]
    requires st1.output == st.output + [index] && st1.closed == st.closed
    requires st1.ids == st.ids && st1.parts == st.parts && st1.sequence == st.sequence + 1
    requires st1.items[index].block && st1.items[index].text == "" && st1.items[index].encrypted.None?
    requires c.number == st.sequence && c.body.ItemAdded? && c.body.output == |st.output|
    requires c.body.item.kind == st1.items[index].kind && c.body.item.id == st1.items[index].id && c.body.item.encrypted.None?
    ensures Inv(env, claims, st1, log + [c])
  {
    var n := |st.output|;
    assert Coherent(st1);
    LayoutGrows(st, st1, index);
    LawsExtend(env, claims, LayoutOf(st), LayoutOf(st1), log);
    Unannounced(env, claims, LayoutOf(st), log, n);
    LawsPush(env, claims, LayoutOf(st1), log, c);
    AnnouncedInv(env, claims, st, log, st1, c, index);
  }

  lemma AnnouncedInv(env: Env, claims: Claims, st: Stream, log: seq<Chunk>, st1: Stream, c: Chunk, index: int)
    requires Inv(env, claims, st, log) && Coherent(st1)
    requires index !in st.items && st1.items.Keys == st.items.Keys + {index} && st1.output == st.output + [index]
    requires forall i | i in st.items :: st1.items[i] == st.items[i] && st1.indices[i] == st.indices[i]
    requires st1.closed == st.closed && st1.ids == st.ids && st1.parts == st.parts && st1.sequence == st.sequence + 1
    requires st1.indices[index] == |st.output|
    requires c.body.ItemAdded? && c.body.output == |st.output| && c.body.item.kind == st1.items[index].kind
    requires Laws(env, claims, LayoutOf(st1), log + [c]) && NoTerminal(log + [c])
    requires st1.items[index].block && st1.items[index].text == "" && st1.items[index].encrypted.None?
    requires Dones(log, |st.output|) == 0 && Streamed(log, |st.output|) == ""
    ensures Inv(env, claims, st1, log + [c])
  {
    Appended(log, c);
    forall i | i in st1.items ensures ItemOk(env, claims, st1, log + [c], i) {
      if i != index { assert ItemOk(env, claims, st, log, i); }
    }
  }

  lemma PartAddedKeeps(env: Env, claims: Claims, st: Stream, log: seq<Chunk>, index: int, c: Chunk)
    requires Inv(env, claims, st, log) && index in st.items
    requires c.number == |log| && c.body == PartAdded(st.indices[index], st.items[index].id)
    ensures Inv(env, claims, st.(sequence := st.sequence + 1), log + [c])
  {
    var st1 := st.(sequence := st.sequence + 1);
    hide Backed;
    SameLayout(st, st1);
    Appended(log, c);
    LawsPush(env, claims, LayoutOf(st), log, c);
    forall i | i in st1.items ensures ItemOk(env, claims, st1, log + [c], i) {
      assert ItemOk(env, claims, st, log, i);
    }
  }

  // ---- finish ----------------------------------------------------------------------------------------------

  /** A part that names its upstream item was observed as final before. */
  predicate Remembered(st: Stream, index: int, part: Part) {
    Identified(part) ==> index in st.ids
  }

  /** The identity an output item is made with, when it can carry content. */
  lemma MadeItem(env: Env, claims: Claims, st: Stream, index: int, given: Part, partial: bool, generated: string)
    requires Lawful(env.codec) && KnownIds(claims, st) && Remembered(st, index, given)
    ensures var part := Resolved(st, index, given);
            var made := OutputItem(env.codec, env.tools, part, partial, generated);
            && (made.Accepted? && made.value.encrypted.Some? ==>
                  part.Thinking? && index in st.ids && Backed(env, claims, index, made.value))
            && (made.Accepted? && part.Thinking? && index in st.ids ==>
                  made.value.id == env.codec.clientId(st.ids[index]))
  {
    var part := Resolved(st, index, given);
    var made := OutputItem(env.codec, env.tools, part, partial, generated);
    if part.Thinking? && made.Accepted? {
      var origin := OriginOf(part.signature);
      assert env.codec.wire(origin, generated).Accepted?;
      if index in st.ids {
        var known := st.parts[index];
        assert part.signature == known.signature;
        assert (index, known) in claims && Identified(known);
      }
    }
  }

  /** The announced and the finished form of a part are of one kind. */
  lemma MadeKinds(env: Env, part: Part, g: string, h: string)
    ensures var a := OutputItem(env.codec, env.tools, part, true, g);
            var b := OutputItem(env.codec, env.tools, part, false, h);
            a.Accepted? && b.Accepted? ==> a.value.kind == b.value.kind
  {
  }

  lemma AddedItem(env: Env, st: Stream, index: int, part: Part)
    requires index !in st.items
    ensures var g := Add(env, st, index, part);
            var made := OutputItem(env.codec, env.tools, part, true, env.generate(st.drawn));
            g.Did? ==> made.Accepted? && index in g.st.items && g.st.items[index].kind == made.value.kind
                       && (part.Thinking? && index in st.ids ==> g.st.items[index].id == env.codec.clientId(st.ids[index]))
  {
  }

  lemma AddAndCompleteKeeps(env: Env, claims: Claims, st: Stream, log: seq<Chunk>, index: int, part: Part, final: OutItem, h: string)
    requires Inv(env, claims, st, log) && index !in st.closed
    requires OutputItem(env.codec, env.tools, part, false, h) == Accepted(final)
    requires final.encrypted.Some? ==> part.Thinking? && index in st.ids && Backed(env, claims, index, final)
    requires part.Thinking? && index in st.ids ==> final.id == env.codec.clientId(st.ids[index])
    ensures var g := AddAndComplete(env, st, index, part, final);
            if g.Raised? then g.st == st else Inv(env, claims, g.st, log + g.chunks)
  {
    hide Inv, Add, Complete, OutputItem, Backed;
    AddKeeps(env, claims, st, log, index, part);
    var added := Add(env, st, index, part);
    if added.Did? {
      InvFacts(env, claims, added.st, log + added.chunks);
      CompleteKeeps(env, claims, added.st, log + added.chunks, index, part.Thinking?, final);
      var rest := Complete(env, added.st, index, part.Thinking?, final);
      if rest.Did? {
        assert log + added.chunks + rest.chunks == log + (added.chunks + rest.chunks);
      }
      if index !in st.items {
        AddedItem(env, st, index, part);
        MadeKinds(env, part, env.generate(st.drawn), h);
      } else {
        AddNothing(env, st, index, part);
      }
    }
  }

  lemma AddNothing(env: Env, st: Stream, index: int, part: Part)
    requires index in st.items
    ensures Add(env, st, index, part) == Did(st, [])
  {
  }

  lemma ReopenKeeps(env: Env, claims: Claims, st: Stream, log: seq<Chunk>, index: int, thinking: bool, final: OutItem)
    requires Inv(env, claims, st, log) && index in st.closed && index in st.items
    requires final.encrypted.Some? ==> Backed(env, claims, index, final)
    ensures var g := Reopen(st, index, thinking, final);
            if g.Raised? then g.st == st else Inv(env, claims, g.st, log + g.chunks)
  {
    var g := Reopen(st, index, thinking, final);
    assert log + [] == log;
    if g.Did? {
      SameLayout(st, g.st);
      forall i | i in g.st.items ensures ItemOk(env, claims, g.st, log, i) {
        assert ItemOk(env, claims, st, log, i);
      }
    }
  }

  lemma Redrawn(env: Env, claims: Claims, st: Stream, log: seq<Chunk>)
    requires Inv(env, claims, st, log)
    ensures Inv(env, claims, st.(drawn := st.drawn + 1), log)
    ensures st.closed <= st.items.Keys == st.indices.Keys
  {
    var st1 := st.(drawn := st.drawn + 1);
    SameLayout(st, st1);
    forall i | i in st1.items ensures ItemOk(env, claims, st1, log, i) {
      assert ItemOk(env, claims, st, log, i);
    }
  }

  /** An exception leaves the log complete: whatever was numbered was handed out. */
  lemma FinishKeeps(env: Env, claims: Claims, st: Stream, log: seq<Chunk>, index: int, given: Part)
    requires Inv(env, claims, st, log) && Remembered(st, index, given)
    ensures st.closed <= st.items.Keys == st.indices.Keys
    ensures var g := Finish(env, st, index, given);
            Inv(env, claims, g.st, log + if g.Did? then g.chunks else [])
  {
    hide Inv, OutputItem, Resolved, Backed, Remembered, AddAndComplete, Reopen, KnownIds;
    Redrawn(env, claims, st, log);
    InvFacts(env, claims, st, log);
    var h := env.generate(st.drawn);
    MadeItem(env, claims, st, index, given, false, h);
    var part := Resolved(st, index, given);
    var made := OutputItem(env.codec, env.tools, part, false, h);
    var st1 := st.(drawn := st.drawn + 1);
    if made.Accepted? {
      if index in st.closed {
        ReopenKeeps(env, claims, st1, log, index, part.Thinking?, made.value);
      } else {
        AddAndCompleteKeeps(env, claims, st1, log, index, part, made.value, h);
      }
    }
    assert log + [] == log;
  }

  lemma InvFacts(env: Env, claims: Claims, st: Stream, log: seq<Chunk>)
    requires Inv(env, claims, st, log)
    ensures Lawful(env.codec) && KnownIds(claims, st) && Coherent(st)
    ensures |log| == st.sequence && st.closed <= st.items.Keys == st.indices.Keys
  {
  }

  // ---- Identities observed along the way -------------------------------------------------------------------

  /** The event declares `part` the final thinking part of block `index`. */
  ghost predicate Declares(e: Event, index: int, part: Part) {
    || (MessageOf(e).Some? && 0 <= index < |MessageOf(e).value.content| && MessageOf(e).value.content[index] == part
        && part.Thinking? && Finalizes(e, index))
    || (ThinkingDone(e) && e.index == index && e.part == part)
  }

  ghost predicate Covers(claims: Claims, e: Event) {
    forall index, part | Declares(e, index, part) :: (index, part) in claims
  }

  lemma RememberKeeps(env: Env, claims: Claims, st: Stream, log: seq<Chunk>, index: int, part: Part, finalized: bool)
    requires Inv(env, claims, st, log)
    requires finalized ==> (index, part) in claims
    ensures var o := Remember(env, st, index, part, finalized);
            o.Seen? ==> Inv(env, claims, o.st, log) && st.ids.Keys <= o.st.ids.Keys
                        && (finalized ==> Remembered(o.st, index, part))
  {
    var o := Remember(env, st, index, part, finalized);
    if o.Seen? {
      hide Backed;
      assert LayoutOf(o.st) == LayoutOf(st);
      forall i | i in o.st.items ensures ItemOk(env, claims, o.st, log, i) {
        assert ItemOk(env, claims, st, log, i);
      }
    }
  }

  lemma {:induction false} RememberAllKeeps(env: Env, claims: Claims, st: Stream, log: seq<Chunk>, e: Event, content: seq<Part>, from: nat)
    requires Inv(env, claims, st, log) && from <= |content|
    requires forall i | from <= i < |content| && content[i].Thinking? && Finalizes(e, i) :: (i, content[i]) in claims
    ensures var o := RememberAll(env, st, e, content, from);
            o.Seen? ==> Inv(env, claims, o.st, log) && st.ids.Keys <= o.st.ids.Keys
                        && forall i | from <= i < |content| && Finalizes(e, i) :: Remembered(o.st, i, content[i])
    decreases |content| - from
  {
    hide Inv, Remember;
    if from < |content| {
      if content[from].Thinking? {
        RememberKeeps(env, claims, st, log, from, content[from], Finalizes(e, from));
        var o := Remember(env, st, from, content[from], Finalizes(e, from));
        if o.Seen? { RememberAllKeeps(env, claims, o.st, log, e, content, from + 1); }
      } else {
        RememberAllKeeps(env, claims, st, log, e, content, from + 1);
      }
    }
  }

  /** Every part the main loop will finish for `e` was observed as final, if it names an upstream item. */
  ghost predicate Ready(st: Stream, e: Event) {
    && (e.Block? && e.phase == Ended ==> Remembered(st, e.index, FinalPart(e)))
    && (e.Finished? && e.message.Some? ==>
          forall i | 0 <= i < |e.message.value.content| :: Remembered(st, i, e.message.value.content[i]))
  }

  lemma ObserveKeeps(env: Env, claims: Claims, st: Stream, log: seq<Chunk>, e: Event)
    requires Inv(env, claims, st, log) && Covers(claims, e)
    ensures var o := Observe(env, st, e);
            o.Seen? ==> Inv(env, claims, o.st, log) && st.ids.Keys <= o.st.ids.Keys && Ready(o.st, e)
  {
    hide Inv, Remember, RememberAll;
    var message := MessageOf(e);
    var st1 := st;
    if message.Some? {
      var content := message.value.content;
      forall i | 0 <= i < |content| && content[i].Thinking? && Finalizes(e, i) ensures (i, content[i]) in claims {
        assert Declares(e, i, content[i]);
      }
      RememberAllKeeps(env, claims, st, log, e, content, 0);
      var o := RememberAll(env, st, e, content, 0);
      if o.Seen? { st1 := o.st; }
    }
    if ThinkingDone(e) {
      assert Declares(e, e.index, e.part);
      if Observe(env, st, e).Seen? && (e.part.signature != Missing || message.None?) {
        RememberKeeps(env, claims, st1, log, e.index, e.part, true);
      }
    }
  }

  // ---- The main loop ---------------------------------------------------------------------------------------

  /** The whole log of a stream that is over. */
  ghost predicate Over(env: Env, claims: Claims, log: seq<Chunk>) {
    && log != [] && log[|log| - 1].body.Terminal? && NoTerminal(log[..|log| - 1])
    && exists l :: Laws(env, claims, l, log)
  }

  lemma ConcludeKeeps(env: Env, claims: Claims, st: Stream, log: seq<Chunk>, content: seq<Part>, status: Stop)
    requires Inv(env, claims, st, log)
    ensures forall k | 0 <= k < |st.output| :: st.output[k] in st.items
    ensures var g := Conclude(env, st, content, status);
            if g.Raised? then g.st == st else Over(env, claims, log + g.chunks)
    ensures content == [] ==> Conclude(env, st, content, status).Did?
  {
    forall k | 0 <= k < |st.output| ensures st.output[k] in st.items { assert st.output[k] in st.indices; }
    var g := Conclude(env, st, content, status);
    if g.Did? {
      var c := g.chunks[0];
      assert g.chunks == [c];
      forall k | 0 <= k < |st.output|
        ensures c.body.items[k].id == LayoutOf(st).ids[k] && Backed(env, claims, st.output[k], c.body.items[k])
      {
        IdAt(st, k);
        assert ItemOk(env, claims, st, log, st.output[k]);
      }
      LawsPush(env, claims, LayoutOf(st), log, c);
      assert (log + [c])[..|log|] == log;
    }
  }

  lemma FailKeeps(env: Env, claims: Claims, st: Stream, log: seq<Chunk>)
    requires Inv(env, claims, st, log)
    ensures Coherent(st) && Over(env, claims, log + Fail(env, st))
  {
    hide Over, Laws;
    ConcludeKeeps(env, claims, st, log, [], Failed);
  }

  /** What handling an event leaves behind. */
  ghost predicate HandledWell(env: Env, claims: Claims, st: Stream, log: seq<Chunk>, h: Handled) {
    && (h.Stopped? ==> Over(env, claims, log + h.chunks))
    && (!h.Stopped? ==> Inv(env, claims, h.st, log + h.chunks) && st.ids.Keys <= h.st.ids.Keys)
  }

  lemma FinishIds(env: Env, st: Stream, index: int, given: Part)
    requires Coherent(st)
    ensures st.closed <= st.items.Keys == st.indices.Keys
    ensures Finish(env, st, index, given).st.ids == st.ids
  {
    hide OutputItem, Resolved, Coherent, FinishWith;
    ClosedKnown(st);
    var part := Resolved(st, index, given);
    var made := OutputItem(env.codec, env.tools, part, false, env.generate(st.drawn));
    if made.Accepted? { FinishWithIds(env, st.(drawn := st.drawn + 1), index, part, made.value); }
  }

  lemma FinishWithIds(env: Env, st: Stream, index: int, part: Part, final: OutItem)
    requires Coherent(st)
    ensures st.closed <= st.items.Keys == st.indices.Keys
    ensures FinishWith(env, st, index, part, final).st.ids == st.ids
  {
    hide Coherent, OutputItem, Complete;
    ClosedKnown(st);
    AddCoherent(env, st, index, part);
    var added := Add(env, st, index, part);
    ClosedKnown(added.st);
    assert added.st.ids == st.ids;
    hide Add;
    if added.Did? { CompleteTables(env, added.st, index, part.Thinking?, final); }
  }

  lemma {:induction false} FinishAllKeeps(env: Env, claims: Claims, st: Stream, log: seq<Chunk>, content: seq<Part>, from: nat, stop: Stop)
    requires Inv(env, claims, st, log) && from <= |content|
    requires forall i | from <= i < |content| :: Remembered(st, i, content[i])
    ensures Coherent(st) && HandledWell(env, claims, st, log, FinishAll(env, st, content, from, stop))
    decreases |content| - from
  {
    hide Inv, Over, Finish, Conclude, Coherent;
    InvFacts(env, claims, st, log);
    assert log + [] == log;
    if from == |content| {
      ConcludeKeeps(env, claims, st, log, content, stop);
    } else {
      FinishKeeps(env, claims, st, log, from, content[from]);
      FinishIds(env, st, from, content[from]);
      FinishCoherent(env, st, from, content[from]);
      var g := Finish(env, st, from, content[from]);
      if g.Did? {
        FinishAllKeeps(env, claims, g.st, log + g.chunks, content, from + 1, stop);
        var h := FinishAll(env, g.st, content, from + 1, stop);
        assert log + g.chunks + h.chunks == log + (g.chunks + h.chunks);
      }
    }
  }

  lemma BlockKeeps(env: Env, claims: Claims, st: Stream, log: seq<Chunk>, e: Event)
    requires Inv(env, claims, st, log) && Ready(st, e) && e.Block?
    ensures Coherent(st) && HandledWell(env, claims, st, log, Handle(env, st, e))
  {
    hide Inv, Over, Finish, Add, Grow, Coherent, FinalPart, Remembered;
    InvFacts(env, claims, st, log);
    assert log + [] == log;
    if e.phase == Ended {
      FinishKeeps(env, claims, st, log, e.index, FinalPart(e));
      FinishIds(env, st, e.index, FinalPart(e));
    } else {
      AddKeeps(env, claims, st, log, e.index, e.part);
      var added := Add(env, st, e.index, e.part);
      if added.Did? && e.phase == Grew {
        InvFacts(env, claims, added.st, log + added.chunks);
        GrowKeeps(env, claims, added.st, log + added.chunks, e.index, e.delta);
        GrowTables(added.st, e.index, e.delta);
        var grown := Grow(added.st, e.index, e.delta);
        if grown.Did? {
          assert log + added.chunks + grown.chunks == log + (added.chunks + grown.chunks);
        }
      }
    }
  }

  lemma HandleKeeps(env: Env, claims: Claims, st: Stream, log: seq<Chunk>, e: Event)
    requires Inv(env, claims, st, log) && Ready(st, e)
    ensures Coherent(st) && HandledWell(env, claims, st, log, Handle(env, st, e))
  {
    hide Inv, Over, Finish, Add, Grow, Conclude, FinishAll, Coherent;
    InvFacts(env, claims, st, log);
    assert log + [] == log;
    match e
    case Notice(_) =>
    case Finished(message, stop) =>
      FinishAllKeeps(env, claims, st, log, if message.Some? then message.value.content else [], 0, stop);
    case Errored(message) =>
      ConcludeKeeps(env, claims, st, log, if message.Some? then message.value.content else [], Failed);
    case Block(_, _, _, _, _) =>
      BlockKeeps(env, claims, st, log, e);
  }

  lemma ReadyLater(st: Stream, later: Stream, e: Event)
    requires Ready(st, e) && st.ids.Keys <= later.ids.Keys
    ensures Ready(later, e)
  {
  }

  lemma {:induction false} HandleAllKeeps(env: Env, claims: Claims, st: Stream, log: seq<Chunk>, events: seq<Event>)
    requires Inv(env, claims, st, log) && forall e | e in events :: Ready(st, e)
    ensures Coherent(st) && HandledWell(env, claims, st, log, HandleAll(env, st, events))
    decreases |events|
  {
    hide Inv, Over, Handle, Coherent, Ready;
    InvFacts(env, claims, st, log);
    assert log + [] == log;
    if events != [] {
      assert events[0] in events;
      HandleKeeps(env, claims, st, log, events[0]);
      HandleCoherent(env, st, events[0]);
      var g := Handle(env, st, events[0]);
      if g.Next? {
        forall e | e in events[1..] ensures Ready(g.st, e) {
          assert e in events;
          ReadyLater(st, g.st, e);
        }
        HandleAllKeeps(env, claims, g.st, log + g.chunks, events[1..]);
        var h := HandleAll(env, g.st, events[1..]);
        assert log + g.chunks + h.chunks == log + (g.chunks + h.chunks);
      }
    }
  }

  // ---- Whole streams -----------------------------------------------------------------------------------------

  lemma HeldReady(st: Stream, b: Buffer, e: Event)
    requires Ready(st, e) && forall p | p in b.pending :: Ready(st, p)
    ensures var (released, b1) := Hold(st, b, e);
            (forall p | p in released :: Ready(st, p)) && (forall p | p in b1.pending :: Ready(st, p))
  {
    assert Ready(st, Strip(e));
  }

  lemma {:induction false} DriveKeeps(env: Env, claims: Claims, st: Stream, log: seq<Chunk>, b: Buffer, events: seq<Event>, raises: bool)
    requires Inv(env, claims, st, log)
    requires forall p | p in b.pending :: Ready(st, p)
    requires forall e | e in events :: Covers(claims, e)
    ensures Coherent(st) && Over(env, claims, log + Drive(env, st, b, events, raises))
    decreases |events|
  {
    hide Inv, Over, Ready, Covers, Coherent, Observe, HandleAll, Hold;
    InvFacts(env, claims, st, log);
    if events == [] {
      if raises {
        FailKeeps(env, claims, st, log);
      } else {
        HandleAllKeeps(env, claims, st, log, b.pending);
        var h := HandleAll(env, st, b.pending);
        if !h.Stopped? { AfterHandled(env, claims, log, h); }
      }
    } else {
      var e := events[0];
      assert e in events;
      ObserveKeeps(env, claims, st, log, e);
      var o := Observe(env, st, e);
      if o.Conflict? {
        FailKeeps(env, claims, st, log);
      } else {
        forall p | p in b.pending ensures Ready(o.st, p) { ReadyLater(st, o.st, p); }
        HeldReady(o.st, b, e);
        var (released, b1) := Hold(o.st, b, e);
        HandleAllKeeps(env, claims, o.st, log, released);
        InvFacts(env, claims, o.st, log);
        var h := HandleAll(env, o.st, released);
        if h.Broken? {
          AfterHandled(env, claims, log, h);
        } else if h.Next? {
          forall p | p in b1.pending ensures Ready(h.st, p) { ReadyLater(o.st, h.st, p); }
          forall e | e in events[1..] ensures Covers(claims, e) { assert e in events; }
          DriveKeeps(env, claims, h.st, log + h.chunks, b1, events[1..], raises);
          var rest := Drive(env, h.st, b1, events[1..], raises);
          assert log + h.chunks + rest == log + (h.chunks + rest);
        }
      }
    }
  }

  lemma AfterHandled(env: Env, claims: Claims, log: seq<Chunk>, h: Handled)
    requires !h.Stopped? && Inv(env, claims, h.st, log + h.chunks)
    ensures Coherent(h.st) && Over(env, claims, log + (h.chunks + Fail(env, h.st)))
  {
    hide Inv, Over;
    FailKeeps(env, claims, h.st, log + h.chunks);
    assert log + h.chunks + Fail(env, h.st) == log + (h.chunks + Fail(env, h.st));
  }

  /** The parts these events declare final. */
  ghost function ClaimsOf(events: seq<Event>): Claims {
    iset index: int, part: Part, k: int | 0 <= k < |events| && Declares(events[k], index, part) :: (index, part)
  }

  const OPENING := [Chunk(0, Created), Chunk(1, InProgress)]

  lemma OpeningInv(env: Env, claims: Claims)
    requires Lawful(env.codec)
    ensures Inv(env, claims, START.(sequence := 2), OPENING)
  {
    var l := LayoutOf(START.(sequence := 2));
    assert Laws(env, claims, l, []);
    LawsPush(env, claims, l, [], Chunk(0, Created));
    LawsPush(env, claims, l, [Chunk(0, Created)], Chunk(1, InProgress));
    assert [] + [Chunk(0, Created)] + [Chunk(1, InProgress)] == OPENING;
    Appended([], Chunk(0, Created));
    Appended([Chunk(0, Created)], Chunk(1, InProgress));
  }

  lemma {:induction false} LawAt(env: Env, claims: Claims, l: Layout, log: seq<Chunk>, k: nat)
    requires Laws(env, claims, l, log) && k < |log|
    ensures log[k].number == k && BodyOk(env, claims, l, log[..k], log[k].body)
  {
    var n := |log| - 1;
    if k < n {
      LawAt(env, claims, l, log[..n], k);
      assert log[..n][..k] == log[..k];
    }
  }

  lemma {:induction false} DoneOnce(env: Env, claims: Claims, l: Layout, log: seq<Chunk>, o: nat)
    requires Laws(env, claims, l, log)
    ensures Dones(log, o) <= 1
  {
    if log != [] { DoneOnce(env, claims, l, log[..|log| - 1], o); }
  }

  /**
    * Whatever the upstream sends, and whether it ends or raises: the client sees numbers 0, 1, 2, ... without
    * a gap, one terminal chunk and that last, items announced densely and before anything is said of them,
    * each under one id and done at most once, and encrypted content only under the identity it came with.
    */
  lemma StreamIsLawful(hash: Hash, tools: map<string, Kind>, generate: nat -> string, events: seq<Event>, raises: bool)
    returns (l: Layout)
    ensures var env := Env(XdogCodec(hash), tools, generate);
            var log := Sse(env, events, raises);
            && log != [] && log[|log| - 1].body.Terminal? && NoTerminal(log[..|log| - 1])
            && (forall k | 0 <= k < |log| ::
                  log[k].number == k && BodyOk(env, ClaimsOf(events), l, log[..k], log[k].body))
            && (forall o: nat :: Dones(log, o) <= 1)
  {
    var env := Env(XdogCodec(hash), tools, generate);
    var claims := ClaimsOf(events);
    var log := Sse(env, events, raises);
    XdogCodecLawful(hash);
    OpeningInv(env, claims);
    forall e | e in events ensures Covers(claims, e) {
      var k :| 0 <= k < |events| && events[k] == e;
      forall index, part | Declares(e, index, part) ensures (index, part) in claims {
        assert Declares(events[k], index, part);
      }
    }
    DriveKeeps(env, claims, START.(sequence := 2), OPENING, Buffer([], {}), events, raises);
    l :| Laws(env, claims, l, log);
    forall k | 0 <= k < |log| ensures log[k].number == k && BodyOk(env, claims, l, log[..k], log[k].body) {
      LawAt(env, claims, l, log, k);
    }
    forall o: nat ensures Dones(log, o) <= 1 {
      DoneOnce(env, claims, l, log, o);
    }
  }
}
