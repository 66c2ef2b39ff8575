/** When the deltas of an item add up to its final text: no delta may reach a block that is closed already. */
module ResponseDeltas {
  import opened TextCodecs
  import opened ReasoningIds
  import opened ResponseSpec
  import opened ResponseLaws

  // ---- What is handled, and in which state -------------------------------------------------------------------

  datatype Handling = Handling(st: Stream, event: Event)

  function HandlingsOf(env: Env, st: Stream, events: seq<Event>): seq<Handling>
    requires Coherent(st)
    decreases |events|
  {
    if events == [] then [] else
      HandleCoherent(env, st, events[0]);
      var h := Handle(env, st, events[0]);
      [Handling(st, events[0])] + if h.Next? then HandlingsOf(env, h.st, events[1..]) else []
  }

  /** Every event the main loop of `stream_to_sse` handles, with the state it meets. */
  function Handlings(env: Env, st: Stream, b: Buffer, events: seq<Event>, raises: bool): seq<Handling>
    requires Coherent(st)
    decreases |events|
  {
    if events == [] then
      if raises then [] else HandlingsOf(env, st, b.pending)
    else
      ObserveCoherent(env, st, events[0]);
      match Observe(env, st, events[0])
      case Conflict => []
      case Seen(st1) =>
        var (released, b1) := Hold(st1, b, events[0]);
        HandleAllCoherent(env, st1, released);
        var h := HandleAll(env, st1, released);
        HandlingsOf(env, st1, released) + if h.Next? then Handlings(env, h.st, b1, events[1..], raises) else []
  }

  /** A delta that meets a block which is closed, streams its text and has a block to extend. */
  predicate Late(h: Handling, o: nat) {
    var st, e := h.st, h.event;
    && e.Block? && e.phase == Grew && e.delta != ""
    && e.index in st.closed && e.index in st.items && e.index in st.indices && st.indices[e.index] == o
    && Streams(st.items[e.index].kind) && st.items[e.index].block
  }

  function LateText(hs: seq<Handling>, o: nat): string {
    if hs == [] then "" else (if Late(hs[0], o) then hs[0].event.delta else "") + LateText(hs[1..], o)
  }

  lemma {:induction false} LateTextSplit(a: seq<Handling>, b: seq<Handling>, o: nat)
    ensures LateText(a + b, o) == LateText(a, o) + LateText(b, o)
  {
    if a == [] {
      assert a + b == b;
    } else {
      assert (a + b)[0] == a[0] && (a + b)[1..] == a[1..] + b;
      LateTextSplit(a[1..], b, o);
    }
  }

  lemma {:induction false} NoLateText(hs: seq<Handling>, o: nat)
    ensures LateText(hs, o) == "" <==> forall h | h in hs :: !Late(h, o)
  {
    if hs != [] {
      NoLateText(hs[1..], o);
      assert hs == [hs[0]] + hs[1..];
    }
  }

  // ---- The text that follows an item's end -------------------------------------------------------------------

  /** The deltas of item `o` after it was reported done, concatenated. */
  function Trailing(log: seq<Chunk>, o: nat): string {
    if log == [] then ""
    else
      var n := |log| - 1;
      Trailing(log[..n], o) + var b := log[n].body; if b.Delta? && b.output == o && Dones(log[..n], o) > 0 then b.text else ""
  }

  lemma TrailingPush(log: seq<Chunk>, c: Chunk, o: nat)
    ensures Trailing(log + [c], o) ==
              Trailing(log, o) + if c.body.Delta? && c.body.output == o && Dones(log, o) > 0 then c.body.text else ""
  {
    assert (log + [c])[..|log|] == log;
  }

  lemma TrailingSame(log: seq<Chunk>, chunks: seq<Chunk>, o: nat)
    requires |chunks| <= 3
    requires forall c | c in chunks :: !c.body.Delta?
    ensures Trailing(log + chunks, o) == Trailing(log, o)
  {
    hide Trailing;
    if |chunks| >= 1 {
      TrailingPush(log, chunks[0], o);
      assert log + [chunks[0]] == log + chunks[..1];
    }
    if |chunks| >= 2 {
      TrailingPush(log + chunks[..1], chunks[1], o);
      assert log + chunks[..1] + [chunks[1]] == log + chunks[..2];
    }
    if |chunks| >= 3 {
      TrailingPush(log + chunks[..2], chunks[2], o);
      assert log + chunks[..2] + [chunks[2]] == log + chunks[..3];
    }
    assert log + chunks[..|chunks|] == log + chunks;
    if |chunks| == 0 { assert log + chunks == log; }
  }

  lemma TrailingAdd(env: Env, st: Stream, log: seq<Chunk>, index: int, part: Part, o: nat)
    ensures var g := Add(env, st, index, part);
            g.st.closed == st.closed && (g.Did? ==> Trailing(log + g.chunks, o) == Trailing(log, o))
  {
    hide Trailing;
    var g := Add(env, st, index, part);
    if g.Did? { TrailingSame(log, g.chunks, o); }
  }

  lemma TrailingGrow(env: Env, claims: Claims, st: Stream, log: seq<Chunk>, e: Event, o: nat)
    requires Inv(env, claims, st, log) && e.Block? && e.phase == Grew && e.index in st.items
    ensures e.index in st.indices
    ensures var g := Grow(st, e.index, e.delta);
            && g.st.closed == st.closed
            && (if g.Did? then Trailing(log + g.chunks, o) == Trailing(log, o) + LateText([Handling(st, e)], o)
                else LateText([Handling(st, e)], o) == "")
  {
    hide Trailing;
    var g := Grow(st, e.index, e.delta);
    assert ItemOk(env, claims, st, log, e.index);
    assert log + [] == log;
    if g.Did? && g.chunks != [] {
      TrailingPush(log, g.chunks[0], o);
      assert g.chunks == [g.chunks[0]];
    }
  }

  lemma TrailingComplete(env: Env, claims: Claims, st: Stream, log: seq<Chunk>, index: int, thinking: bool, final: OutItem, o: nat)
    requires Inv(env, claims, st, log) && index in st.items && index !in st.closed
    ensures index in st.indices
    ensures var g := Complete(env, st, index, thinking, final);
            g.Did? ==> Trailing(log + g.chunks, o) == Trailing(log, o) && g.st.closed == st.closed + {index}
  {
    hide Inv, ItemOk, Coherent, Trailing;
    InvFacts(env, claims, st, log);
    OpenMeansClosing(env, claims, st, log, index);
    NotDone(env, claims, st, log, index);
    var g := Complete(env, st, index, thinking, final);
    if g.Did? {
      var item := st.items[index];
      var named := final.(id := item.id);
      if item.kind == SearchCall {
        TrailingSame(log, g.chunks, o);
      } else {
        var caught := CatchUp(st, index, named.text);
        TrailingCatchUp(st, log, index, named.text, o);
        var dones := Close(caught.st, index, named);
        TrailingSame(log + caught.chunks, dones.chunks, o);
        assert log + caught.chunks + dones.chunks == log + (caught.chunks + dones.chunks);
      }
    }
  }

  lemma NotDone(env: Env, claims: Claims, st: Stream, log: seq<Chunk>, index: int)
    requires Closing(env, claims, st, log, index)
    ensures index in st.indices && Dones(log, st.indices[index]) == 0
  {
  }

  lemma TrailingCatchUp(st: Stream, log: seq<Chunk>, index: int, text: string, o: nat)
    requires index in st.items && index in st.indices && Dones(log, st.indices[index]) == 0
    ensures var g := CatchUp(st, index, text);
            g.Did? ==> Trailing(log + g.chunks, o) == Trailing(log, o) && g.st.closed == st.closed && g.st.indices == st.indices
  {
    hide Trailing;
    var g := CatchUp(st, index, text);
    assert log + [] == log;
    if g.Did? && g.chunks != [] {
      TrailingPush(log, g.chunks[0], o);
      assert g.chunks == [g.chunks[0]];
    }
  }

  lemma TrailingFinish(env: Env, claims: Claims, st: Stream, log: seq<Chunk>, index: int, given: Part, o: nat)
    requires Inv(env, claims, st, log)
    ensures st.closed <= st.items.Keys == st.indices.Keys
    ensures var g := Finish(env, st, index, given);
            g.Did? ==> Trailing(log + g.chunks, o) == Trailing(log, o) && g.st.closed <= st.closed + {index}
  {
    hide Inv, OutputItem, Resolved, Add, Complete, Trailing;
    Redrawn(env, claims, st, log);
    var part := Resolved(st, index, given);
    var made := OutputItem(env.codec, env.tools, part, false, env.generate(st.drawn));
    var st1 := st.(drawn := st.drawn + 1);
    assert log + [] == log;
    if made.Accepted? && index !in st.closed {
      AddKeeps(env, claims, st1, log, index, part);
      TrailingAdd(env, st1, log, index, part, o);
      var added := Add(env, st1, index, part);
      if added.Did? {
        InvFacts(env, claims, added.st, log + added.chunks);
        TrailingComplete(env, claims, added.st, log + added.chunks, index, part.Thinking?, made.value, o);
        var rest := Complete(env, added.st, index, part.Thinking?, made.value);
        if rest.Did? {
          assert log + added.chunks + rest.chunks == log + (added.chunks + rest.chunks);
        }
      }
    }
  }

  lemma {:induction false} TrailingFinishAll(env: Env, claims: Claims, st: Stream, log: seq<Chunk>, content: seq<Part>, from: nat,
                                             stop: Stop, o: nat)
    requires Inv(env, claims, st, log) && from <= |content|
    requires forall i | from <= i < |content| :: Remembered(st, i, content[i])
    ensures Coherent(st)
    ensures var h := FinishAll(env, st, content, from, stop); Trailing(log + h.chunks, o) == Trailing(log, o) && !h.Next?
    decreases |content| - from
  {
    hide Inv, Trailing, Finish, Conclude, Coherent;
    InvFacts(env, claims, st, log);
    assert log + [] == log;
    if from == |content| {
      TrailingConclude(env, st, log, content, stop, o);
    } else {
      FinishKeeps(env, claims, st, log, from, content[from]);
      FinishIds(env, st, from, content[from]);
      FinishCoherent(env, st, from, content[from]);
      TrailingFinish(env, claims, st, log, from, content[from], o);
      var g := Finish(env, st, from, content[from]);
      if g.Did? {
        TrailingFinishAll(env, claims, g.st, log + g.chunks, content, from + 1, stop, o);
        var h := FinishAll(env, g.st, content, from + 1, stop);
        assert log + g.chunks + h.chunks == log + (g.chunks + h.chunks);
      }
    }
  }

  lemma TrailingConclude(env: Env, st: Stream, log: seq<Chunk>, content: seq<Part>, status: Stop, o: nat)
    requires Coherent(st)
    ensures forall k | 0 <= k < |st.output| :: st.output[k] in st.items
    ensures var g := Conclude(env, st, content, status);
            (g.Did? ==> Trailing(log + g.chunks, o) == Trailing(log, o)) && (content == [] ==> g.Did?)
  {
    hide Trailing;
    forall k | 0 <= k < |st.output| ensures st.output[k] in st.items { assert st.output[k] in st.indices; }
    var g := Conclude(env, st, content, status);
    if g.Did? { TrailingSame(log, g.chunks, o); }
  }

  /** What handling one event adds after the end of items is the delta of a late event. */
  ghost predicate HandledLate(st: Stream, log: seq<Chunk>, h: Handled, e: Event, o: nat) {
    && Trailing(log + h.chunks, o) == Trailing(log, o) + LateText([Handling(st, e)], o)
    && (h.Next? ==> h.st.closed <= st.closed + if e.Block? && e.phase == Ended then {e.index} else {})
  }

  lemma NotGrown(st: Stream, e: Event, o: nat)
    requires !(e.Block? && e.phase == Grew)
    ensures LateText([Handling(st, e)], o) == ""
  {
  }

  lemma TrailingBlock(env: Env, claims: Claims, st: Stream, log: seq<Chunk>, e: Event, o: nat)
    requires Inv(env, claims, st, log) && Ready(st, e) && e.Block?
    ensures Coherent(st) && HandledLate(st, log, Handle(env, st, e), e, o)
  {
    hide Inv, Trailing, LateText, Finish, Add, Grow, FinalPart, Coherent, Remembered;
    InvFacts(env, claims, st, log);
    assert log + [] == log;
    if e.phase == Ended {
      NotGrown(st, e, o);
      TrailingFinish(env, claims, st, log, e.index, FinalPart(e), o);
    } else {
      AddKeeps(env, claims, st, log, e.index, e.part);
      TrailingAdd(env, st, log, e.index, e.part, o);
      var added := Add(env, st, e.index, e.part);
      if e.phase == Opened { NotGrown(st, e, o); }
      if added.Did? && e.phase == Grew {
        TrailingGrow(env, claims, added.st, log + added.chunks, e, o);
        var grown := Grow(added.st, e.index, e.delta);
        LateAsAdded(env, st, e, o);
        if grown.Did? {
          assert log + added.chunks + grown.chunks == log + (added.chunks + grown.chunks);
        }
      } else if added.Raised? {
        LateIsKnown(env, st, e, o);
      }
    }
  }

  /** A closed block is announced already: `add` does nothing for it. */
  lemma LateAsAdded(env: Env, st: Stream, e: Event, o: nat)
    requires Coherent(st) && e.Block? && Add(env, st, e.index, e.part).Did?
    ensures LateText([Handling(Add(env, st, e.index, e.part).st, e)], o) == LateText([Handling(st, e)], o)
  {
  }

  lemma LateIsKnown(env: Env, st: Stream, e: Event, o: nat)
    requires Coherent(st) && e.Block? && Add(env, st, e.index, e.part).Raised?
    ensures LateText([Handling(st, e)], o) == ""
  {
  }

  lemma TrailingHandle(env: Env, claims: Claims, st: Stream, log: seq<Chunk>, e: Event, o: nat)
    requires Inv(env, claims, st, log) && Ready(st, e)
    ensures Coherent(st)
    ensures HandledLate(st, log, Handle(env, st, e), e, o)
  {
    hide Inv, Trailing, LateText, Finish, Add, Grow, Conclude, FinishAll, FinalPart, Coherent, Remembered;
    InvFacts(env, claims, st, log);
    assert log + [] == log;
    if e.Block? {
      TrailingBlock(env, claims, st, log, e, o);
    } else {
      NotGrown(st, e, o);
      match e
      case Notice(_) =>
      case Finished(message, stop) =>
        TrailingFinishAll(env, claims, st, log, if message.Some? then message.value.content else [], 0, stop, o);
      case Errored(message) =>
        TrailingConclude(env, st, log, if message.Some? then message.value.content else [], Failed, o);
    }
  }

  /** One more event at the front. */
  lemma HandleAllHead(env: Env, st: Stream, e: Event, more: seq<Event>)
    requires Coherent(st)
    ensures var g := Handle(env, st, e);
            && (g.Next? ==> Coherent(g.st))
            && HandleAll(env, st, [e] + more) == (if g.Next? then Before(g.chunks, HandleAll(env, g.st, more)) else g)
            && HandlingsOf(env, st, [e] + more) == [Handling(st, e)] + if g.Next? then HandlingsOf(env, g.st, more) else []
  {
    hide Handle, Coherent;
    HandleCoherent(env, st, e);
    assert ([e] + more)[0] == e && ([e] + more)[1..] == more;
  }

  lemma {:induction false} TrailingHandleAll(env: Env, claims: Claims, st: Stream, log: seq<Chunk>, events: seq<Event>, o: nat)
    requires Inv(env, claims, st, log) && forall e | e in events :: Ready(st, e)
    ensures Coherent(st)
    ensures var h := HandleAll(env, st, events);
            Trailing(log + h.chunks, o) == Trailing(log, o) + LateText(HandlingsOf(env, st, events), o)
    decreases |events|
  {
    hide Inv, Trailing, Handle, Coherent, Ready, Late, LateText;
    InvFacts(env, claims, st, log);
    assert log + [] == log;
    if events == [] {
      NoLateText([], o);
    } else {
      hide HandleAll, HandlingsOf;
      var e, more := events[0], events[1..];
      assert e in events && events == [e] + more;
      var g := Handle(env, st, e);
      HandleKeeps(env, claims, st, log, e);
      HandleAllHead(env, st, e, more);
      TrailingHandle(env, claims, st, log, e, o);
      var later := if g.Next? then HandlingsOf(env, g.st, more) else [];
      LateTextSplit([Handling(st, e)], later, o);
      NoLateText([], o);
      if g.Next? {
        forall x | x in more ensures Ready(g.st, x) {
          assert x in events;
          ReadyLater(st, g.st, x);
        }
        TrailingHandleAll(env, claims, g.st, log + g.chunks, more, o);
        var h := HandleAll(env, g.st, more);
        assert log + g.chunks + h.chunks == log + (g.chunks + h.chunks);
      }
    }
  }

  lemma {:induction false} TrailingDrive(env: Env, claims: Claims, st: Stream, log: seq<Chunk>, b: Buffer, events: seq<Event>,
                                         raises: bool, o: nat)
    requires Inv(env, claims, st, log)
    requires forall p | p in b.pending :: Ready(st, p)
    requires forall e | e in events :: Covers(claims, e)
    ensures Coherent(st)
    ensures Trailing(log + Drive(env, st, b, events, raises), o)
         == Trailing(log, o) + LateText(Handlings(env, st, b, events, raises), o)
    decreases |events|
  {
    hide Inv, Trailing, Ready, Covers, Coherent, Observe, HandleAll, Hold, Conclude, HandlingsOf, Late;
    InvFacts(env, claims, st, log);
    if events == [] {
      if raises {
        TrailingConclude(env, st, log, [], Failed, o);
      } else {
        HandleAllKeeps(env, claims, st, log, b.pending);
        TrailingHandleAll(env, claims, st, log, b.pending, o);
        var h := HandleAll(env, st, b.pending);
        if !h.Stopped? { TrailingAfter(env, claims, log, h, o); }
      }
    } else {
      var e, rest := events[0], events[1..];
      assert e in events;
      ObserveKeeps(env, claims, st, log, e);
      var seen := Observe(env, st, e);
      if seen.Conflict? {
        TrailingConclude(env, st, log, [], Failed, o);
      } else {
        forall p | p in b.pending ensures Ready(seen.st, p) { ReadyLater(st, seen.st, p); }
        HeldReady(seen.st, b, e);
        var (released, b1) := Hold(seen.st, b, e);
        HandleAllKeeps(env, claims, seen.st, log, released);
        InvFacts(env, claims, seen.st, log);
        TrailingHandleAll(env, claims, seen.st, log, released, o);
        var h := HandleAll(env, seen.st, released);
        var now := HandlingsOf(env, seen.st, released);
        assert now + [] == now;
        if h.Broken? {
          TrailingAfter(env, claims, log, h, o);
        } else if h.Next? {
          forall p | p in b1.pending ensures Ready(h.st, p) { ReadyLater(seen.st, h.st, p); }
          forall x | x in rest ensures Covers(claims, x) { assert x in events; }
          TrailingDrive(env, claims, h.st, log + h.chunks, b1, rest, raises, o);
          var more := Drive(env, h.st, b1, rest, raises);
          assert log + h.chunks + more == log + (h.chunks + more);
          LateTextSplit(now, Handlings(env, h.st, b1, rest, raises), o);
        }
      }
    }
  }

  lemma TrailingAfter(env: Env, claims: Claims, log: seq<Chunk>, h: Handled, o: nat)
    requires !h.Stopped? && Inv(env, claims, h.st, log + h.chunks)
    ensures Coherent(h.st) && Trailing(log + (h.chunks + Fail(env, h.st)), o) == Trailing(log + h.chunks, o)
  {
    hide Trailing;
    TrailingConclude(env, h.st, log + h.chunks, [], Failed, o);
    assert log + h.chunks + Fail(env, h.st) == log + (h.chunks + Fail(env, h.st));
  }

  /** What is streamed for an item in all is what came before its end and what came after. */
  lemma {:induction false} StreamedInAll(log: seq<Chunk>, k: nat, o: nat)
    requires k < |log| && log[k].body.ItemDone? && log[k].body.output == o && Dones(log[..k], o) == 0
    ensures Streamed(log, o) == Streamed(log[..k], o) + Trailing(log, o)
    decreases |log|
  {
    var n := |log| - 1;
    var shorter := log[..n];
    if k < n {
      assert shorter[..k] == log[..k];
      StreamedInAll(shorter, k, o);
      DoneStays(shorter, k, o);
    } else {
      NoneTrailing(shorter, o);
    }
    hide Dones;
  }

  lemma {:induction false} NoneTrailing(log: seq<Chunk>, o: nat)
    requires Dones(log, o) == 0
    ensures Trailing(log, o) == ""
  {
    if log != [] { NoneTrailing(log[..|log| - 1], o); }
  }

  lemma {:induction false} DoneStays(log: seq<Chunk>, k: nat, o: nat)
    requires k < |log| && log[k].body.ItemDone? && log[k].body.output == o
    ensures Dones(log, o) > 0
  {
    var n := |log| - 1;
    if k < n { DoneStays(log[..n], k, o); }
  }

  // ---- Whole streams -----------------------------------------------------------------------------------------

  /** Every event a whole stream handles, with the state it meets. */
  function AllHandlings(env: Env, events: seq<Event>, raises: bool): seq<Handling> {
    Handlings(env, START.(sequence := 2), Buffer([], {}), events, raises)
  }

  /**
    * On every upstream: when an item that streams its text is reported done with a text that extends what was
    * streamed, all its deltas together are that text and then whatever was sent too late; they are that text
    * exactly when no handled delta, unless empty, met the closed block.
    */
  lemma DeltasAddUpExactly(hash: Hash, tools: map<string, Kind>, generate: nat -> string, events: seq<Event>, raises: bool, k: nat)
    requires k < |Sse(Env(XdogCodec(hash), tools, generate), events, raises)|
    requires Sse(Env(XdogCodec(hash), tools, generate), events, raises)[k].body.ItemDone?
    ensures var env := Env(XdogCodec(hash), tools, generate);
            var log := Sse(env, events, raises);
            var o, item := log[k].body.output, log[k].body.item;
            KindOf(log[..k], o) != Some(SearchCall) && Streamed(log[..k], o) <= item.text ==>
              && Streamed(log, o) == item.text + LateText(AllHandlings(env, events, raises), o)
              && (Streamed(log, o) == item.text <==> forall h | h in AllHandlings(env, events, raises) :: !Late(h, o))
  {
    hide Sse, BodyOk, XdogCodec, Late;
    var env := Env(XdogCodec(hash), tools, generate);
    var log := Sse(env, events, raises);
    var l := StreamIsLawful(hash, tools, generate, events, raises);
    var o := log[k].body.output;
    DoneAgrees(env, ClaimsOf(events), l, log[..k], log[k].body);
    StreamedInAll(log, k, o);
    TrailingStream(hash, tools, generate, events, raises, o);
    NoLateText(AllHandlings(env, events, raises), o);
  }

  lemma DoneAgrees(env: Env, claims: Claims, l: Layout, before: seq<Chunk>, b: Body)
    requires b.ItemDone? && BodyOk(env, claims, l, before, b)
    ensures TextAgrees(KindOf(before, b.output), Streamed(before, b.output), b.item) && Dones(before, b.output) == 0
  {
  }

  lemma TrailingStream(hash: Hash, tools: map<string, Kind>, generate: nat -> string, events: seq<Event>, raises: bool, o: nat)
    ensures var env := Env(XdogCodec(hash), tools, generate);
            Trailing(Sse(env, events, raises), o) == LateText(AllHandlings(env, events, raises), o)
  {
    var env := Env(XdogCodec(hash), tools, generate);
    var claims := ClaimsOf(events);
    hide Inv, Drive, XdogCodec;
    XdogCodecLawful(hash);
    OpeningInv(env, claims);
    AllCovered(events);
    TrailingDrive(env, claims, START.(sequence := 2), OPENING, Buffer([], {}), events, raises, o);
    assert [] + OPENING == OPENING;
    TrailingSame([], OPENING, o);
  }

  lemma AllCovered(events: seq<Event>)
    ensures forall e | e in events :: Covers(ClaimsOf(events), e)
  {
    forall e | e in events ensures Covers(ClaimsOf(events), e) {
      var k :| 0 <= k < |events| && events[k] == e;
      forall index, part | Declares(e, index, part) ensures (index, part) in ClaimsOf(events) {
        assert Declares(events[k], index, part);
      }
    }
  }

  // ---- Upstreams that are never late -------------------------------------------------------------------------

  predicate GrowsBlock(e: Event, i: int) {
    e.Block? && e.phase == Grew && e.index == i
  }

  predicate EndsBlock(e: Event, i: int) {
    e.Block? && e.phase == Ended && e.index == i
  }

  /** No block is extended that is closed or was ended earlier in the sequence. */
  ghost predicate Tame(closed: set<int>, events: seq<Event>) {
    && (forall k, i | 0 <= k < |events| && GrowsBlock(events[k], i) :: i !in closed)
    && (forall j, k, i | 0 <= j < k < |events| && EndsBlock(events[j], i) :: !GrowsBlock(events[k], i))
  }

  lemma TameHead(closed: set<int>, e: Event, rest: seq<Event>, later: set<int>)
    requires Tame(closed, [e] + rest)
    requires later <= closed + if e.Block? && e.phase == Ended then {e.index} else {}
    ensures e.Block? && e.phase == Grew ==> e.index !in closed
    ensures Tame(later, rest)
  {
    var all := [e] + rest;
    if e.Block? && e.phase == Grew { assert GrowsBlock(all[0], e.index); }
    forall k, i | 0 <= k < |rest| && GrowsBlock(rest[k], i) ensures i !in later {
      assert GrowsBlock(all[k + 1], i);
      assert !EndsBlock(all[0], i);
    }
    forall j, k, i | 0 <= j < k < |rest| && EndsBlock(rest[j], i) ensures !GrowsBlock(rest[k], i) {
      assert EndsBlock(all[j + 1], i) && 0 <= j + 1 < k + 1 < |all|;
      assert !GrowsBlock(all[k + 1], i);
    }
  }

  lemma TameStripped(closed: set<int>, before: seq<Event>, e: Event, after: seq<Event>)
    requires Tame(closed, before + [e] + after)
    ensures Tame(closed, before + [Strip(e)] + after)
  {
    var a, b := before + [e] + after, before + [Strip(e)] + after;
    forall k, i | 0 <= k < |b| && GrowsBlock(b[k], i) ensures i !in closed { assert GrowsBlock(a[k], i); }
    forall j, k, i | 0 <= j < k < |b| && EndsBlock(b[j], i) ensures !GrowsBlock(b[k], i) {
      assert EndsBlock(a[j], i) && 0 <= j < k < |a|;
      assert !GrowsBlock(a[k], i);
    }
  }

  /** What is released and what is kept is what was pending plus the event, in order. */
  lemma HoldKeepsOrder(st: Stream, b: Buffer, e: Event)
    ensures var (released, b1) := Hold(st, b, e);
            && (released + b1.pending == b.pending + [Strip(e)] || (b.pending == [] && released == [e] && b1.pending == []))
            && (released == [] || b1.pending == [])
  {
  }

  lemma {:induction false} RememberAllClosed(env: Env, st: Stream, e: Event, content: seq<Part>, from: nat)
    requires from <= |content|
    ensures var o := RememberAll(env, st, e, content, from); o.Seen? ==> o.st.closed == st.closed
    decreases |content| - from
  {
    if from < |content| {
      if content[from].Thinking? {
        var o := Remember(env, st, from, content[from], Finalizes(e, from));
        if o.Seen? { RememberAllClosed(env, o.st, e, content, from + 1); }
      } else {
        RememberAllClosed(env, st, e, content, from + 1);
      }
    }
  }

  lemma ObserveClosed(env: Env, st: Stream, e: Event)
    ensures Observe(env, st, e).Seen? ==> Observe(env, st, e).st.closed == st.closed
  {
    if MessageOf(e).Some? { RememberAllClosed(env, st, e, MessageOf(e).value.content, 0); }
  }

  /** Only the end of a block closes one. */
  lemma HandleCloses(env: Env, claims: Claims, st: Stream, log: seq<Chunk>, e: Event)
    requires Inv(env, claims, st, log) && Ready(st, e)
    ensures Coherent(st)
    ensures var h := Handle(env, st, e); h.Next? ==> h.st.closed <= st.closed + if e.Block? && e.phase == Ended then {e.index} else {}
  {
    hide Inv, Ready, Handle, Coherent, Trailing;
    TrailingHandle(env, claims, st, log, e, 0);
  }

  lemma {:induction false} TameHandleAll(env: Env, claims: Claims, st: Stream, log: seq<Chunk>, events: seq<Event>, rest: seq<Event>)
    requires Inv(env, claims, st, log) && forall e | e in events :: Ready(st, e)
    requires Tame(st.closed, events + rest)
    ensures Coherent(st)
    ensures forall h, o: nat | h in HandlingsOf(env, st, events) :: !Late(h, o)
    ensures var h := HandleAll(env, st, events); h.Next? ==> Tame(h.st.closed, rest)
    decreases |events|
  {
    hide Inv, Handle, Coherent, Ready, Tame;
    InvFacts(env, claims, st, log);
    if events == [] {
      assert events + rest == rest;
    } else {
      var e, more := events[0], events[1..];
      assert e in events;
      assert events + rest == [e] + (more + rest);
      var g := Handle(env, st, e);
      HandleKeeps(env, claims, st, log, e);
      HandleCoherent(env, st, e);
      TameHead(st.closed, e, more + rest, st.closed);
      HandleCloses(env, claims, st, log, e);
      if g.Next? {
        TameHead(st.closed, e, more + rest, g.st.closed);
        forall x | x in more ensures Ready(g.st, x) {
          assert x in events;
          ReadyLater(st, g.st, x);
        }
        TameHandleAll(env, claims, g.st, log + g.chunks, more, rest);
      }
    }
  }

  lemma {:induction false} TameDrive(env: Env, claims: Claims, st: Stream, log: seq<Chunk>, b: Buffer, events: seq<Event>, raises: bool)
    requires Inv(env, claims, st, log)
    requires forall p | p in b.pending :: Ready(st, p)
    requires forall e | e in events :: Covers(claims, e)
    requires Tame(st.closed, b.pending + events)
    ensures Coherent(st)
    ensures forall h, o: nat | h in Handlings(env, st, b, events, raises) :: !Late(h, o)
    decreases |events|
  {
    hide Inv, Ready, Covers, Coherent, Observe, HandleAll, Hold, Tame, Late, HandlingsOf;
    InvFacts(env, claims, st, log);
    if events == [] {
      if !raises {
        assert b.pending + [] == b.pending;
        TameHandleAll(env, claims, st, log, b.pending, []);
      }
    } else {
      var e, rest := events[0], events[1..];
      assert e in events;
      ObserveKeeps(env, claims, st, log, e);
      ObserveClosed(env, st, e);
      var seen := Observe(env, st, e);
      if seen.Seen? {
        forall p | p in b.pending ensures Ready(seen.st, p) { ReadyLater(st, seen.st, p); }
        HeldReady(seen.st, b, e);
        HoldKeepsOrder(seen.st, b, e);
        var (released, b1) := Hold(seen.st, b, e);
        assert b.pending + events == b.pending + [e] + rest;
        TameStripped(st.closed, b.pending, e, rest);
        assert released + (b1.pending + rest) == released + b1.pending + rest;
        if released == [e] && b1.pending == [] && b.pending == [] {
          assert b.pending + [e] + rest == released + (b1.pending + rest);
        }
        HandleAllKeeps(env, claims, seen.st, log, released);
        InvFacts(env, claims, seen.st, log);
        TameHandleAll(env, claims, seen.st, log, released, b1.pending + rest);
        var h := HandleAll(env, seen.st, released);
        if h.Next? {
          forall p | p in b1.pending ensures Ready(h.st, p) { ReadyLater(seen.st, h.st, p); }
          forall x | x in rest ensures Covers(claims, x) { assert x in events; }
          TameDrive(env, claims, h.st, log + h.chunks, b1, rest, raises);
        }
      }
    }
  }

  /**
    * An upstream that extends no block it has ended is never late, so all the deltas of an item together are its
    * final text whenever that text extends what was streamed. Native search calls stream nothing.
    */
  lemma DeltasAddUp(hash: Hash, tools: map<string, Kind>, generate: nat -> string, events: seq<Event>, raises: bool, k: nat)
    requires Tame({}, events)
    requires k < |Sse(Env(XdogCodec(hash), tools, generate), events, raises)|
    requires Sse(Env(XdogCodec(hash), tools, generate), events, raises)[k].body.ItemDone?
    ensures forall h, o: nat | h in AllHandlings(Env(XdogCodec(hash), tools, generate), events, raises) :: !Late(h, o)
    ensures var log := Sse(Env(XdogCodec(hash), tools, generate), events, raises);
            var o, item := log[k].body.output, log[k].body.item;
            KindOf(log[..k], o) == Some(SearchCall) ||
            (Streamed(log[..k], o) <= item.text ==> Streamed(log, o) == item.text)
  {
    hide Sse, Late, Inv, Tame, XdogCodec, Streamed;
    var env := Env(XdogCodec(hash), tools, generate);
    XdogCodecLawful(hash);
    OpeningInv(env, ClaimsOf(events));
    AllCovered(events);
    assert [] + events == events;
    TameDrive(env, ClaimsOf(events), START.(sequence := 2), OPENING, Buffer([], {}), events, raises);
    DeltasAddUpExactly(hash, tools, generate, events, raises, k);
  }

  /** One text block, ended and then extended: the item is done with "a", and its deltas say "ab". */
  lemma UntamedExample(hash: Hash, generate: nat -> string)
    ensures var env := Env(XdogCodec(hash), map[], generate);
            var events := [Block(Ended, 0, Text("a"), "", None), Block(Grew, 0, Text(""), "b", None)];
            var log := Sse(env, events, false);
            && |log| == 10 && log[7].body == ItemDone(0, OutItem(Message, generate(1), "a", true, None))
            && Streamed(log[..7], 0) == "a" && Streamed(log, 0) == "ab"
  {
    hide Handle, HandleAll, Conclude, TextEnded, Drive, Observe, Hold, XdogCodec, Streamed;
    var env := Env(XdogCodec(hash), map[], generate);
    var e0, e1 := Block(Ended, 0, Text("a"), "", None), Block(Grew, 0, Text(""), "b", None);
    var events := [e0, e1];
    var st0 := START.(sequence := 2);
    var (st1, first) := TextEnded(generate(1));
    FirstExample(env, e0);
    LateExample(env, e1);
    HandleCoherent(env, st1, e1);
    var st2 := Handle(env, st1, e1).st;
    var late := Chunk(8, Delta(0, generate(1), "b"));
    var log := Sse(env, events, false);
    var tail := Drive(env, st2, Buffer([], {}), [], false);
    NothingLeft(env, st2);
    PlainDrive(env, st1, e1, [], false);
    PlainDrive(env, st0, e0, [e1], false);
    assert [e0] + [e1] == events && [e1] + [] == [e1];
    assert log == OPENING + (first + ([late] + tail));
    ExampleStreams(generate(1), log, late, tail[0]);
  }

  lemma FirstExample(env: Env, e: Event)
    requires e == Block(Ended, 0, Text("a"), "", None) && env.tools == map[]
    ensures Coherent(START.(sequence := 2))
    ensures var (st, chunks) := TextEnded(env.generate(1)); Handle(env, START.(sequence := 2), e) == Next(st, chunks)
  {
    FinishExample(env);
    hide Finish, TextEnded;
  }

  /** An event of a text block, with no snapshot, is handled at once when nothing is held. */
  lemma PlainDrive(env: Env, st: Stream, e: Event, rest: seq<Event>, raises: bool)
    requires Coherent(st) && e.Block? && e.part.Text? && e.partial.None? && Handle(env, st, e).Next?
    ensures var h := Handle(env, st, e);
            Coherent(h.st) && Drive(env, st, Buffer([], {}), [e] + rest, raises) == h.chunks + Drive(env, h.st, Buffer([], {}), rest, raises)
  {
    hide Handle, HandleAll, Conclude, Coherent;
    HandleCoherent(env, st, e);
    HandleOne(env, st, e);
    assert ([e] + rest)[0] == e && ([e] + rest)[1..] == rest;
    assert Observe(env, st, e) == Seen(st);
    assert Unresolved(st, Buffer([], {}), e) == {};
    assert Hold(st, Buffer([], {}), e) == ([e], Buffer([], {}));
  }

  /** When nothing is held and the upstream ends, one terminal chunk follows. */
  lemma NothingLeft(env: Env, st: Stream)
    requires Coherent(st)
    ensures var tail := Drive(env, st, Buffer([], {}), [], false); |tail| == 1 && tail[0].body.Terminal?
  {
    assert HandleAll(env, st, []) == Next(st, []);
    assert [] + Fail(env, st) == Fail(env, st);
  }

  lemma ExampleStreams(id: string, log: seq<Chunk>, late: Chunk, last: Chunk)
    requires log == OPENING + (TextEnded(id).1 + ([late] + [last]))
    requires late.body == Delta(0, id, "b") && last.body.Terminal?
    ensures |log| == 10 && log[7].body == ItemDone(0, OutItem(Message, id, "a", true, None))
    ensures Streamed(log[..7], 0) == "a" && Streamed(log, 0) == "ab"
  {
    hide Streamed;
    var first := TextEnded(id).1;
    assert log[..7] == OPENING + first[..2] + [first[2]] + first[3..5];
    StreamedAround(OPENING + first[..2], first[2], first[3..5], 0);
    assert log == log[..7] + [first[5]] + [late] + [last];
    StreamedSplit(log[..7], [first[5]], 0);
    StreamedNone([first[5]], 0);
    StreamedSplit(log[..7] + [first[5]], [late], 0);
    StreamedOne(late, 0);
    StreamedSplit(log[..7] + [first[5]] + [late], [last], 0);
    StreamedNone([last], 0);
  }

  lemma StreamedAround(before: seq<Chunk>, c: Chunk, after: seq<Chunk>, o: nat)
    requires forall x | x in before + after :: !x.body.Delta?
    requires c.body.Delta? && c.body.output == o
    ensures Streamed(before + [c] + after, o) == c.body.text
  {
    forall x | x in before ensures !x.body.Delta? { assert x in before + after; }
    forall x | x in after ensures !x.body.Delta? { assert x in before + after; }
    StreamedNone(before, o);
    StreamedNone(after, o);
    StreamedOne(c, o);
    StreamedSplit(before, [c], o);
    StreamedSplit(before + [c], after, o);
  }

  lemma {:induction false} StreamedNone(log: seq<Chunk>, o: nat)
    requires forall c | c in log :: !c.body.Delta?
    ensures Streamed(log, o) == ""
  {
    if log != [] {
      assert log[|log| - 1] in log;
      StreamedNone(log[..|log| - 1], o);
    }
  }

  lemma StreamedOne(c: Chunk, o: nat)
    ensures Streamed([c], o) == if c.body.Delta? && c.body.output == o then c.body.text else ""
  {
    assert [c][..0] == [];
  }

  lemma {:induction false} StreamedSplit(a: seq<Chunk>, b: seq<Chunk>, o: nat)
    ensures Streamed(a + b, o) == Streamed(a, o) + Streamed(b, o)
  {
    if b == [] {
      assert a + b == a;
    } else {
      hide Streamed, Dones, KindOf;
      var n := |b| - 1;
      assert a + b == a + b[..n] + [b[n]] && b == b[..n] + [b[n]];
      Appended(a + b[..n], b[n]);
      Appended(b[..n], b[n]);
      StreamedSplit(a, b[..n], o);
    }
  }

  /** The state and the chunks after a text block that came as one final part. */
  function TextEnded(id: string): (Stream, seq<Chunk>) {
    var item := OutItem(Message, id, "a", true, None);
    (Stream(map[0 := item], map[0 := 0], {0}, 8, map[], map[], [0], 2),
     [Chunk(2, ItemAdded(0, item.(text := "", block := false))), Chunk(3, PartAdded(0, id)), Chunk(4, Delta(0, id, "a")),
      Chunk(5, TextDone(0, id, "a")), Chunk(6, PartDone(0, id, "a")), Chunk(7, ItemDone(0, item))])
  }

  lemma LateExample(env: Env, e: Event)
    requires e == Block(Grew, 0, Text(""), "b", None)
    ensures var st := TextEnded(env.generate(1)).0;
            Coherent(st) && Handle(env, st, e).Next?
            && Handle(env, st, e).chunks == [Chunk(8, Delta(0, env.generate(1), "b"))]
  {
    var st := TextEnded(env.generate(1)).0;
    assert Add(env, st, 0, e.part) == Did(st, []);
  }

  lemma HandleOne(env: Env, st: Stream, e: Event)
    requires Coherent(st)
    ensures Handle(env, st, e).Next? ==> HandleAll(env, st, [e]) == Handle(env, st, e)
  {
    HandleCoherent(env, st, e);
    var h := Handle(env, st, e);
    if h.Next? {
      assert [e][1..] == [];
      assert HandleAll(env, h.st, []) == Next(h.st, []);
      assert h.chunks + [] == h.chunks;
    }
  }

  lemma FinishExample(env: Env)
    ensures var (st, chunks) := TextEnded(env.generate(1));
            Finish(env, START.(sequence := 2), 0, Text("a")) == Did(st, chunks)
  {
    var id := env.generate(1);
    var (st, chunks) := TextEnded(id);
    var st0 := START.(sequence := 2, drawn := 1);
    var final := OutItem(Message, env.generate(0), "a", true, None);
    var open := OutItem(Message, id, "", true, None);
    var st1 := Stream(map[0 := open], map[0 := 0], {}, 4, map[], map[], [0], 2);
    assert Add(env, st0, 0, Text("a")) == Did(st1, chunks[..2]);
    var st2 := st1.(items := map[0 := open.(text := "a")], sequence := 5);
    assert "" + "a"[0..] == "a";
    assert CatchUp(st1, 0, "a") == Did(st2, chunks[2..3]);
    assert Close(st2, 0, final.(id := id)) == Did(st, chunks[3..]);
    assert Complete(env, st1, 0, false, final) == Did(st, chunks[2..]) by {
      assert chunks[2..3] + chunks[3..] == chunks[2..];
    }
    assert chunks[..2] + chunks[2..] == chunks;
  }
}
