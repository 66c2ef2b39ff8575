/** The stream object and the loop that drives it, statement by statement (proxy_responses.py). */
module ResponseStream {
  import opened TextCodecs
  import opened ReasoningIds
  import opened ResponseSpec
  import opened ResponseLaws

  /** What a call yields, or an exception. */
  datatype Yielded = Yields(chunks: seq<Chunk>) | Raises

  predicate Agrees(y: Yielded, s: Step) {
    if s.Did? then y == Yields(s.chunks) else y.Raises?
  }

  /** `add`, put together: nothing for a known block, an exception for a bad identity, otherwise the announcement. */
  lemma AddShape(env: Env, st: Stream, index: int, part: Part)
    ensures var made := OutputItem(env.codec, env.tools, part, true, env.generate(st.drawn));
      if index in st.items then ResponseSpec.Add(env, st, index, part) == Did(st, [])
      else if made.Invalid? then ResponseSpec.Add(env, st, index, part) == Raised(st)
      else
        var item := Bare(if part.Thinking? && index in st.ids then made.value.(id := env.codec.clientId(st.ids[index])) else made.value);
        ResponseSpec.Add(env, st, index, part) == Did(
          st.(drawn := st.drawn + 1,
              items := st.items[index := item.(block := true)],
              indices := st.indices[index := |st.output|],
              output := st.output + [index],
              sequence := st.sequence + if HasBlocks(item.kind) then 2 else 1),
          [Chunk(st.sequence, ItemAdded(|st.output|, item))]
          + (if HasBlocks(item.kind) then [Chunk(st.sequence + 1, PartAdded(|st.output|, item.id))] else []))
  {
    hide OutputItem, Bare;
  }

  class ResponseStream {
    const env: Env
    var items: map<int, OutItem>
    var indices: map<int, nat>
    var closed: set<int>
    var sequence: nat
    var reasoningIds: map<int, string>
    var reasoningParts: map<int, Part>
    var output: seq<int>
    var drawn: nat

    function State(): Stream
      reads this
    {
      Stream(items, indices, closed, sequence, reasoningIds, reasoningParts, output, drawn)
    }

    constructor (env: Env)
      ensures State() == START && this.env == env && Coherent(State())
    {
      this.env := env;
      items, indices, closed, sequence, reasoningIds, reasoningParts, output, drawn := map[], map[], {}, 0, map[], map[], [], 0;
    }

    method Event(body: Body) returns (c: Chunk)
      modifies `sequence
      ensures c == Chunk(old(sequence), body) && sequence == old(sequence) + 1
    {
      c := Chunk(sequence, body);
      sequence := sequence + 1;
    }

    method NewId() returns (id: string)
      modifies `drawn
      ensures id == env.generate(old(drawn)) && drawn == old(drawn) + 1
    {
      id := env.generate(drawn);
      drawn := drawn + 1;
    }

    method Add(index: int, part: Part) returns (r: Yielded)
      requires Coherent(State())
      modifies this
      ensures Agrees(r, ResponseSpec.Add(env, old(State()), index, part))
      ensures State() == ResponseSpec.Add(env, old(State()), index, part).st
      ensures Coherent(State()) && (r.Yields? ==> index in items)
    {
      hide Coherent, OutputItem, Bare, HasBlocks, ResponseSpec.Add;
      ghost var start := State();
      AddShape(env, start, index, part);
      AddCoherent(env, start, index, part);
      if index in items { return Yields([]); }
      var made := OutputItem(env.codec, env.tools, part, true, env.generate(drawn));
      if made.Invalid? { return Raises; }
      var id := NewId();
      var item := made.value;
      if part.Thinking? && index in reasoningIds {
        item := item.(id := env.codec.clientId(reasoningIds[index]));
      }
      var chunks := Announce(index, Bare(item));
      return Yields(chunks);
    }

    /** The item is announced empty; from then on it has the block its deltas go to. */
    method Announce(index: int, item: OutItem) returns (chunks: seq<Chunk>)
      modifies this
      ensures chunks == [Chunk(old(sequence), ItemAdded(|old(output)|, item))]
                     + (if HasBlocks(item.kind) then [Chunk(old(sequence) + 1, PartAdded(|old(output)|, item.id))] else [])
      ensures State() == old(State()).(
        items := old(items)[index := item.(block := true)],
        indices := old(indices)[index := |old(output)|],
        output := old(output) + [index],
        sequence := old(sequence) + if HasBlocks(item.kind) then 2 else 1)
    {
      items := items[index := item];
      indices := indices[index := |output|];
      output := output + [index];
      var first := Event(ItemAdded(indices[index], item));
      chunks := [first];
      if HasBlocks(item.kind) {
        var second := Event(PartAdded(indices[index], item.id));
        chunks := chunks + [second];
      }
      items := items[index := item.(block := true)];
      assert items == old(items)[index := item.(block := true)];
    }

    method Delta(index: int, delta: string) returns (r: Yielded)
      requires Coherent(State()) && index in items
      modifies this
      ensures Agrees(r, Grow(old(State()), index, delta))
      ensures State() == Grow(old(State()), index, delta).st && Coherent(State())
      ensures items.Keys == old(items.Keys)
    {
      GrowTables(State(), index, delta);
      SameTablesCoherent(State(), Grow(State(), index, delta).st);
      var item := items[index];
      if !Streams(item.kind) { return Yields([]); }
      if !item.block { return Raises; }
      items := items[index := item.(text := item.text + delta)];
      var c := Event(Body.Delta(indices[index], item.id, delta));
      return Yields([c]);
    }

    /** The text catches up with the final text by one more delta, if it can. */
    method CatchUpText(index: int, text: string) returns (r: Yielded)
      requires Coherent(State()) && index in items
      modifies this
      ensures Agrees(r, CatchUp(old(State()), index, text))
      ensures State() == CatchUp(old(State()), index, text).st && Coherent(State())
      ensures items.Keys == old(items.Keys)
    {
      hide Grow, Coherent;
      Tables();
      var item := items[index];
      if item.text <= text && item.text != text {
        var rest := text[|item.text|..];
        assert rest == Extension(item.text, text) && rest != "";
        if item.kind == CustomCall {
          ghost var start := State();
          var c := Event(Body.Delta(indices[index], item.id, rest));
          SameTablesCoherent(start, State());
          return Yields([c]);
        }
        r := Delta(index, rest);
      } else {
        assert Extension(item.text, text) == "";
        r := Yields([]);
      }
    }

    /** The block takes its final form and is closed. */
    method CloseItem(index: int, final: OutItem) returns (dones: seq<Chunk>)
      requires Coherent(State()) && index in items
      modifies this
      ensures index in old(State()).indices
      ensures Close(old(State()), index, final) == Did(State(), dones) && Coherent(State())
    {
      hide Coherent;
      Tables();
      ghost var start := State();
      var item := Updated(items[index], final);
      items := items[index := item];
      var c0 := Event(TextDone(indices[index], item.id, item.text));
      dones := [c0];
      if HasBlocks(item.kind) {
        var c1 := Event(PartDone(indices[index], item.id, item.text));
        dones := dones + [c1];
      }
      var c2 := Event(ItemDone(indices[index], item));
      dones := dones + [c2];
      closed := closed + {index};
      CloseTables(start, index, final);
      SameTablesCoherent(start, State());
    }

    /** Every announced block has its output index. */
    lemma Tables()
      requires Coherent(State())
      ensures closed <= items.Keys == indices.Keys
    {
    }

    /** The end of `finish`: the text catches up, the item takes its final form, the block is closed. */
    method Complete(index: int, thinking: bool, given: OutItem) returns (r: Yielded)
      requires Coherent(State()) && index in items
      modifies this
      ensures index in old(State()).indices
      ensures Agrees(r, ResponseSpec.Complete(env, old(State()), index, thinking, given))
      ensures State() == ResponseSpec.Complete(env, old(State()), index, thinking, given).st && Coherent(State())
    {
      hide Coherent, CatchUp, Close;
      Tables();
      ghost var start := State();
      var item := items[index];
      if thinking && index in reasoningIds && given.id != item.id { return Raises; }
      var final := given.(id := item.id);
      if item.kind == SearchCall {
        item := Updated(item, final);
        items := items[index := item];
        var c := Event(ItemDone(indices[index], item));
        closed := closed + {index};
        CloseTables(start, index, final);
        SameTablesCoherent(start, State());
        return Yields([c]);
      }
      if final.kind != item.kind { return Raises; }
      var extended := CatchUpText(index, final.text);
      if extended.Raises? { return Raises; }
      var dones := CloseItem(index, final);
      return Yields(extended.chunks + dones);
    }

    method Finish(index: int, given: Part) returns (r: Yielded)
      requires Coherent(State())
      modifies this
      ensures old(closed <= items.Keys == indices.Keys)
      ensures Agrees(r, ResponseSpec.Finish(env, old(State()), index, given))
      ensures State() == ResponseSpec.Finish(env, old(State()), index, given).st && Coherent(State())
    {
      hide ResponseSpec.Add, ResponseSpec.Complete, Resolved, OutputItem, Coherent;
      Tables();
      FinishCoherent(env, State(), index, given);
      ghost var start := State();
      var part := Resolved(State(), index, given);
      var made := OutputItem(env.codec, env.tools, part, false, env.generate(drawn));
      if made.Invalid? { return Raises; }
      drawn := drawn + 1;
      var final := made.value;
      ClosedKnown(start);
      assert State() == start.(drawn := start.drawn + 1);
      if index in closed {
        if part.Thinking? && final.encrypted.Some? {
          if final.id != items[index].id { return Raises; }
          items := items[index := items[index].(encrypted := final.encrypted)];
        }
        return Yields([]);
      }
      var added := Add(index, part);
      if added.Raises? { return Raises; }
      Tables();
      var rest := Complete(index, part.Thinking?, final);
      if rest.Raises? { return Raises; }
      return Yields(added.chunks + rest.chunks);
    }

    lemma OutputKnown()
      requires Coherent(State())
      ensures forall k | 0 <= k < |output| :: output[k] in items
    {
      forall k | 0 <= k < |output| ensures output[k] in items { assert output[k] in indices; }
    }

    method Terminal(content: seq<Part>, status: Stop) returns (r: Yielded)
      requires Coherent(State())
      modifies this
      ensures forall k | 0 <= k < old(|output|) :: old(output)[k] in old(items)
      ensures Agrees(r, Conclude(env, old(State()), content, status))
      ensures State() == Conclude(env, old(State()), content, status).st && Coherent(State())
      ensures content == [] ==> r.Yields?
    {
      hide Coherent;
      OutputKnown();
      ghost var st := State();
      for k := 0 to |content|
        invariant State() == st
        invariant forall j | 0 <= j < k :: OutputItem(env.codec, map[], content[j], false, "").Accepted?
      {
        if OutputItem(env.codec, map[], content[k], false, "").Invalid? {
          assert content[k] in content;
          return Raises;
        }
      }
      var last: seq<OutItem> := [];
      for k := 0 to |output|
        invariant State() == st
        invariant |last| == k && forall j | 0 <= j < k :: last[j] == items[output[j]]
      {
        last := last + [items[output[k]]];
      }
      assert last == seq(|st.output|, k requires 0 <= k < |st.output| => st.items[st.output[k]]);
      SameTablesCoherent(st, st.(sequence := st.sequence + 1));
      var c := Event(Body.Terminal(status, last));
      return Yields([c]);
    }

    method Remember(index: int, part: Part, finalized: bool) returns (conflict: bool)
      modifies `reasoningIds, `reasoningParts
      ensures var o := ResponseSpec.Remember(env, old(State()), index, part, finalized);
              if o.Seen? then !conflict && State() == o.st else conflict && State() == old(State())
    {
      if finalized && Identified(part) {
        var id := part.signature.id.value;
        if (index in reasoningIds && reasoningIds[index] != id)
           || (index in items && items[index].id != env.codec.clientId(id)) {
          return true;
        }
        reasoningIds := reasoningIds[index := id];
        reasoningParts := reasoningParts[index := part];
      } else if index !in reasoningIds {
        reasoningParts := reasoningParts[index := part];
      }
      return false;
    }

    method ObserveReasoning(e: Event) returns (conflict: bool)
      requires Coherent(State())
      modifies `reasoningIds, `reasoningParts
      ensures var o := Observe(env, old(State()), e);
              if o.Seen? then !conflict && State() == o.st else conflict
      ensures Coherent(State())
      ensures items == old(items) && output == old(output) && sequence == old(sequence)
    {
      var message := MessageOf(e);
      if message.Some? {
        var content := message.value.content;
        for k := 0 to |content|
          invariant RememberAll(env, State(), e, content, k) == RememberAll(env, old(State()), e, content, 0)
        {
          if content[k].Thinking? {
            var clash := Remember(k, content[k], Finalizes(e, k));
            if clash { return true; }
          }
        }
      }
      if ThinkingDone(e) && (e.part.signature != Missing || message.None?) {
        conflict := Remember(e.index, e.part, true);
      } else {
        conflict := false;
      }
    }

    /** The body of the main loop for one event; `stop` says that the stream is over. */
    method HandleEvent(e: Event) returns (out: seq<Chunk>, stop: bool, raised: bool)
      requires Coherent(State())
      modifies this
      ensures Coherent(State())
      ensures var h := Handle(env, old(State()), e);
              && out == h.chunks && stop == h.Stopped? && raised == h.Broken?
              && (!stop ==> State() == h.st)
    {
      HandleCoherent(env, State(), e);
      out, stop, raised := [], false, false;
      match e
      case Notice(_) =>
      case Finished(message, status) =>
        var content := if message.Some? then message.value.content else [];
        out, stop, raised := FinishAllParts(content, status);
      case Errored(message) =>
        var t := Terminal(if message.Some? then message.value.content else [], Failed);
        if t.Raises? { raised := true; } else { out, stop := t.chunks, true; }
      case Block(phase, index, part, delta, _) =>
        if phase == Ended {
          var f := Finish(index, FinalPart(e));
          if f.Raises? { raised := true; } else { out := f.chunks; }
        } else {
          var a := Add(index, part);
          if a.Raises? { return [], false, true; }
          out := a.chunks;
          if phase == Grew {
            var d := Delta(index, delta);
            if d.Raises? { raised := true; } else { out := out + d.chunks; }
          }
        }
    }

    /** The done event: every part is finished, then the terminal chunk. */
    method FinishAllParts(content: seq<Part>, status: Stop) returns (out: seq<Chunk>, stop: bool, raised: bool)
      requires Coherent(State())
      modifies this
      ensures Coherent(State())
      ensures var h := FinishAll(env, old(State()), content, 0, status);
              out == h.chunks && stop == h.Stopped? && raised == h.Broken? && (!stop ==> State() == h.st)
    {
      hide ResponseSpec.Finish, Conclude, Coherent;
      out := [];
      for k := 0 to |content|
        invariant Coherent(State())
        invariant FinishAll(env, old(State()), content, 0, status) == Before(out, FinishAll(env, State(), content, k, status))
      {
        var f := Finish(k, content[k]);
        if f.Raises? { return out, false, true; }
        BeforeTwice(out, f.chunks, FinishAll(env, State(), content, k + 1, status));
        out := out + f.chunks;
      }
      var t := Terminal(content, status);
      if t.Raises? {
        assert out + [] == out;
        return out, false, true;
      }
      return out + t.chunks, true, false;
    }

    /** The exception handler. */
    method FailNow() returns (out: seq<Chunk>)
      requires Coherent(State())
      modifies this
      ensures out == Fail(env, old(State()))
    {
      var t := Terminal([], Failed);
      out := t.chunks;
    }
  }

  lemma BeforeTwice(a: seq<Chunk>, b: seq<Chunk>, h: Handled)
    ensures Before(a, Before(b, h)) == Before(a + b, h)
  {
    assert a + (b + h.chunks) == a + b + h.chunks;
  }

  /** Hands the released events to the main loop until one ends the stream or raises. */
  method HandleReleased(s: ResponseStream, events: seq<Event>) returns (out: seq<Chunk>, stop: bool, raised: bool)
    requires Coherent(s.State())
    modifies s
    ensures Coherent(s.State())
    ensures var h := HandleAll(s.env, old(s.State()), events);
            out == h.chunks && stop == h.Stopped? && raised == h.Broken? && (!stop ==> s.State() == h.st)
  {
    hide Handle;
    out := [];
    for k := 0 to |events|
      invariant Coherent(s.State())
      invariant HandleAll(s.env, old(s.State()), events) == Before(out, HandleAll(s.env, s.State(), events[k..]))
    {
      assert events[k..][1..] == events[k + 1..];
      ghost var st := s.State();
      var chunks, over, broken := s.HandleEvent(events[k]);
      if over || broken { return out + chunks, over, broken; }
      ghost var rest := HandleAll(s.env, s.State(), events[k + 1..]);
      assert out + chunks + rest.chunks == out + (chunks + rest.chunks);
      out := out + chunks;
    }
    assert out + [] == out;
    return out, false, false;
  }

  /** Released events are handled; an exception is answered with the failed terminal chunk. */
  method Deliver(s: ResponseStream, released: seq<Event>) returns (out: seq<Chunk>, over: bool)
    requires Coherent(s.State())
    modifies s
    ensures !over ==> Coherent(s.State())
    ensures var h := HandleAll(s.env, old(s.State()), released);
            && over == !h.Next?
            && (h.Stopped? ==> out == h.chunks)
            && (h.Broken? ==> Coherent(h.st) && out == h.chunks + Fail(s.env, h.st))
            && (h.Next? ==> out == h.chunks && s.State() == h.st)
  {
    hide HandleAll, Conclude;
    var chunks, stop, raised := HandleReleased(s, released);
    out, over := chunks, stop || raised;
    if raised && !stop {
      var failed := s.FailNow();
      out := chunks + failed;
    }
  }

  /** `stream_to_sse`: everything the client receives when the upstream sends `events` and then ends or raises. */
  method StreamToSse(env: Env, events: seq<Event>, raises: bool) returns (log: seq<Chunk>)
    ensures log == Sse(env, events, raises)
  {
    hide HandleAll, Hold, Observe, Conclude;
    var s := new ResponseStream(env);
    var c0 := s.Event(Created);
    var c1 := s.Event(InProgress);
    log := [c0, c1];
    var pending: seq<ResponseSpec.Event>, unresolved: set<int> := [], {};
    assert s.State() == START.(sequence := 2) && events[0..] == events;
    for k := 0 to |events|
      invariant s.env == env && fresh(s) && Coherent(s.State())
      invariant Sse(env, events, raises) == log + Drive(env, s.State(), Buffer(pending, unresolved), events[k..], raises)
    {
      assert events[k..][1..] == events[k + 1..];
      ghost var st := s.State();
      var conflict := s.ObserveReasoning(events[k]);
      if conflict {
        SameFail(env, st, s.State());
        var failed := s.FailNow();
        return log + failed;
      }
      var (released, held) := Hold(s.State(), Buffer(pending, unresolved), events[k]);
      pending, unresolved := held.pending, held.unresolved;
      var chunks, over := Deliver(s, released);
      if over { return log + chunks; }
      ghost var rest := Drive(env, s.State(), held, events[k + 1..], raises);
      assert log + chunks + rest == log + (chunks + rest);
      log := log + chunks;
    }
    assert events[|events|..] == [];
    var tail := Finally(s, pending, unresolved, raises);
    return log + tail;
  }

  /** What follows the last event: what is still held, unless the upstream raised, and the failed terminal chunk. */
  method Finally(s: ResponseStream, pending: seq<Event>, unresolved: set<int>, raises: bool) returns (out: seq<Chunk>)
    requires Coherent(s.State())
    modifies s
    ensures out == Drive(s.env, old(s.State()), Buffer(pending, unresolved), [], raises)
  {
    hide HandleAll, Conclude;
    if raises {
      out := s.FailNow();
      return;
    }
    var over;
    out, over := Deliver(s, pending);
    if !over {
      var failed := s.FailNow();
      out := out + failed;
    }
  }

  /** The failed terminal chunk shows the announced items, which observing does not touch. */
  lemma SameFail(env: Env, a: Stream, b: Stream)
    requires Coherent(a) && Coherent(b)
    requires b.items == a.items && b.output == a.output && b.sequence == a.sequence
    ensures Fail(env, a) == Fail(env, b)
  {
    forall k | 0 <= k < |a.output| ensures a.output[k] in a.items { assert a.output[k] in a.indices; }
    var x := seq(|a.output|, k requires 0 <= k < |a.output| => a.items[a.output[k]]);
    var y := seq(|b.output|, k requires 0 <= k < |b.output| => b.items[b.output[k]]);
    assert x == y;
  }
}
