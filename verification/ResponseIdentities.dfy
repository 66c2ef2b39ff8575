/** Late-bound reasoning identities: which events conflict with what is known, and what a conflict does to the stream. */
module ResponseIdentities {
  import opened TextCodecs
  import opened ReasoningIds
  import opened ResponseSpec
  import opened ResponseLaws

  // ---- One event ---------------------------------------------------------------------------------------------

  /** The identity a final part brings clashes with what is known or announced of its block. */
  predicate Clashes(env: Env, st: Stream, index: int, part: Part) {
    Identified(part) && var id := part.signature.id.value;
      (index in st.ids && st.ids[index] != id) || (index in st.items && st.items[index].id != env.codec.clientId(id))
  }

  ghost predicate Differ(p: Part, q: Part) {
    Identified(p) && Identified(q) && p.signature.id.value != q.signature.id.value
  }

  /** The event declares a final part that clashes, or declares two final parts of one block with different identities. */
  ghost predicate Conflicts(env: Env, st: Stream, e: Event) {
    || (exists index, part :: Declares(e, index, part) && Clashes(env, st, index, part))
    || (exists index, p, q :: Declares(e, index, p) && Declares(e, index, q) && Differ(p, q))
  }

  function KnownId(st: Stream, index: int): Option<string> {
    if index in st.ids then Some(st.ids[index]) else None
  }

  /** The identity a final thinking part at `index` of the content from `from` on brings. */
  function BroughtId(e: Event, content: seq<Part>, from: nat, index: int): Option<string> {
    if from <= index < |content| && Finalizes(e, index) && Identified(content[index]) then content[index].signature.id else None
  }

  /** What `b` knows beyond `a` are the identities of the final thinking parts `content[from..]`. */
  ghost predicate Learned(a: Stream, b: Stream, e: Event, content: seq<Part>, from: nat) {
    && b.items == a.items
    && forall i :: KnownId(b, i) == if BroughtId(e, content, from, i).Some? then BroughtId(e, content, from, i) else KnownId(a, i)
  }

  lemma RememberExactly(env: Env, st: Stream, index: int, part: Part, finalized: bool)
    ensures var o := Remember(env, st, index, part, finalized);
            && (o.Conflict? <==> finalized && Clashes(env, st, index, part))
            && (o.Seen? ==>
                  && o.st.items == st.items
                  && (forall i | i != index :: KnownId(o.st, i) == KnownId(st, i))
                  && KnownId(o.st, index) == if finalized && Identified(part) then part.signature.id else KnownId(st, index))
  {
  }

  /** Clashing is a matter of the announced item and the known identity of the block alone. */
  lemma ClashesBy(env: Env, a: Stream, b: Stream, index: int, part: Part)
    requires a.items == b.items && KnownId(a, index) == KnownId(b, index)
    ensures Clashes(env, a, index, part) <==> Clashes(env, b, index, part)
  {
  }

  ghost predicate ClashFrom(env: Env, st: Stream, e: Event, content: seq<Part>, from: nat) {
    exists i :: from <= i < |content| && Finalizes(e, i) && Clashes(env, st, i, content[i])
  }

  lemma {:induction false} RememberAllExactly(env: Env, st: Stream, e: Event, content: seq<Part>, from: nat)
    requires from <= |content|
    ensures var o := RememberAll(env, st, e, content, from);
            && (o.Conflict? <==> ClashFrom(env, st, e, content, from))
            && (o.Seen? ==> Learned(st, o.st, e, content, from))
    decreases |content| - from
  {
    hide Remember, Clashes, KnownId, Finalizes;
    if from < |content| {
      var part := content[from];
      if !part.Thinking? { PlainNeverClashes(env, st, from, part); }
      RememberExactly(env, st, from, part, Finalizes(e, from));
      var o := if part.Thinking? then Remember(env, st, from, part, Finalizes(e, from)) else Seen(st);
      if o.Seen? {
        RememberAllExactly(env, o.st, e, content, from + 1);
        forall i | from < i < |content| ensures Clashes(env, o.st, i, content[i]) <==> Clashes(env, st, i, content[i]) {
          ClashesBy(env, o.st, st, i, content[i]);
        }
        assert ClashFrom(env, o.st, e, content, from + 1) <==> ClashFrom(env, st, e, content, from);
      }
    }
  }

  lemma PlainNeverClashes(env: Env, st: Stream, index: int, part: Part)
    requires !part.Thinking?
    ensures !Identified(part) && !Clashes(env, st, index, part)
  {
  }

  /** The fields of a thinking_done event are looked at after its snapshot, and only if they carry a signature. */
  lemma OwnPartExactly(env: Env, st: Stream, st1: Stream, e: Event, content: seq<Part>)
    requires ThinkingDone(e) && Learned(st, st1, e, content, 0)
    requires !ClashFrom(env, st, e, content, 0)
    ensures Clashes(env, st1, e.index, e.part) <==>
              || Clashes(env, st, e.index, e.part)
              || (0 <= e.index < |content| && Differ(content[e.index], e.part))
  {
    assert KnownId(st1, e.index) == if BroughtId(e, content, 0, e.index).Some? then BroughtId(e, content, 0, e.index) else KnownId(st, e.index);
    if 0 <= e.index < |content| { assert Finalizes(e, e.index) ==> !Clashes(env, st, e.index, content[e.index]); }
  }

  /** `observe_reasoning` raises exactly on a conflicting event, wherever in the event the identities stand. */
  lemma ConflictExactly(env: Env, st: Stream, e: Event)
    ensures Observe(env, st, e).Conflict? <==> Conflicts(env, st, e)
  {
    hide RememberAll;
    var message := MessageOf(e);
    var content := if message.Some? then message.value.content else [];
    RememberAllExactly(env, st, e, content, 0);
    DeclaredHere(e, content);
    var o := RememberAll(env, st, e, content, 0);
    if message.None? { NothingRemembered(env, st, e); }
    if o.Conflict? {
      var i :| 0 <= i < |content| && Finalizes(e, i) && Clashes(env, st, i, content[i]);
      assert Declares(e, i, content[i]);
    } else if ThinkingDone(e) {
      OwnPartExactly(env, st, o.st, e, content);
      assert Declares(e, e.index, e.part);
      if 0 <= e.index < |content| && Differ(content[e.index], e.part) {
        assert Declares(e, e.index, content[e.index]);
      }
    }
  }

  lemma NothingRemembered(env: Env, st: Stream, e: Event)
    ensures RememberAll(env, st, e, [], 0) == Seen(st)
  {
  }

  lemma DeclaredHere(e: Event, content: seq<Part>)
    requires content == if MessageOf(e).Some? then MessageOf(e).value.content else []
    ensures forall index, part :: Declares(e, index, part) && Identified(part) ==>
              || (0 <= index < |content| && content[index] == part && Finalizes(e, index))
              || (ThinkingDone(e) && e.index == index && e.part == part)
    ensures forall i :: 0 <= i < |content| && Identified(content[i]) && Finalizes(e, i) ==> Declares(e, i, content[i])
  {
  }

  /** Some identity known in `a` is lost or different in `b`. */
  predicate Rebinds(a: Stream, b: Stream) {
    exists i :: i in a.ids && (i !in b.ids || b.ids[i] != a.ids[i])
  }

  lemma {:induction false} RememberAllNeverRebinds(env: Env, st: Stream, e: Event, content: seq<Part>, from: nat)
    requires from <= |content|
    ensures var o := RememberAll(env, st, e, content, from); o.Seen? ==> !Rebinds(st, o.st) && o.st.items == st.items
    decreases |content| - from
  {
    if from < |content| {
      var o := if content[from].Thinking? then Remember(env, st, from, content[from], Finalizes(e, from)) else Seen(st);
      if o.Seen? { RememberAllNeverRebinds(env, o.st, e, content, from + 1); }
    }
  }

  /** No event changes an identity that is known, or an announced item; and what it declares is known afterwards. */
  lemma NeverRebound(env: Env, st: Stream, e: Event)
    ensures var o := Observe(env, st, e);
            o.Seen? ==> !Rebinds(st, o.st) && o.st.items == st.items
                        && forall index, part | Declares(e, index, part) && Identified(part) ::
                             KnownId(o.st, index) == part.signature.id
  {
    hide RememberAll;
    var message := MessageOf(e);
    var content := if message.Some? then message.value.content else [];
    RememberAllNeverRebinds(env, st, e, content, 0);
    if message.None? { NothingRemembered(env, st, e); }
    var o := Observe(env, st, e);
    if o.Seen? {
      forall index, part | Declares(e, index, part) && Identified(part) ensures KnownId(o.st, index) == part.signature.id {
        DeclaredIsLearned(env, st, e, index, part);
      }
    }
  }

  lemma DeclaredIsLearned(env: Env, st: Stream, e: Event, index: int, part: Part)
    requires Declares(e, index, part) && Identified(part) && Observe(env, st, e).Seen?
    ensures KnownId(Observe(env, st, e).st, index) == part.signature.id
  {
    hide RememberAll;
    var message := MessageOf(e);
    var content := if message.Some? then message.value.content else [];
    if message.None? { NothingRemembered(env, st, e); }
    RememberAllExactly(env, st, e, content, 0);
    DeclaredHere(e, content);
    var o := RememberAll(env, st, e, content, 0);
    assert BroughtId(e, content, 0, index).Some? ==> KnownId(o.st, index) == BroughtId(e, content, 0, index);
    if ThinkingDone(e) { RememberExactly(env, o.st, e.index, e.part, true); }
  }

  // ---- Whole runs ----------------------------------------------------------------------------------------------

  /** How far a stream got: still running, with the chunks so far, or over. */
  datatype Progress = Running(st: Stream, buffer: Buffer, chunks: seq<Chunk>) | Over(chunks: seq<Chunk>)

  /** The stream after these events, if it is still running then. */
  function After(env: Env, st: Stream, b: Buffer, events: seq<Event>): (p: Progress)
    requires Coherent(st)
    ensures p.Running? ==> Coherent(p.st)
    decreases |events|
  {
    if events == [] then Running(st, b, [])
    else
      ObserveCoherent(env, st, events[0]);
      match Observe(env, st, events[0])
      case Conflict => Over(Fail(env, st))
      case Seen(st1) =>
        var (released, b1) := Hold(st1, b, events[0]);
        HandleAllCoherent(env, st1, released);
        match HandleAll(env, st1, released)
        case Stopped(chunks) => Over(chunks)
        case Broken(st2, chunks) => Over(chunks + Fail(env, st2))
        case Next(st2, chunks) =>
          var p := After(env, st2, b1, events[1..]);
          p.(chunks := chunks + p.chunks)
  }

  lemma {:induction false} DriveOn(env: Env, st: Stream, b: Buffer, before: seq<Event>, rest: seq<Event>, raises: bool)
    requires Coherent(st)
    ensures var p := After(env, st, b, before);
            Drive(env, st, b, before + rest, raises) ==
              if p.Running? then p.chunks + Drive(env, p.st, p.buffer, rest, raises) else p.chunks
    decreases |before|
  {
    if before == [] {
      assert before + rest == rest;
    } else {
      assert (before + rest)[0] == before[0] && (before + rest)[1..] == before[1..] + rest;
      ObserveCoherent(env, st, before[0]);
      var o := Observe(env, st, before[0]);
      if o.Seen? {
        var (released, b1) := Hold(o.st, b, before[0]);
        HandleAllCoherent(env, o.st, released);
        var h := HandleAll(env, o.st, released);
        if h.Next? { DriveOn(env, h.st, b1, before[1..], rest, raises); }
      }
    }
  }

  const BEGIN := START.(sequence := 2)
  const NOTHING_HELD := Buffer([], {})

  /** The stream of `stream_to_sse` after these events. */
  function Sofar(env: Env, events: seq<Event>): Progress {
    After(env, BEGIN, NOTHING_HELD, events)
  }

  /**
    * A conflicting event ends a running stream as failed: nothing of it or of what follows is seen, nothing
    * announced changes, and the client gets exactly what it gets when the upstream breaks off just before it.
    */
  lemma ConflictEndsStream(env: Env, before: seq<Event>, e: Event, rest: seq<Event>, raises: bool)
    requires var p := Sofar(env, before); p.Running? && Conflicts(env, p.st, e)
    ensures var p := Sofar(env, before);
            var log := Sse(env, before + [e] + rest, raises);
            && log == Sse(env, before, true)
            && (forall k | 0 <= k < |p.st.output| :: p.st.output[k] in p.st.items)
            && log == OPENING + p.chunks + [Chunk(p.st.sequence, Terminal(Failed,
                 seq(|p.st.output|, k requires 0 <= k < |p.st.output| => p.st.items[p.st.output[k]])))]
  {
    hide Conflicts, After, Handle;
    var p := Sofar(env, before);
    ConflictExactly(env, p.st, e);
    assert before + [e] + rest == before + ([e] + rest) && before + [] == before;
    DriveOn(env, BEGIN, NOTHING_HELD, before, [e] + rest, raises);
    DriveOn(env, BEGIN, NOTHING_HELD, before, [], true);
    assert ([e] + rest)[0] == e;
    hide Observe;
    forall k | 0 <= k < |p.st.output| ensures p.st.output[k] in p.st.items { assert p.st.output[k] in p.st.indices; }
  }

  lemma AddIds(env: Env, st: Stream, index: int, part: Part)
    requires Coherent(st)
    ensures Coherent(Add(env, st, index, part).st) && Add(env, st, index, part).st.ids == st.ids
  {
    AddCoherent(env, st, index, part);
  }

  /** Handling an event leaves the identities alone. */
  lemma HandleIds(env: Env, st: Stream, e: Event)
    requires Coherent(st)
    ensures Handle(env, st, e).Next? ==> Handle(env, st, e).st.ids == st.ids
  {
    hide FinalPart, Finish, Add, Grow, FinishAll, Conclude, Coherent;
    match e
    case Block(phase, index, part, delta, _) =>
      if phase == Ended {
        FinishIds(env, st, index, FinalPart(e));
      } else {
        AddIds(env, st, index, part);
        AddCoherent(env, st, index, part);
        var added := Add(env, st, index, part);
        ClosedKnown(added.st);
        if added.Did? { GrowTables(added.st, index, delta); }
      }
    case Finished(message, stop) =>
      FinishAllCoherent(env, st, if message.Some? then message.value.content else [], 0, stop);
    case _ =>
  }

  lemma {:induction false} HandleAllIds(env: Env, st: Stream, events: seq<Event>)
    requires Coherent(st)
    ensures HandleAll(env, st, events).Next? ==> HandleAll(env, st, events).st.ids == st.ids
    decreases |events|
  {
    hide Handle;
    if events != [] {
      HandleIds(env, st, events[0]);
      HandleCoherent(env, st, events[0]);
      var h := Handle(env, st, events[0]);
      if h.Next? { HandleAllIds(env, h.st, events[1..]); }
    }
  }

  /** An identity once known stays known. */
  lemma {:induction false} KnownStays(env: Env, st: Stream, b: Buffer, events: seq<Event>, index: int)
    requires Coherent(st) && index in st.ids
    ensures var p := After(env, st, b, events); p.Running? ==> index in p.st.ids && p.st.ids[index] == st.ids[index]
    decreases |events|
  {
    hide HandleAll, Observe, Hold;
    if events != [] {
      ObserveCoherent(env, st, events[0]);
      var o := Observe(env, st, events[0]);
      if o.Seen? {
        NeverRebound(env, st, events[0]);
        var (released, b1) := Hold(o.st, b, events[0]);
        HandleAllCoherent(env, o.st, released);
        HandleAllIds(env, o.st, released);
        var h := HandleAll(env, o.st, released);
        if h.Next? { KnownStays(env, h.st, b1, events[1..], index); }
      }
    }
  }

  lemma {:induction false} AfterSplit(env: Env, st: Stream, b: Buffer, before: seq<Event>, rest: seq<Event>)
    requires Coherent(st)
    ensures var p, q := After(env, st, b, before), After(env, st, b, before + rest);
            if p.Over? then q == p
            else q == var r := After(env, p.st, p.buffer, rest); r.(chunks := p.chunks + r.chunks)
    decreases |before|
  {
    hide HandleAll, Observe, Hold;
    if before == [] {
      assert before + rest == rest;
      var r := After(env, st, b, rest);
      assert [] + r.chunks == r.chunks;
    } else {
      assert (before + rest)[0] == before[0] && (before + rest)[1..] == before[1..] + rest;
      ObserveCoherent(env, st, before[0]);
      var o := Observe(env, st, before[0]);
      if o.Seen? {
        var (released, b1) := Hold(o.st, b, before[0]);
        HandleAllCoherent(env, o.st, released);
        var h := HandleAll(env, o.st, released);
        if h.Next? {
          AfterSplit(env, h.st, b1, before[1..], rest);
          var p := After(env, h.st, b1, before[1..]);
          if p.Running? {
            var r := After(env, p.st, p.buffer, rest);
            assert h.chunks + (p.chunks + r.chunks) == h.chunks + p.chunks + r.chunks;
          }
        }
      }
    }
  }

  /** What an event declared is known to the stream that is still running after it. */
  lemma DeclaredIsKnown(env: Env, st: Stream, b: Buffer, e: Event, index: int, part: Part)
    requires Coherent(st) && Declares(e, index, part) && Identified(part)
    ensures var p := After(env, st, b, [e]); p.Running? ==> KnownId(p.st, index) == part.signature.id
  {
    hide HandleAll, Observe, Hold, Declares;
    ObserveCoherent(env, st, e);
    NeverRebound(env, st, e);
    var o := Observe(env, st, e);
    if o.Seen? {
      var (released, b1) := Hold(o.st, b, e);
      HandleAllCoherent(env, o.st, released);
      HandleAllIds(env, o.st, released);
      assert [e][1..] == [];
    }
  }

  /**
    * An upstream that declares two identities for one block, in whatever events and fields, never gets past
    * the second: the stream is over by then, or ends there as failed.
    */
  lemma TwoIdentitiesFail(env: Env, before: seq<Event>, e: Event, between: seq<Event>, f: Event, rest: seq<Event>, raises: bool,
                          index: int, p: Part, q: Part)
    requires Declares(e, index, p) && Declares(f, index, q) && Differ(p, q)
    ensures var sofar := Sofar(env, before + [e] + between);
            || sofar.Over?
            || Sse(env, before + [e] + between + [f] + rest, raises) == Sse(env, before + [e] + between, true)
  {
    hide After, Declares, Sse, Conflicts;
    var events := before + [e] + between;
    AfterSplit(env, BEGIN, NOTHING_HELD, before, [e] + between);
    assert before + ([e] + between) == events;
    var a := Sofar(env, before);
    if a.Running? {
      AfterSplit(env, a.st, a.buffer, [e], between);
      DeclaredIsKnown(env, a.st, a.buffer, e, index, p);
      var c := After(env, a.st, a.buffer, [e]);
      if c.Running? {
        KnownStays(env, c.st, c.buffer, between, index);
        var d := Sofar(env, events);
        if d.Running? {
          SecondConflicts(env, d.st, f, index, p, q);
          ConflictEndsStream(env, events, f, rest, raises);
        }
      }
    }
  }

  lemma SecondConflicts(env: Env, st: Stream, f: Event, index: int, p: Part, q: Part)
    requires index in st.ids && Identified(p) && st.ids[index] == p.signature.id.value
    requires Declares(f, index, q) && Differ(p, q)
    ensures Conflicts(env, st, f)
  {
    assert Clashes(env, st, index, q);
  }
}
