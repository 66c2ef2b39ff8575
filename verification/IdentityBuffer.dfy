/** The buffer that holds reasoning back until it has an identity (proxy_responses.py, _reasoning_identity_events). */
module IdentityBuffer {
  import opened TextCodecs
  import opened ReasoningIds
  import opened ResponseSpec
  import ResponseIdentities

  /** One upstream event, and the state after it was observed. */
  datatype Seen = Seen(st: Stream, event: Event)

  /** Batch k is what the generator yields on event k; the buffer is what it still holds. */
  function Play(steps: seq<Seen>): (r: (seq<seq<Event>>, Buffer))
    ensures |r.0| == |steps|
  {
    if steps == [] then ([], Buffer([], {}))
    else
      var n := |steps| - 1;
      var (batches, b) := Play(steps[..n]);
      var (released, b1) := Hold(steps[n].st, b, steps[n].event);
      (batches + [released], b1)
  }

  function Concat(batches: seq<seq<Event>>): seq<Event> {
    if batches == [] then [] else Concat(batches[..|batches| - 1]) + batches[|batches| - 1]
  }

  function StripAll(events: seq<Event>): (r: seq<Event>)
    ensures |r| == |events|
  {
    seq(|events|, i requires 0 <= i < |events| => Strip(events[i]))
  }

  function Inputs(steps: seq<Seen>): seq<Event> {
    seq(|steps|, i requires 0 <= i < |steps| => steps[i].event)
  }

  lemma StripTwice(e: Event)
    ensures Strip(Strip(e)) == Strip(e)
  {
  }

  /**
    * Everything that came in goes out or is still held, in order. Nothing but the snapshot of a delta changes,
    * and an event whose snapshot was kept is passed on as it came.
    */
  lemma {:induction false} NothingIsLostOrReordered(steps: seq<Seen>)
    ensures var (batches, b) := Play(steps);
            StripAll(Concat(batches) + b.pending) == StripAll(Inputs(steps))
    ensures var (batches, b) := Play(steps);
            forall k | 0 <= k < |steps| ::
              var out := Concat(batches) + b.pending;
              k < |out| && (out[k] == steps[k].event || out[k] == Strip(steps[k].event))
  {
    if steps != [] {
      var n := |steps| - 1;
      var before, last := steps[..n], steps[n];
      NothingIsLostOrReordered(before);
      var (batches, b) := Play(before);
      var (released, b1) := Hold(last.st, b, last.event);
      var out, out1 := Concat(batches) + b.pending, Concat(batches + [released]) + b1.pending;
      assert (batches + [released])[..n] == batches;
      var x := OneMoreOut(last.st, b, last.event, Concat(batches));
      assert out1 == out + [x];
      StripAppend(out, x);
      StripAppend(Inputs(before), last.event);
      assert Inputs(steps) == Inputs(before) + [last.event];
      assert StripAll(out1) == StripAll(Inputs(steps));
      forall k | 0 <= k < |steps| ensures out1[k] == steps[k].event || out1[k] == Strip(steps[k].event) {
        if k < n { assert before[k] == steps[k]; }
      }
    }
  }

  lemma StripAppend(events: seq<Event>, e: Event)
    ensures StripAll(events + [e]) == StripAll(events) + [Strip(e)]
  {
  }

  /** One event in, one event more that is out or held. */
  lemma OneMoreOut(st: Stream, b: Buffer, e: Event, before: seq<Event>) returns (x: Event)
    ensures x == e || x == Strip(e)
    ensures Strip(x) == Strip(e)
    ensures var (released, b1) := Hold(st, b, e); before + released + b1.pending == before + b.pending + [x]
  {
    StripTwice(e);
    var (released, b1) := Hold(st, b, e);
    if b.pending == [] && released == [e] && b1.pending == [] {
      x := e;
    } else {
      x := Strip(e);
      assert released + b1.pending == b.pending + [x];
      assert before + released + b1.pending == before + (released + b1.pending);
    }
  }

  predicate ThinkingEvent(e: Event) {
    e.Block? && e.part.Thinking?
  }

  predicate EndsStream(e: Event) {
    e.Finished? || e.Errored?
  }

  /** By step `k` block `i` has an identity, or has ended under another protocol. */
  ghost predicate Settled(steps: seq<Seen>, k: nat, i: int)
    requires k < |steps|
  {
    i in steps[k].st.ids || exists j | 0 <= j <= k :: EndedElsewhere(steps[j].st, steps[j].event) && steps[j].event.index == i
  }

  /** Identities, once known, stay known. */
  ghost predicate IdsGrow(steps: seq<Seen>) {
    forall j, k | 0 <= j <= k < |steps| :: steps[j].st.ids.Keys <= steps[k].st.ids.Keys
  }

  /** No reasoning leaves the buffer before its block is settled or the stream ends. */
  lemma {:induction false} ReasoningWaitsForItsIdentity(steps: seq<Seen>)
    requires IdsGrow(steps)
    ensures var (batches, b) := Play(steps);
            && (forall k, p | 0 <= k < |steps| && p in batches[k] && ThinkingEvent(p) ::
                  EndsStream(steps[k].event) || Settled(steps, k, p.index))
            && (forall p | p in b.pending && ThinkingEvent(p) ::
                  p.index in b.unresolved || Settled(steps, |steps| - 1, p.index))
            && (b.pending != [] ==> b.unresolved != {})
  {
    if steps != [] {
      var n := |steps| - 1;
      var before, last := steps[..n], steps[n];
      assert IdsGrow(before);
      ReasoningWaitsForItsIdentity(before);
      var (batches, b) := Play(before);
      var (released, b1) := Hold(last.st, b, last.event);
      var all := batches + [released];
      forall k, p | 0 <= k < |steps| && p in all[k] && ThinkingEvent(p)
        ensures EndsStream(steps[k].event) || Settled(steps, k, p.index)
      {
        if k < n {
          assert p in batches[k];
          assert EndsStream(before[k].event) || Settled(before, k, p.index);
        } else {
          HeldSettled(steps, b, p, b1);
        }
      }
      forall p | p in b1.pending && ThinkingEvent(p) ensures p.index in b1.unresolved || Settled(steps, n, p.index) {
        HeldSettled(steps, b, p, b1);
      }
    }
  }

  lemma HeldSettled(steps: seq<Seen>, b: Buffer, p: Event, b1: Buffer)
    requires steps != [] && IdsGrow(steps) && ThinkingEvent(p)
    requires var n := |steps| - 1;
             && b1 == Hold(steps[n].st, b, steps[n].event).1
             && (p in b.pending || p == steps[n].event || p == Strip(steps[n].event))
             && (p in b.pending ==> p.index in b.unresolved || (n > 0 && Settled(steps[..n], n - 1, p.index)))
    ensures var n := |steps| - 1;
            EndsStream(steps[n].event) || p.index in b1.unresolved || Settled(steps, n, p.index)
  {
    var n := |steps| - 1;
    var before, last := steps[..n], steps[n];
    if p in b.pending && p.index !in b.unresolved {
      if p.index in before[n - 1].st.ids {
        assert steps[n - 1].st.ids.Keys <= last.st.ids.Keys;
      } else {
        var j :| 0 <= j <= n - 1 && EndedElsewhere(before[j].st, before[j].event) && before[j].event.index == p.index;
        assert EndedElsewhere(steps[j].st, steps[j].event) && steps[j].event.index == p.index;
      }
    } else if !EndsStream(last.event) && p.index !in Unresolved(last.st, b, last.event) {
      assert p.index in last.st.ids || (EndedElsewhere(last.st, last.event) && last.event.index == p.index);
    }
  }

  // ---- The steps of a real run ------------------------------------------------------------------------------

  /** What the generator sees while the stream runs on `events`: each event with the state after observing it. */
  function Steps(env: Env, st: Stream, b: Buffer, events: seq<Event>): seq<Seen>
    requires Coherent(st)
    decreases |events|
  {
    if events == [] then [] else
      ObserveCoherent(env, st, events[0]);
      match Observe(env, st, events[0])
      case Conflict => []
      case Seen(st1) =>
        var (released, b1) := Hold(st1, b, events[0]);
        HandleAllCoherent(env, st1, released);
        [Seen.Seen(st1, events[0])] +
        (match HandleAll(env, st1, released)
         case Next(st2, _) => Steps(env, st2, b1, events[1..])
         case _ => [])
  }

  /** In a real run identities only grow, from the first state on. */
  lemma {:induction false} RunIdsGrow(env: Env, st: Stream, b: Buffer, events: seq<Event>)
    requires Coherent(st)
    ensures IdsGrow(Steps(env, st, b, events))
    ensures forall k | 0 <= k < |Steps(env, st, b, events)| :: st.ids.Keys <= Steps(env, st, b, events)[k].st.ids.Keys
    decreases |events|
  {
    hide Observe, HandleAll, Hold, Coherent;
    if events != [] {
      ObserveCoherent(env, st, events[0]);
      ResponseIdentities.NeverRebound(env, st, events[0]);
      var o := Observe(env, st, events[0]);
      if o.Seen? {
        forall i | i in st.ids ensures i in o.st.ids { assert !ResponseIdentities.Rebinds(st, o.st); }
        var (released, b1) := Hold(o.st, b, events[0]);
        HandleAllCoherent(env, o.st, released);
        var h := HandleAll(env, o.st, released);
        if h.Next? {
          ResponseIdentities.HandleAllIds(env, o.st, released);
          RunIdsGrow(env, h.st, b1, events[1..]);
        }
      }
    }
  }

  /** So in every run no reasoning event leaves the buffer before its block is settled or the stream ends. */
  lemma RunWaitsForIdentity(env: Env, events: seq<Event>)
    ensures Coherent(START.(sequence := 2))
    ensures var steps := Steps(env, START.(sequence := 2), Buffer([], {}), events);
            var (batches, b) := Play(steps);
            forall k, p | 0 <= k < |steps| && p in batches[k] && ThinkingEvent(p) :: EndsStream(steps[k].event) || Settled(steps, k, p.index)
  {
    assert Coherent(START.(sequence := 2));
    RunIdsGrow(env, START.(sequence := 2), Buffer([], {}), events);
    ReasoningWaitsForItsIdentity(Steps(env, START.(sequence := 2), Buffer([], {}), events));
  }
}
