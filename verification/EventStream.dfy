/** The bounded event stream, one atomic step between two awaits at a time (event_stream.py). */
module EventStream {
  import opened TextCodecs

  datatype Sending = Admitted | Waits | Dropped

  datatype Reading<E> = Yielded(event: E) | Sleeps | Finished | Failure

  /** Where the consumer's iteration stands. */
  datatype Position = Ordinary | Cleanup | Over

  class Stream<E> {
    const capacity: nat // 0 is unbounded
    var queue: seq<E>
    var cleanup: seq<E>
    var final: Option<E>
    var closed: bool
    var failed: bool
    var space: bool
    var ready: bool
    var senders: set<nat>    // waiting on the space flag
    var consumer: bool       // waiting on the ready flag
    var position: Position

    ghost var admitted: seq<E>
    ghost var observed: seq<E>  // cleanup events that were reserved
    ghost var ending: seq<E>    // the final event, once it was reserved
    ghost var seen: seq<E>      // what the consumer got, in order

    /**
      * The buffer is bounded. What the consumer saw is a prefix of the admitted events, then of the cleanup
      * events, then the final one. A cleared flag tells the truth, and only cleared flags are waited on.
      */
    ghost predicate Valid()
      reads this
    {
      && (capacity > 0 ==> |queue| <= capacity)
      && |observed| <= 3 && |ending| <= 1
      && (position.Ordinary? ==> seen + queue == admitted && cleanup == observed && ending == Reserved(final))
      && (position.Cleanup? ==> closed && queue == [] && seen + cleanup == admitted + observed && |cleanup| <= |observed| && ending == Reserved(final))
      && (position.Over? ==> closed && queue == [] && cleanup == [] && final == None && seen == admitted + observed + ending)
      && (!space ==> !closed && capacity > 0 && |queue| == capacity)
      && (!ready ==> !closed && queue == [])
      && (senders != {} ==> !space)
      && (consumer ==> !ready)
    }

    static function Reserved<T>(f: Option<T>): seq<T> {
      if f.Some? then [f.value] else []
    }

    constructor (capacity: nat)
      ensures Valid() && this.capacity == capacity && !closed && admitted == observed == ending == seen == []
    {
      this.capacity := capacity;
      queue, cleanup, final, closed, failed, space, ready := [], [], None, false, false, true, false;
      senders, consumer, position := {}, false, Ordinary;
      admitted, observed, ending, seen := [], [], [], [];
    }

    /** Setting a flag wakes everyone who waits on it. */
    method SetSpace()
      modifies `space, `senders
      ensures space && senders == {}
    {
      space, senders := true, {};
    }

    method SetReady()
      modifies `ready, `consumer
      ensures ready && !consumer
    {
      ready, consumer := true, false;
    }

    /** `send_sync`; false is its QueueFull. */
    method SendSync(event: E) returns (ok: bool)
      requires Valid()
      modifies this
      ensures Valid() && closed == old(closed)
      ensures ok <==> old(closed) || capacity == 0 || |old(queue)| < capacity
      ensures admitted == if ok && !old(closed) then old(admitted) + [event] else old(admitted)
      ensures seen == old(seen) && observed == old(observed) && ending == old(ending) && senders == old(senders)
      ensures old(consumer) && ok && !closed ==> !consumer
    {
      if closed { return true; }
      if capacity > 0 && |queue| >= capacity { return false; }
      queue := queue + [event];
      admitted := admitted + [event];
      assert seen + queue == admitted;
      SetReady();
      return true;
    }

    /** One attempt of `send`: it waits while the stream is open and full, and is tried again when it is woken. */
    method Send(sender: nat, event: E) returns (r: Sending)
      requires Valid() && sender !in senders
      modifies this
      ensures Valid() && closed == old(closed)
      ensures r == if old(closed) then Dropped else if capacity > 0 && |old(queue)| == capacity then Waits else Admitted
      ensures admitted == if r.Admitted? then old(admitted) + [event] else old(admitted)
      ensures senders == if r.Waits? then old(senders) + {sender} else old(senders)
      ensures seen == old(seen) && observed == old(observed) && ending == old(ending)
    {
      if !closed && capacity > 0 && |queue| >= capacity {
        space := false;
        senders := senders + {sender};
        return Waits;
      }
      if closed { return Dropped; }
      var ok := SendSync(event);
      return Admitted;
    }

    /** A waiting sender is cancelled. */
    method CancelSender(sender: nat)
      requires Valid()
      modifies `senders
      ensures Valid() && senders == old(senders) - {sender}
    {
      senders := senders - {sender};
    }

    /** `send_cleanup`; false is its QueueFull. */
    method SendCleanup(event: E) returns (ok: bool)
      requires Valid()
      modifies `cleanup, `observed
      ensures Valid()
      ensures observed == if ok && !closed then old(observed) + [event] else old(observed)
      ensures ok <==> closed || |old(observed)| < 3
    {
      if closed { return true; }
      if |cleanup| >= 3 { return false; }
      cleanup := cleanup + [event];
      observed := observed + [event];
      return true;
    }

    /** `send_final`: the first one is kept. */
    method SendFinal(event: E)
      requires Valid()
      modifies `final, `ending
      ensures Valid() && ending == if closed || old(ending) != [] then old(ending) else [event]
    {
      if closed || final.Some? { return; }
      final := Some(event);
      ending := [event];
    }

    /** `end` and `fail` */
    method End(failure: bool)
      requires Valid()
      modifies `closed, `failed, `space, `ready, `senders, `consumer
      ensures Valid() && closed && senders == {} && !consumer
      ensures failed == if old(closed) then old(failed) else old(failed) || failure
    {
      if !closed {
        failed := failed || failure;
        closed := true;
        SetReady();
        SetSpace();
      }
    }

    /** One step of `_iterate`: the consumer asks for the next event. */
    method Next() returns (r: Reading<E>)
      requires Valid() && !consumer
      modifies this
      ensures Valid()
      ensures admitted == old(admitted) && observed == old(observed) && ending == old(ending) && closed == old(closed)
      ensures seen == if r.Yielded? then old(seen) + [r.event] else old(seen)
      ensures r.Sleeps? <==> !closed && old(seen) == admitted
      ensures r.Finished? || r.Failure? ==> closed && seen == admitted + observed + ending && (r.Failure? <==> failed)
      ensures consumer <==> r.Sleeps?
      ensures r.Yielded? && !closed ==> senders == {}
    {
      if position.Ordinary? && queue != [] {
        var item := queue[0];
        queue := queue[1..];
        assert seen + [item] + queue == seen + ([item] + queue);
        seen := seen + [item];
        SetSpace();
        return Yielded(item);
      }
      if position.Ordinary? && !closed {
        assert seen + [] == seen;
        ready := false;
        consumer := true;
        return Sleeps;
      }
      if position.Ordinary? {
        assert seen + [] == seen;
        position := Cleanup;
      }
      if position.Cleanup? && cleanup != [] {
        var item := cleanup[0];
        assert seen + cleanup == seen + [item] + cleanup[1..];
        cleanup := cleanup[1..];
        seen := seen + [item];
        return Yielded(item);
      }
      if position.Cleanup? {
        assert seen + [] == seen;
        position := Over;
        if final.Some? {
          var item := final.value;
          final := None;
          seen := seen + [item];
          return Yielded(item);
        }
      }
      assert admitted + observed + [] == admitted + observed;
      return if failed then Failure else Finished;
    }
  }

  /**
    * What the class invariant means for the consumer: at any time it has seen the admitted events in order, then
    * cleanup events, at most three, then the one final event; the later ones only after all of the earlier.
    */
  ghost predicate InOrder<E(!new)>(s: Stream<E>)
    reads s
  {
    s.seen <= s.admitted + s.observed + s.ending
  }

  lemma SeenInOrder<E(!new)>(s: Stream<E>)
    requires s.Valid()
    ensures InOrder(s)
    ensures |s.seen| > |s.admitted| ==> s.closed
    ensures |s.admitted| - |s.seen| <= |s.queue|
  {
    match s.position
    case Ordinary =>
      assert s.seen <= s.admitted;
      assert s.admitted <= s.admitted + s.observed + s.ending;
    case Cleanup =>
      assert s.seen <= s.admitted + s.observed;
      assert s.admitted + s.observed <= s.admitted + s.observed + s.ending;
    case Over =>
  }

  /** No wakeup is lost: whoever still waits has a reason to. */
  lemma NoLostWakeup<E>(s: Stream<E>)
    requires s.Valid()
    ensures s.senders != {} ==> !s.closed && |s.queue| == s.capacity
    ensures s.consumer ==> !s.closed && s.queue == []
  {
  }

  // ---- Any acts in any order -----------------------------------------------------------------------------------

  /** What the producers, the owner and the consumer do next; nobody acts while it waits. */
  datatype Act<E> =
    | DoSend(sender: nat, event: E) | DoSendSync(event: E) | DoCancelSender(sender: nat)
    | DoCleanup(event: E) | DoFinal(event: E) | DoEnd(failure: bool) | DoNext

  /** A stream without flags, waiters and buffers: what was admitted and reserved, and how many of these were taken. */
  datatype Log<E> = Log(sent: seq<E>, extra: seq<E>, last: seq<E>, taken: nat, closed: bool, over: bool)

  /** What can be taken so far: the reserved events only once the stream is closed. */
  function Open<E>(l: Log<E>): seq<E> {
    if l.closed then l.sent + l.extra + l.last else l.sent
  }

  function After<E>(capacity: nat, l: Log<E>, act: Act<E>): Log<E> {
    if act.DoNext? then
      if l.taken < |Open(l)| then l.(taken := l.taken + 1) else l.(over := l.over || l.closed)
    else if l.closed then l
    else if act.DoSend? || act.DoSendSync? then
      if capacity == 0 || |l.sent| - l.taken < capacity then l.(sent := l.sent + [act.event]) else l
    else if act.DoCleanup? then if |l.extra| < 3 then l.(extra := l.extra + [act.event]) else l
    else if act.DoFinal? then if l.last == [] then l.(last := [act.event]) else l
    else l.(closed := act.DoEnd?)
  }

  function AfterAll<E>(capacity: nat, acts: seq<Act<E>>): Log<E> {
    if acts == [] then Log([], [], [], 0, false, false)
    else After(capacity, AfterAll(capacity, acts[..|acts| - 1]), acts[|acts| - 1])
  }

  ghost function View<E>(s: Stream<E>, over: bool): Log<E>
    reads s
  {
    Log(s.admitted, s.observed, s.ending, |s.seen|, s.closed, over)
  }

  /** Whoever waits does so while the log has nothing for it to do. */
  lemma WaitersHaveNothingToDo<E(!new)>(s: Stream<E>)
    requires s.Valid()
    ensures !s.closed ==> |s.admitted| - |s.seen| == |s.queue|
    ensures s.consumer ==> !s.closed && |s.seen| == |s.admitted|
    ensures s.senders != {} ==> !s.closed && s.capacity > 0 && |s.admitted| - |s.seen| == s.capacity
    ensures !s.closed ==> s.ending == Stream<E>.Reserved(s.final) && s.cleanup == s.observed
  {
  }

  method PerformSend<E(!new)>(s: Stream<E>, act: Act<E>, ghost over: bool)
    requires s.Valid() && (act.DoSend? || act.DoSendSync?)
    modifies s
    ensures s.Valid() && View(s, over) == After(s.capacity, old(View(s, over)), act) && s.seen == old(s.seen)
  {
    WaitersHaveNothingToDo(s);
    if act.DoSendSync? {
      var ok := s.SendSync(act.event);
    } else if act.sender !in s.senders {
      var r := s.Send(act.sender, act.event);
    }
  }

  method PerformOwner<E(!new)>(s: Stream<E>, act: Act<E>, ghost over: bool)
    requires s.Valid() && (act.DoCancelSender? || act.DoCleanup? || act.DoFinal? || act.DoEnd?)
    modifies s
    ensures s.Valid() && View(s, over) == After(s.capacity, old(View(s, over)), act) && s.seen == old(s.seen)
  {
    WaitersHaveNothingToDo(s);
    match act {
      case DoCancelSender(sender) => s.CancelSender(sender);
      case DoCleanup(event) => var ok := s.SendCleanup(event);
      case DoFinal(event) => s.SendFinal(event);
      case DoEnd(failure) => s.End(failure);
    }
  }

  method PerformNext<E(!new)>(s: Stream<E>, before: bool) returns (got: seq<E>, over: bool)
    requires s.Valid()
    modifies s
    ensures s.Valid() && View(s, over) == After(s.capacity, old(View(s, before)), DoNext) && s.seen == old(s.seen) + got
  {
    WaitersHaveNothingToDo(s);
    got, over := [], before;
    if !s.consumer {
      var r := s.Next();
      SeenInOrder(s);
      if r.Yielded? { got := [r.event]; }
      over := over || r.Finished? || r.Failure?;
    }
  }

  /**
    * Any acts in any order on a new stream come to the same as on the plain log: no flag, waiter or buffer loses,
    * doubles or reorders an event. The consumer gets the admitted events in order, then the cleanup events, then the
    * final one; all of them by the end of the iteration; and it is never behind by more than the capacity.
    */
  method Scenario<E(!new)>(capacity: nat, acts: seq<Act<E>>) returns (got: seq<E>, over: bool)
    ensures var l := AfterAll(capacity, acts);
            && got <= l.sent + l.extra + l.last && |got| == l.taken && over == l.over
            && |l.extra| <= 3 && |l.last| <= 1
            && (over ==> got == l.sent + l.extra + l.last)
            && (capacity > 0 ==> |l.sent| <= |got| + capacity)
  {
    var s := new Stream<E>(capacity);
    got, over := [], false;
    for k := 0 to |acts|
      invariant fresh(s) && s.Valid() && s.capacity == capacity
      invariant View(s, over) == AfterAll(capacity, acts[..k]) && s.seen == got
      invariant over ==> s.closed && got == s.admitted + s.observed + s.ending
    {
      assert acts[..k + 1][..k] == acts[..k] && acts[..k + 1][k] == acts[k];
      if acts[k].DoNext? {
        var more;
        more, over := PerformNext(s, over);
        SeenInOrder(s);
        got := got + more;
      } else if acts[k].DoSend? || acts[k].DoSendSync? {
        PerformSend(s, acts[k], over);
      } else {
        PerformOwner(s, acts[k], over);
      }
    }
    assert acts[..|acts|] == acts;
    SeenInOrder(s);
  }
}
