/**
  * Executing the tool calls of one reply, one after the other or all at once (agent_loop.py).
  *
  * The parallel batch is a protocol between its owner, which collects the results in source order, and the tasks it
  * started, which end when and how they like. Steps are what happens between two awaits.
  */
module ToolBatch {
  import opened TextCodecs
  import opened History

  /** What a tool returned, before and after the hooks. */
  datatype Reply = Reply(text: string, isError: bool)

  const NOT_STARTED := Reply("Tool execution cancelled", true)

  /** A call is answered by the preparation, or its tool is to be executed. */
  datatype Preparation = Immediate(reply: Reply) | Runnable

  datatype ResultMessage = ResultMessage(callId: string, reply: Reply)

  /** The hooks and executors of a host whose outcomes depend on the call alone. */
  datatype Host = Host(prepare: Call -> Preparation, execute: Call -> Reply, finalize: (Call, Reply) -> Reply)

  // ---- One after the other -----------------------------------------------------------------------------------

  /** How call `k` is prepared when the run's cancel flag is up from call `cancelled` on. */
  function Prepared(host: Host, calls: seq<Call>, cancelled: nat, k: nat): Preparation
    requires k < |calls|
  {
    if cancelled <= k then Immediate(NOT_STARTED) else host.prepare(calls[k])
  }

  /** The answer to call `k`. */
  function Answer(host: Host, calls: seq<Call>, cancelled: nat, k: nat): Reply
    requires k < |calls|
  {
    match Prepared(host, calls, cancelled, k)
    case Immediate(reply) => reply
    case Runnable => host.finalize(calls[k], host.execute(calls[k]))
  }

  /** One result for each call, in the order of the calls. */
  ghost predicate AnswersAll(host: Host, calls: seq<Call>, cancelled: nat, results: seq<ResultMessage>) {
    && |results| == |calls|
    && forall k | 0 <= k < |calls| :: results[k] == ResultMessage(calls[k].id, Answer(host, calls, cancelled, k))
  }

  /** `_execute_tool_calls_sequential` */
  method Sequential(host: Host, calls: seq<Call>, cancelled: nat) returns (results: seq<ResultMessage>)
    ensures AnswersAll(host, calls, cancelled, results)
    ensures forall k | cancelled <= k < |calls| :: results[k].reply == NOT_STARTED
  {
    results := [];
    for k := 0 to |calls|
      invariant |results| == k
      invariant forall j | 0 <= j < k :: results[j] == ResultMessage(calls[j].id, Answer(host, calls, cancelled, j))
    {
      if cancelled <= k {
        results := results + [ResultMessage(calls[k].id, NOT_STARTED)];
        continue;
      }
      var preparation := host.prepare(calls[k]);
      if preparation.Immediate? {
        results := results + [ResultMessage(calls[k].id, preparation.reply)];
      } else {
        var executed := host.execute(calls[k]);
        results := results + [ResultMessage(calls[k].id, host.finalize(calls[k], executed))];
      }
    }
  }

  // ---- All at once -------------------------------------------------------------------------------------------

  /** How a task ended. A tool that notices its cancellation still returns, with an interrupted reply. */
  datatype End = Returned(reply: Reply) | WasCancelled | Raised

  datatype Task = Running | Ended(end: End)

  /** What the owner is doing. `ok`: the results are complete; otherwise an exception is on its way. */
  datatype Owner =
    | Turn(call: nat)                    // about to emit, or awaiting the task of, this call
    | Finalizing(call: nat, reply: Reply)
    | Joining(ok: bool)                  // the finally clause
    | Left(ok: bool)

  /** `asked` are the tasks whose cancellation was requested. */
  datatype Batch = Batch(
    calls: seq<Call>,
    plan: seq<Preparation>,
    tasks: map<nat, Task>,
    asked: set<nat>,
    owner: Owner,
    results: seq<ResultMessage>)

  datatype Step =
    | TaskEnds(call: nat, end: End)      // at any time, in any order, asked to or not
    | Receive                            // the awaited task has ended
    | Emit(reply: Option<Reply>)         // an immediate outcome is emitted, or emitting it raises
    | Finalize(reply: Option<Reply>)     // hook and emission, or one of them raises
    | Finish                             // after the last call
    | OwnerCancelled                     // CancelledError in the owner, any number of times
    | Leave

  /** Every call was prepared, and every runnable one has its task. */
  function Started(calls: seq<Call>, plan: seq<Preparation>): Batch
    requires |plan| == |calls|
  {
    Batch(calls, plan, map k: nat | k < |plan| && plan[k].Runnable? :: Running, {}, Turn(0), [])
  }

  predicate AllEnded(w: Batch) {
    forall k | k in w.tasks :: w.tasks[k].Ended?
  }

  predicate Enabled(w: Batch, s: Step) {
    match s
    case TaskEnds(k, _) => k in w.tasks && w.tasks[k].Running?
    case Receive => w.owner.Turn? && w.owner.call in w.tasks && w.tasks[w.owner.call].Ended?
    case Emit(_) => w.owner.Turn? && w.owner.call < |w.plan| && w.plan[w.owner.call].Immediate?
    case Finalize(_) => w.owner.Finalizing? && w.owner.call < |w.calls|
    case Finish => w.owner == Turn(|w.calls|)
    case OwnerCancelled => !w.owner.Left?
    case Leave => w.owner.Joining? && AllEnded(w)
  }

  /** The tasks that still run. */
  function Busy(w: Batch): set<nat> {
    set k | k in w.tasks && w.tasks[k].Running?
  }

  /** The finally clause begins: what still runs is asked to stop. */
  function Join(w: Batch, ok: bool): Batch {
    w.(owner := Joining(ok), asked := w.asked + Busy(w))
  }

  function Collect(w: Batch, reply: Option<Reply>): Batch
    requires (w.owner.Turn? || w.owner.Finalizing?) && w.owner.call < |w.calls|
  {
    match reply
    case None => Join(w, false)
    case Some(r) => w.(owner := Turn(w.owner.call + 1), results := w.results + [ResultMessage(w.calls[w.owner.call].id, r)])
  }

  function Next(w: Batch, s: Step): Batch
    requires |w.plan| == |w.calls| && Enabled(w, s)
  {
    match s
    case TaskEnds(k, end) => w.(tasks := w.tasks[k := Ended(end)])
    case Receive =>
      (match w.tasks[w.owner.call].end
       case Returned(reply) => w.(owner := Finalizing(w.owner.call, reply))
       case _ => Join(w, false))
    case Emit(reply) => Collect(w, reply)
    case Finalize(reply) => Collect(w, reply)
    case Finish => Join(w, true)
    case OwnerCancelled => if w.owner.Joining? then w else Join(w, false)
    case Leave => w.(owner := Left(w.owner.ok))
  }

  predicate Allowed(w: Batch, steps: seq<Step>)
    requires |w.plan| == |w.calls|
    decreases |steps|
  {
    steps == [] || (Enabled(w, steps[0]) && Allowed(Next(w, steps[0]), steps[1..]))
  }

  function Run(w: Batch, steps: seq<Step>): Batch
    requires |w.plan| == |w.calls| && Allowed(w, steps)
    decreases |steps|
  {
    if steps == [] then w else Run(Next(w, steps[0]), steps[1..])
  }

  // ---- What every run keeps ------------------------------------------------------------------------------------

  /** How many calls have been answered, or all of them. */
  function Answered(w: Batch): nat {
    match w.owner
    case Turn(k) => k
    case Finalizing(k, _) => k
    case _ => |w.results|
  }

  ghost predicate Valid(w: Batch) {
    && |w.plan| == |w.calls|
    && (forall k: nat :: k in w.tasks <==> k < |w.plan| && w.plan[k].Runnable?)
    && |w.results| == Answered(w) <= |w.calls|
    && (forall k | 0 <= k < |w.results| :: w.results[k].callId == w.calls[k].id)
    && (forall k | k in w.tasks && k < |w.results| :: w.tasks[k].Ended?)
    && (w.owner.Finalizing? ==> w.owner.call in w.tasks && w.tasks[w.owner.call] == Ended(Returned(w.owner.reply)))
    && w.asked <= w.tasks.Keys
    && (w.owner.Turn? || w.owner.Finalizing? ==> w.asked == {})
    && (w.owner.Joining? || w.owner.Left? ==> forall k | k in w.tasks && w.tasks[k].Running? :: k in w.asked)
    && ((w.owner.Joining? || w.owner.Left?) && w.owner.ok ==> |w.results| == |w.calls| && w.asked == {})
    && (w.owner.Left? ==> AllEnded(w))
  }

  lemma StartedIsValid(calls: seq<Call>, plan: seq<Preparation>)
    requires |plan| == |calls|
    ensures Valid(Started(calls, plan))
  {
  }

  lemma StepKeepsValid(w: Batch, s: Step)
    requires Valid(w) && Enabled(w, s)
    ensures Valid(Next(w, s))
    ensures Next(w, s).calls == w.calls && Next(w, s).plan == w.plan
  {
    if (s.Emit? || s.Finalize?) && s.reply.Some? { CollectKeeps(w, s); }
  }

  lemma CollectKeeps(w: Batch, s: Step)
    requires Valid(w) && Enabled(w, s) && (s.Emit? || s.Finalize?) && s.reply.Some?
    ensures Valid(Next(w, s))
  {
    var k := w.owner.call;
    assert w.plan[k].Immediate? ==> k !in w.tasks;
    assert Next(w, s).results == w.results + [ResultMessage(w.calls[k].id, s.reply.value)];
  }

  /**
    * Over every run, whatever the tools, hooks and cancellations do: when the batch is left every task it started
    * has ended; a cancellation is requested only once an exception is on its way, and only of tasks of the batch;
    * and a batch that returns has one result for each call, in the order of the calls.
    */
  lemma {:induction false} EveryRunSettles(w: Batch, steps: seq<Step>)
    requires Valid(w) && Allowed(w, steps)
    ensures var e := Run(w, steps);
            && Valid(e) && e.calls == w.calls && e.plan == w.plan
            && (e.owner.Left? ==> AllEnded(e))
            && (e.asked != {} ==> (e.owner.Joining? || e.owner.Left?) && !e.owner.ok && e.asked <= e.tasks.Keys)
            && (e.owner.Left? && e.owner.ok ==>
                  |e.results| == |w.calls| && forall k | 0 <= k < |w.calls| :: e.results[k].callId == w.calls[k].id)
    decreases |steps|
  {
    hide Enabled, Next;
    if steps != [] {
      StepKeepsValid(w, steps[0]);
      EveryRunSettles(Next(w, steps[0]), steps[1..]);
    }
  }

  lemma OneEnds(w: Batch, k: nat, end: End)
    requires Valid(w) && w.owner.Joining? && k in w.tasks && w.tasks[k].Running?
    ensures |w.plan| == |w.calls| && Enabled(w, OwnerCancelled) && Next(w, OwnerCancelled) == w && Enabled(w, TaskEnds(k, end))
    ensures var w1 := Next(w, TaskEnds(k, end));
            && w1.owner == w.owner && w1.results == w.results && |Busy(w1)| < |Busy(w)|
            && forall j | j in w1.tasks && w1.tasks[j].Running? :: j in w.tasks && w.tasks[j].Running?
  {
    var w1 := Next(w, TaskEnds(k, end));
    assert k in Busy(w) && Busy(w1) == Busy(w) - {k};
  }

  lemma AllHaveEnded(w: Batch)
    requires Valid(w) && w.owner.Joining? && AllEnded(w)
    ensures |w.plan| == |w.calls|
    ensures var s := [OwnerCancelled, Leave];
            Allowed(w, s) && Run(w, s).owner == Left(w.owner.ok) && Run(w, s).results == w.results
  {
    var s := [OwnerCancelled, Leave];
    assert s[1..] == [Leave] && [Leave][1..] == [];
  }

  /** The owner cannot be held up: once the tasks end, however they end, the batch is left, cancellations or not. */
  lemma {:induction false} JoiningEnds(w: Batch, ends: map<nat, End>) returns (steps: seq<Step>)
    requires Valid(w) && w.owner.Joining? && forall k | k in w.tasks && w.tasks[k].Running? :: k in ends
    ensures |w.plan| == |w.calls|
    ensures Allowed(w, steps) && Run(w, steps).owner == Left(w.owner.ok) && Run(w, steps).results == w.results
    decreases |Busy(w)|
  {
    hide Valid, Next, Enabled, Busy;
    if AllEnded(w) {
      AllHaveEnded(w);
      steps := [OwnerCancelled, Leave];
    } else {
      var k :| k in w.tasks && !w.tasks[k].Ended?;
      OneEnds(w, k, ends[k]);
      StepKeepsValid(w, TaskEnds(k, ends[k]));
      var rest := JoiningEnds(Next(w, TaskEnds(k, ends[k])), ends);
      steps := [OwnerCancelled, TaskEnds(k, ends[k])] + rest;
      assert steps[1..] == [TaskEnds(k, ends[k])] + rest && steps[1..][1..] == rest;
    }
  }

  // ---- Every completion order gives the sequential results -----------------------------------------------------

  /** The first phase of `_execute_tool_calls_parallel`: the calls are prepared one after the other. */
  method PrepareAll(host: Host, calls: seq<Call>, cancelled: nat) returns (w: Batch)
    ensures |w.plan| == |calls| && w == Started(calls, w.plan) && Valid(w)
    ensures forall k | 0 <= k < |calls| :: w.plan[k] == Prepared(host, calls, cancelled, k)
  {
    var plan: seq<Preparation> := [];
    for k := 0 to |calls|
      invariant |plan| == k && forall j | 0 <= j < k :: plan[j] == Prepared(host, calls, cancelled, j)
    {
      if cancelled <= k {
        plan := plan + [Immediate(NOT_STARTED)];
        continue;
      }
      var preparation := host.prepare(calls[k]);
      plan := plan + [preparation];
    }
    w := Started(calls, plan);
    StartedIsValid(calls, plan);
  }

  /** The step is one of this host, nothing raises, and the owner is not cancelled while it collects. */
  predicate Undisturbed(host: Host, w: Batch, s: Step)
    requires |w.plan| == |w.calls| && Enabled(w, s)
  {
    match s
    case TaskEnds(k, end) => k < |w.calls| && end == Returned(host.execute(w.calls[k]))
    case Emit(reply) => reply == Some(w.plan[w.owner.call].reply)
    case Finalize(reply) => reply == Some(host.finalize(w.calls[w.owner.call], w.owner.reply))
    case OwnerCancelled => w.owner.Joining?
    case _ => true
  }

  predicate AllUndisturbed(host: Host, w: Batch, steps: seq<Step>)
    requires |w.plan| == |w.calls| && Allowed(w, steps)
    decreases |steps|
  {
    steps == [] || (Undisturbed(host, w, steps[0]) && AllUndisturbed(host, Next(w, steps[0]), steps[1..]))
  }

  /** So far every task did its own call, and every result is the answer to its call. */
  ghost predicate Following(host: Host, cancelled: nat, w: Batch) {
    && Valid(w)
    && (forall k | 0 <= k < |w.plan| :: w.plan[k] == Prepared(host, w.calls, cancelled, k))
    && (forall k | k in w.tasks && w.tasks[k].Ended? :: w.tasks[k].end == Returned(host.execute(w.calls[k])))
    && (forall k | 0 <= k < |w.results| :: w.results[k].reply == Answer(host, w.calls, cancelled, k))
    && (w.owner.Joining? || w.owner.Left? ==> w.owner.ok)
  }

  lemma StepFollows(host: Host, cancelled: nat, w: Batch, s: Step)
    requires Following(host, cancelled, w) && Enabled(w, s) && Undisturbed(host, w, s)
    ensures Following(host, cancelled, Next(w, s))
  {
    StepKeepsValid(w, s);
    hide Valid;
    if s.Emit? || s.Finalize? { CollectFollows(host, cancelled, w, s); }
  }

  lemma CollectFollows(host: Host, cancelled: nat, w: Batch, s: Step)
    requires Following(host, cancelled, w) && Enabled(w, s) && Undisturbed(host, w, s) && (s.Emit? || s.Finalize?)
    ensures Following(host, cancelled, Next(w, s))
  {
    StepKeepsValid(w, s);
    var k := w.owner.call;
    var w1 := Next(w, s);
    assert w1.results == w.results + [ResultMessage(w.calls[k].id, s.reply.value)];
    assert s.reply.value == Answer(host, w.calls, cancelled, k);
  }

  /**
    * When hooks and executors depend on the call alone and nothing disturbs the owner, every run that leaves the
    * batch returns, and returns what sequential execution returns, whatever the order in which the tasks ended.
    */
  lemma {:induction false} ParallelAsSequential(host: Host, cancelled: nat, w: Batch, steps: seq<Step>)
    requires Following(host, cancelled, w) && Allowed(w, steps) && AllUndisturbed(host, w, steps)
    ensures var e := Run(w, steps); e.owner.Left? ==> e.owner.ok && e.asked == {} && AnswersAll(host, w.calls, cancelled, e.results)
    decreases |steps|
  {
    hide Enabled, Next, Undisturbed;
    if steps != [] {
      StepFollows(host, cancelled, w, steps[0]);
      StepKeepsValid(w, steps[0]);
      ParallelAsSequential(host, cancelled, Next(w, steps[0]), steps[1..]);
    }
  }

  /** Both ways to execute one reply, side by side: any undisturbed run of the parallel one. */
  method BothWays(host: Host, calls: seq<Call>, cancelled: nat, schedule: seq<Step>) returns (w: Batch, results: seq<ResultMessage>)
    ensures |w.plan| == |w.calls|
    ensures Allowed(w, schedule) && AllUndisturbed(host, w, schedule) && Run(w, schedule).owner.Left? ==>
              Run(w, schedule).results == results && AllEnded(Run(w, schedule))
  {
    results := Sequential(host, calls, cancelled);
    w := PrepareAll(host, calls, cancelled);
    if Allowed(w, schedule) && AllUndisturbed(host, w, schedule) {
      ParallelAsSequential(host, cancelled, w, schedule);
      EveryRunSettles(w, schedule);
    }
  }
}
