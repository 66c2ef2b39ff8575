/** The results a tool batch returns, as the messages the run records (agent_loop.py, agent.py). */
module ToolResults {
  import opened TextCodecs
  import opened History
  import opened AgentRun
  import Tools = ToolBatch

  /** The content of a result. */
  function PartsOf(reply: Tools.Reply): seq<Part> {
    [Text(reply.text, "")]
  }

  /** The message of the `k`-th result. */
  function MessageOf(call: Call, result: Tools.ResultMessage): Message {
    Result(Call(result.callId, call.name), PartsOf(result.reply))
  }

  function Messages(calls: seq<Call>, results: seq<Tools.ResultMessage>): (r: seq<Message>)
    requires |results| <= |calls|
    ensures |r| == |results|
  {
    seq(|results|, k requires 0 <= k < |results| => MessageOf(calls[k], results[k]))
  }

  /** What the run sees of a batch that was left: its results, and, when it raised, perhaps one that was recorded and not returned. */
  predicate Reports(batch: Batch, e: Tools.Batch) {
    && e.owner.Left?
    && |e.results| <= |batch.outcomes|
    && (forall k | 0 <= k < |e.results| :: batch.outcomes[k].parts == PartsOf(e.results[k].reply))
    && (batch.early.None? <==> e.owner.ok)
    && (batch.early.Some? ==> |e.results| <= batch.early.value.done <= Smaller(|e.results| + 1, |e.calls|))
  }

  function Smaller(a: nat, b: nat): nat {
    if a < b then a else b
  }

  /** What of a batch is recorded. */
  function Recorded(calls: seq<Call>, batch: Batch): seq<Message> {
    Results(calls, Padded(batch, |calls|))[..Emitted(batch, |calls|)]
  }

  lemma FirstRecorded(calls: seq<Call>, batch: Batch, results: seq<Tools.ResultMessage>)
    requires |results| <= Emitted(batch, |calls|) && |results| <= |batch.outcomes|
    requires forall k | 0 <= k < |results| :: results[k].callId == calls[k].id
    requires forall k | 0 <= k < |results| :: batch.outcomes[k].parts == PartsOf(results[k].reply)
    ensures |Recorded(calls, batch)| == Emitted(batch, |calls|) && Recorded(calls, batch)[..|results|] == Messages(calls, results)
  {
    forall k | 0 <= k < |results| ensures Recorded(calls, batch)[k] == Messages(calls, results)[k] {
      assert calls[k] == Call(results[k].callId, calls[k].name);
    }
  }

  /** A valid batch that was left has a result for each of its calls when it returned. */
  lemma LeftResults(e: Tools.Batch)
    requires Tools.Valid(e) && e.owner.Left?
    ensures |e.results| <= |e.calls| && (e.owner.ok ==> |e.results| == |e.calls|)
    ensures forall k | 0 <= k < |e.results| :: e.results[k].callId == e.calls[k].id
  {
  }

  /** In every run of a batch the returned results are recorded, in order, before anything else of the batch. */
  lemma ResultsAreRecorded(e: Tools.Batch, batch: Batch)
    requires Tools.Valid(e) && Reports(batch, e)
    ensures |e.results| <= |e.calls| && Messages(e.calls, e.results) <= Recorded(e.calls, batch)
    ensures |Recorded(e.calls, batch)| <= |e.results| + 1
    ensures e.owner.ok ==> Recorded(e.calls, batch) == Messages(e.calls, e.results) && |e.results| == |e.calls|
    ensures LeftEarly(batch, |e.calls|) <==> !e.owner.ok
  {
    LeftResults(e);
    hide Tools.Valid;
    FirstRecorded(e.calls, batch, e.results);
  }

  /**
    * From the start of a batch, whatever its tools, hooks and cancellations do: once it is left every started task
    * has ended; if it returned the run records its results and no call is open, otherwise the round throws with the
    * results so far recorded.
    */
  lemma BatchIsRecorded(m: Memory, turn: Turn, h: seq<Message>, reply: Message, plan: seq<Tools.Preparation>, steps: seq<Tools.Step>)
    requires reply.Assistant? && m.canonical == h + [reply] && Calls(reply) != [] && |plan| == |Calls(reply)|
    requires Tools.Allowed(Tools.Started(Calls(reply), plan), steps)
    requires Reports(turn.batch, Tools.Run(Tools.Started(Calls(reply), plan), steps))
    ensures var e := Tools.Run(Tools.Started(Calls(reply), plan), steps); var t := AnswerSpec(m, turn, Calls(reply));
            && Tools.AllEnded(e) && e.calls == Calls(reply) && |e.results| <= |e.calls|
            && m.canonical + Messages(e.calls, e.results) <= t.memory.canonical
            && (e.owner.ok ==> |e.results| == |e.calls| && (NoneOpen(h) ==> NoneOpen(m.canonical + Messages(e.calls, e.results))))
            && (!e.owner.ok ==> t.round.Throws? && !t.round.inputRejected && |t.memory.canonical| <= |m.canonical| + |e.results| + 1)
  {
    hide Tools.Valid, Tools.Run, Tools.Allowed, Tools.Started, Results, Padded, NoneOpen, CallsIn, Reports, Messages;
    var calls := Calls(reply);
    Tools.StartedIsValid(calls, plan);
    StartedCalls(calls, plan);
    Tools.EveryRunSettles(Tools.Started(calls, plan), steps);
    var e := Tools.Run(Tools.Started(calls, plan), steps);
    LeftOwner(turn.batch, e);
    ResultsAreRecorded(e, turn.batch);
    if e.owner.ok && NoneOpen(h) {
      AllResults(calls, turn.batch);
      BatchCloses(h, reply, Padded(turn.batch, |calls|));
    }
  }

  lemma StartedCalls(calls: seq<Call>, plan: seq<Tools.Preparation>)
    requires |plan| == |calls|
    ensures Tools.Started(calls, plan).calls == calls
  {
  }

  lemma LeftOwner(batch: Batch, e: Tools.Batch)
    requires Reports(batch, e)
    ensures e.owner.Left?
  {
  }

  /** The history after an undisturbed parallel batch is the one after the sequential batch, whatever the order in which the tasks end. */
  lemma HistoryIgnoresOrder(host: Tools.Host, cancelled: nat, w: Tools.Batch, steps: seq<Tools.Step>, one: Batch,
                            results: seq<Tools.ResultMessage>)
    requires Tools.Following(host, cancelled, w) && Tools.Allowed(w, steps) && Tools.AllUndisturbed(host, w, steps)
    requires Tools.AnswersAll(host, w.calls, cancelled, results) && Reports(one, Tools.Run(w, steps))
    ensures |results| == |w.calls| && Recorded(w.calls, one) == Messages(w.calls, results)
  {
    hide Tools.Valid, Tools.Run, Tools.Allowed, Tools.AllUndisturbed, Recorded, Messages, Tools.Answer;
    FollowingIsValid(host, cancelled, w);
    Tools.EveryRunSettles(w, steps);
    Tools.ParallelAsSequential(host, cancelled, w, steps);
    ResultsAreRecorded(Tools.Run(w, steps), one);
    SameAnswers(host, w.calls, cancelled, Tools.Run(w, steps).results, results);
  }

  lemma FollowingIsValid(host: Tools.Host, cancelled: nat, w: Tools.Batch)
    requires Tools.Following(host, cancelled, w)
    ensures Tools.Valid(w)
  {
  }

  lemma SameAnswers(host: Tools.Host, calls: seq<Call>, cancelled: nat, a: seq<Tools.ResultMessage>, b: seq<Tools.ResultMessage>)
    requires Tools.AnswersAll(host, calls, cancelled, a) && Tools.AnswersAll(host, calls, cancelled, b)
    ensures a == b
  {
    hide Tools.Answer;
  }
}
