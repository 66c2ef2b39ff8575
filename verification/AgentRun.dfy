/**
  * The Agent's run: one history it owns, one the loop works on, and the model requests made from them
  * (agent_loop.py, agent.py).
  */
module AgentRun {
  import opened TextCodecs
  import opened History
  import opened Compaction

  // ---- What the outside world does during a run ------------------------------------------------------

  /** What leaves the loop early: an exception, or a cancellation, which is not an `Exception`. */
  datatype Failure = Exception | Cancellation

  /**
    * Messages a queue hands over; or their preparation raises, which rejects them; or recording them raises after
    * some were recorded.
    */
  datatype Poll = Ready(messages: seq<Message>) | Rejected(failure: Failure) | Raising(recorded: seq<Message>, failure: Failure)

  /** The prompts of a run; or all of them were handled on the way in, and there is nothing to run for. */
  datatype Prompts = Prompts(poll: Poll) | AllHandled

  /** Context admitted with the prompts; or its admission fails. */
  datatype Admission = Admitted(messages: seq<Message>) | NotAdmitted(failure: Failure)

  datatype Stop = Normal | Error | Aborted

  /** What the stream delivers: partial messages, then the final one; or it raises after some partial ones. */
  datatype Stream = Replies(partials: seq<seq<Part>>, parts: seq<Part>, stop: Stop) | Breaks(partials: seq<seq<Part>>, failure: Failure)

  /** A tool call's result parts; `interrupted` when its effect is not confirmed. */
  datatype Outcome = Outcome(parts: seq<Part>, interrupted: bool)

  /**
    * A batch that is left after its first `done` results, perhaps all of them: how many calls were announced by then,
    * and whether the next one's end was, uninterrupted, although its result was not recorded.
    */
  datatype Early = Early(done: nat, started: nat, ended: bool, failure: Failure)

  datatype Batch = Batch(outcomes: seq<Outcome>, early: Option<Early>)

  /** What the host does while the summary is made, between the plan and its commit. */
  datatype Meanwhile = Nothing | SettingsChange | Replaces(messages: seq<Message>) | Appends(message: Message)

  /** No compaction, a failed one, or one from the plan made of the history at that point. */
  datatype Prepare = AsIs | Fails(failure: Failure) | Compacts(plan: Plan, result: Committed, meanwhile: Meanwhile)

  /** One round of the inner loop, and what the follow-up queue holds if the loop ends with it. */
  datatype Turn = Turn(
    cancelledFirst: bool, prepare: Prepare, cancelledThen: bool, stream: Stream, batch: Batch, cancelledLast: bool,
    steering: Poll, followUps: Poll)

  datatype Request = Request(canonical: seq<Message>, working: seq<Message>)

  /** How a run is left. */
  datatype Exit = Ended | Raised(failure: Failure, inputRejected: bool)

  // ---- Calls without results -----------------------------------------------------------------------------

  /** No call waits for a result. */
  predicate NoneOpen(h: seq<Message>) {
    OpenIds(h) == {}
  }

  lemma {:induction false} OpenSplitIds(a: seq<Message>, b: seq<Message>)
    requires NoneOpen(a)
    ensures OpenIds(a + b) == OpenIds(b)
  {
    if b == [] {
      assert a + b == a;
    } else {
      var n := |b| - 1;
      assert (a + b)[..|a| + n] == a + b[..n];
      OpenSplitIds(a, b[..n]);
    }
  }

  /** Injected messages leave no call open exactly when they leave none open among themselves. */
  lemma InjectedOpen(h: seq<Message>, injected: seq<Message>)
    requires NoneOpen(h)
    ensures NoneOpen(h + injected) <==> NoneOpen(injected)
  {
    OpenSplitIds(h, injected);
  }

  /** The results of a batch, in the order of its calls. */
  function Results(calls: seq<Call>, outcomes: seq<Outcome>): seq<Message>
    requires |calls| <= |outcomes|
  {
    seq(|calls|, k requires 0 <= k < |calls| => Result(calls[k], outcomes[k].parts))
  }

  lemma {:induction false} ResultsClose(h: seq<Message>, m: Message, outcomes: seq<Outcome>, n: nat)
    requires NoneOpen(h) && m.Assistant? && n <= |Calls(m)| <= |outcomes|
    ensures OpenIds(h + [m] + Results(Calls(m), outcomes)[..n]) == Ids(Calls(m)) - Ids(Calls(m)[..n])
  {
    var results := Results(Calls(m), outcomes);
    if n == 0 {
      assert h + [m] + results[..0] == h + [m] && (h + [m])[..|h|] == h;
    } else {
      ResultsClose(h, m, outcomes, n - 1);
      var all := h + [m] + results[..n];
      assert all[..|all| - 1] == h + [m] + results[..n - 1] && all[|all| - 1] == results[n - 1];
      LastId(Calls(m), n);
    }
  }

  lemma LastId(calls: seq<Call>, n: nat)
    requires 0 < n <= |calls|
    ensures Ids(calls[..n]) == Ids(calls[..n - 1]) + {calls[n - 1].id}
  {
    forall id ensures id in Ids(calls[..n]) <==> id in Ids(calls[..n - 1]) + {calls[n - 1].id} {
      if id in Ids(calls[..n]) {
        var k :| 0 <= k < n && calls[..n][k].id == id;
        if k < n - 1 { assert calls[..n - 1][k].id == id; }
      }
      if id in Ids(calls[..n - 1]) {
        var k :| 0 <= k < n - 1 && calls[..n - 1][k].id == id;
        assert calls[..n][k].id == id;
      }
      assert calls[..n][n - 1].id == calls[n - 1].id;
    }
  }

  /** The outcomes of a batch, one for every call. */
  function Padded(batch: Batch, n: nat): (r: seq<Outcome>)
    ensures |r| == n
  {
    seq(n, k requires 0 <= k < n => if k < |batch.outcomes| then batch.outcomes[k] else Outcome([], false))
  }

  /** A complete batch leaves no call open. */
  lemma BatchCloses(h: seq<Message>, m: Message, outcomes: seq<Outcome>)
    requires NoneOpen(h) && m.Assistant? && |Calls(m)| == |outcomes|
    ensures NoneOpen(h + [m] + Results(Calls(m), outcomes))
  {
    ResultsClose(h, m, outcomes, |outcomes|);
    assert Results(Calls(m), outcomes)[..|outcomes|] == Results(Calls(m), outcomes);
    assert Calls(m)[..|outcomes|] == Calls(m);
  }

  lemma PlainReply(h: seq<Message>, m: Message)
    requires NoneOpen(h) && Calls(m) == []
    ensures NoneOpen(h + [m])
  {
    assert (h + [m])[..|h|] == h && Ids([]) == {};
  }

  /** Well paired histories leave no call open. */
  lemma PairedIsClosed(h: seq<Message>)
    requires Paired(h, {})
    ensures NoneOpen(h)
  {
    AcceptedIsPaired(h, {});
    SamePending(h);
  }

  // ---- The compaction record ---------------------------------------------------------------------------------

  datatype Record = Record(generation: nat, summary: string, compacted: nat)

  const NO_RECORD := Record(0, "", 0)

  /** What decoding and restoring a dump check of the compaction record. */
  predicate Accepted(c: Record, h: seq<Message>) {
    if c.generation == 0 then c.summary == "" && c.compacted == 0
    else c.summary != "" && c.compacted >= c.generation && h != [] && h[0] == SummaryMessage(c.summary)
  }

  /** A summary reply that reached a commit. */
  predicate Committable(plan: Plan, result: Committed) {
    result.Committed? && Commits(plan, {}, result) && result.summary != ""
  }

  /** The record after a commit: the plan's generation, and the removed messages counted on top of what is recorded. */
  function NextRecord(c: Record, generation: nat, result: Committed): Record
    requires result.Committed?
  {
    Record(generation, result.summary, c.compacted + |result.removed|)
  }

  /**
    * A commit leaves a record that decoding and restoring accept exactly when the messages counted since the record
    * was last reset are at least as many as the compactions.
    */
  lemma CommitAccepted(c: Record, generation: nat, plan: Plan, result: Committed)
    requires Committable(plan, result) && generation > 0
    ensures Accepted(NextRecord(c, generation, result), result.messages) <==> c.compacted + |result.removed| >= generation
    ensures NoneOpen(result.messages) && |result.removed| >= 1
  {
    hide OpenIds, Paired;
    PairedIsClosed(result.messages);
    assert |result.removed| == |plan.removed| >= 1;
  }

  // ---- The loop --------------------------------------------------------------------------------------------------

  predicate DistinctCalls(calls: seq<Call>) {
    forall j, k | 0 <= j < k < |calls| :: calls[j].id != calls[k].id
  }

  /** `_checked_tool_call_ids`: a reply with repeated call ids becomes an error without calls. */
  function Checked(parts: seq<Part>, stop: Stop): (seq<Part>, Stop) {
    var calls := CallsIn(parts);
    if DistinctCalls(calls) then (parts, stop)
    else ([Text("Provider returned duplicate tool-call IDs; no tools were executed", "")], Error)
  }

  /** So the calls of a reply that enters the history always have ids of their own. */
  lemma CheckedCallsAreDistinct(parts: seq<Part>, stop: Stop)
    ensures DistinctCalls(CallsIn(Checked(parts, stop).0))
  {
    var note := [Text("Provider returned duplicate tool-call IDs; no tools were executed", "")];
    assert note[1..] == [];
  }

  const FAILURE := Assistant([Text("Agent error", "")])

  /** What a poll hands over. */
  function Given(p: Poll): seq<Message> {
    if p.Ready? then p.messages else []
  }

  /** Every commit in the script is one that summarizing can return. */
  ghost predicate Genuine(script: seq<Turn>) {
    forall t | t in script && t.prepare.Compacts? :: Committable(t.prepare.plan, t.prepare.result)
  }

  /** At every request the loop worked on the Agent's own history, and no call of it was unanswered. */
  predicate Matching(requests: seq<Request>) {
    forall r | r in requests :: r.canonical == r.working
  }

  /** No request from the `from`-th on was made with an unanswered call. */
  predicate Answered(requests: seq<Request>, from: nat) {
    forall k | from <= k < |requests| :: NoneOpen(requests[k].canonical)
  }

  /** How a round of the inner loop ends; `Goes` tells whether it had tool calls. */
  datatype Round = Goes(again: bool) | Stops | Throws(failure: Failure, inputRejected: bool)

  // ---- What a run does, as a function of what the world does ---------------------------------------------------

  /** The Agent's own history, its compaction record, and the requests made so far. */
  datatype Memory = Memory(canonical: seq<Message>, record: Record, requests: seq<Request>)

  datatype TurnEnd = TurnEnd(round: Round, memory: Memory, pending: seq<Message>)

  /** An exception leaves the batch, at the latest after its last result. */
  predicate LeftEarly(batch: Batch, n: nat) {
    batch.early.Some? && batch.early.value.done <= n
  }

  /** How many results of a batch are emitted. */
  function Emitted(batch: Batch, n: nat): nat {
    if batch.early.Some? && batch.early.value.done < n then batch.early.value.done else n
  }

  /** How many calls of a batch are announced: in a sequential one at most one more than have a result. */
  function CallsStarted(batch: Batch, n: nat, parallel: bool): (r: nat)
    ensures Emitted(batch, n) <= r <= n
  {
    var k := Emitted(batch, n);
    if k == n then n
    else
      var most := if parallel then n else k + 1;
      if batch.early.value.started < k then k else if most < batch.early.value.started then most else batch.early.value.started
  }

  /** Of the first `reach` calls those without a result among the first `i`, or with an interrupted one. */
  function InDoubt(calls: seq<Call>, batch: Batch, reach: nat, i: nat): set<string>
    requires reach <= |calls|
  {
    set k | 0 <= k < reach && (i <= k || Padded(batch, |calls|)[k].interrupted) :: calls[k].id
  }

  /** The calls whose effect is not confirmed when the batch is left. */
  function LeftInDoubt(calls: seq<Call>, batch: Batch, parallel: bool): set<string> {
    var k, reach := Emitted(batch, |calls|), CallsStarted(batch, |calls|, parallel);
    InDoubt(calls, batch, reach, k) - if k < reach && batch.early.value.ended then {calls[k].id} else {}
  }

  lemma DoubtStarts(calls: seq<Call>, batch: Batch, i: nat)
    requires i < |calls|
    ensures InDoubt(calls, batch, i + 1, i) == InDoubt(calls, batch, i, i) + {calls[i].id}
  {
    hide Padded;
    forall id | id in InDoubt(calls, batch, i, i) + {calls[i].id} ensures id in InDoubt(calls, batch, i + 1, i) {
      if id != calls[i].id {
        var k :| 0 <= k < i && (i <= k || Padded(batch, |calls|)[k].interrupted) && calls[k].id == id;
      }
    }
  }

  lemma DoubtConfirms(calls: seq<Call>, batch: Batch, reach: nat, i: nat)
    requires DistinctCalls(calls) && i < reach <= |calls|
    ensures InDoubt(calls, batch, reach, i + 1)
         == InDoubt(calls, batch, reach, i) - if Padded(batch, |calls|)[i].interrupted then {} else {calls[i].id}
  {
    var a, b := InDoubt(calls, batch, reach, i + 1), InDoubt(calls, batch, reach, i);
    hide Padded;
    forall id | id in b && (Padded(batch, |calls|)[i].interrupted || id != calls[i].id) ensures id in a {
      var k :| 0 <= k < reach && (i <= k || Padded(batch, |calls|)[k].interrupted) && calls[k].id == id;
    }
  }

  lemma AllStarted(calls: seq<Call>, batch: Batch, reach: nat)
    requires reach <= |calls|
    ensures InDoubt(calls, batch, reach, 0) == Ids(calls[..reach])
  {
    hide Padded;
    forall id | id in Ids(calls[..reach]) ensures id in InDoubt(calls, batch, reach, 0) {
      var k :| 0 <= k < reach && calls[..reach][k].id == id;
    }
    forall id | id in InDoubt(calls, batch, reach, 0) ensures id in Ids(calls[..reach]) {
      var k :| 0 <= k < reach && calls[k].id == id;
      assert calls[..reach][k].id == id;
    }
  }

  /** What the host's own calls make of the Agent while a summary is made. */
  function Disturbed(m: Memory, meanwhile: Meanwhile): Memory {
    match meanwhile
    case Replaces(messages) => m.(canonical := messages, record := NO_RECORD)
    case Appends(message) => m.(canonical := m.canonical + [message])
    case _ => m
  }

  /** One round: pending messages, compaction, the request, the reply and its tool results, then the next poll. */
  function TurnSpec(m: Memory, turn: Turn, pending: seq<Message>): TurnEnd
    requires turn.prepare.Compacts? ==> turn.prepare.result.Committed?
  {
    var injected := m.(canonical := m.canonical + pending);
    match turn.prepare
    case Fails(failure) => TurnEnd(Throws(failure, false), injected, [])
    case AsIs => RequestSpec(injected, turn)
    case Compacts(plan, result, meanwhile) =>
      var now := Disturbed(injected, meanwhile);
      if plan.original != injected.canonical then TurnEnd(Throws(Exception, false), injected, []) // no such plan for this history
      else if meanwhile.SettingsChange? || now.canonical != plan.original then TurnEnd(Throws(Exception, false), now, [])
      else RequestSpec(now.(canonical := result.messages, record := NextRecord(now.record, m.record.generation + 1, result)), turn)
  }

  function RequestSpec(m: Memory, turn: Turn): TurnEnd {
    if turn.cancelledThen then TurnEnd(Throws(Cancellation, false), m, [])
    else
      var asked := m.(requests := m.requests + [Request(m.canonical, m.canonical)]);
      if turn.stream.Breaks? then TurnEnd(Throws(turn.stream.failure, false), asked, [])
      else
        var (parts, stop) := Checked(turn.stream.parts, turn.stream.stop);
        var replied := asked.(canonical := m.canonical + [Assistant(parts)]);
        if stop != Normal then TurnEnd(Stops, replied, []) else AnswerSpec(replied, turn, CallsIn(parts))
  }

  function AnswerSpec(m: Memory, turn: Turn, calls: seq<Call>): TurnEnd {
    var n := Emitted(turn.batch, |calls|);
    var answered := m.(canonical := m.canonical + Results(calls, Padded(turn.batch, |calls|))[..n]);
    if calls != [] && LeftEarly(turn.batch, |calls|) then TurnEnd(Throws(turn.batch.early.value.failure, false), answered, [])
    else if turn.cancelledLast then TurnEnd(Goes(calls != []), answered, [])
    else
      match turn.steering
      case Ready(messages) => TurnEnd(Goes(calls != []), answered, messages)
      case Rejected(failure) => TurnEnd(Throws(failure, true), answered, [])
      case Raising(recorded, failure) => TurnEnd(Throws(failure, false), answered.(canonical := answered.canonical + recorded), [])
  }

  /** The inner loop goes on while there are calls or pending messages, the outer one while there are follow-ups. */
  ghost function LoopSpec(m: Memory, pending: seq<Message>, more: bool, followUps: Poll, script: seq<Turn>): (Exit, Memory)
    requires Genuine(script)
    decreases |script|, if more || pending != [] then 0 else 1
  {
    if more || pending != [] then
      if script == [] || script[0].cancelledFirst then (Ended, m)
      else
        assert script[0] in script;
        var t := TurnSpec(m, script[0], pending);
        match t.round
        case Throws(failure, rejected) => (Raised(failure, rejected), t.memory)
        case Stops => (Ended, t.memory)
        case Goes(again) =>
          if script[0].cancelledLast then (Ended, t.memory)
          else LoopSpec(t.memory, t.pending, again, script[0].followUps, script[1..])
    else
      match followUps
      case Ready(messages) => if messages == [] then (Ended, m) else LoopSpec(m, messages, true, followUps, script)
      case Rejected(failure) => (Raised(failure, true), m)
      case Raising(recorded, failure) => (Raised(failure, false), m.(canonical := m.canonical + recorded))
  }

  /** How a started run is left: only an exception that no input was rejected by leaves an error message. */
  function Closed(m: Memory, exit: Exit): Memory {
    if exit == Raised(Exception, false) then m.(canonical := m.canonical + [FAILURE]) else m
  }

  /** The memory once the context is admitted. */
  function WithContext(m: Memory, messages: seq<Message>): Memory {
    if messages == [] then m else m.(canonical := m.canonical + messages, record := NO_RECORD)
  }

  /** A started run: the prompts are prepared, the context admitted, the prompts recorded; the first steering poll; the loop. */
  ghost function RunSpec(m: Memory, prompts: Prompts, admission: Admission, first: Poll, script: seq<Turn>): Memory
    requires Genuine(script)
  {
    if prompts.AllHandled? then m
    else if prompts.poll.Rejected? then Closed(m, Raised(prompts.poll.failure, true))
    else if admission.NotAdmitted? then Closed(m, Raised(admission.failure, false))
    else
      var base := WithContext(m, admission.messages);
      match prompts.poll
      case Raising(recorded, failure) => Closed(base.(canonical := base.canonical + recorded), Raised(failure, false))
      case Ready(messages) =>
        var prompted := base.(canonical := base.canonical + messages);
        match first
        case Rejected(failure) => Closed(prompted, Raised(failure, true))
        case Raising(recorded, failure) => Closed(prompted.(canonical := prompted.canonical + recorded), Raised(failure, false))
        case Ready(steering) =>
          var (exit, end) := LoopSpec(prompted, steering, true, Ready([]), script);
          Closed(end, exit)
  }

  /** The loop of the run is reached, and this is what it starts with. */
  predicate Loops(prompts: Prompts, admission: Admission, first: Poll) {
    prompts.Prompts? && prompts.poll.Ready? && admission.Admitted? && first.Ready?
  }

  function Prompted(m: Memory, prompts: Prompts, admission: Admission): Memory
    requires prompts.Prompts? && prompts.poll.Ready? && admission.Admitted?
  {
    var base := WithContext(m, admission.messages);
    base.(canonical := base.canonical + prompts.poll.messages)
  }

  // ---- Laws of a run ---------------------------------------------------------------------------------------------

  /** The Agent's own dump would pass the compaction checks of decoding and restoring. */
  predicate Restorable(m: Memory) {
    Accepted(m.record, m.canonical)
  }

  /**
    * While the summary was made the host has put the very history that was planned for in place again, which resets
    * the record, and the messages this one compaction removes are fewer than the compactions counted before. Any
    * other replacement is noticed at the commit.
    */
  predicate Miscounts(m: Memory, turn: Turn, pending: seq<Message>)
    requires turn.prepare.Compacts? ==> turn.prepare.result.Committed?
  {
    && turn.prepare.Compacts? && turn.prepare.plan.original == m.canonical + pending
    && turn.prepare.meanwhile == Replaces(m.canonical + pending)
    && |turn.prepare.result.removed| < m.record.generation + 1
  }

  /** Appending keeps a nonempty history's first message, and with it what the record is checked against. */
  lemma AcceptedStays(c: Record, h: seq<Message>, more: seq<Message>)
    requires h != [] || c.generation == 0
    ensures Accepted(c, h + more) <==> Accepted(c, h)
  {
  }

  lemma AnswerAppends(m: Memory, turn: Turn, calls: seq<Call>)
    ensures var t := AnswerSpec(m, turn, calls); m.canonical <= t.memory.canonical && t.memory.record == m.record
  {
    hide Results, Padded;
  }

  lemma RequestAppends(m: Memory, turn: Turn)
    ensures var t := RequestSpec(m, turn); m.canonical <= t.memory.canonical && t.memory.record == m.record
  {
    hide AnswerSpec, Checked, CallsIn;
    if !turn.cancelledThen && turn.stream.Replies? {
      var (parts, stop) := Checked(turn.stream.parts, turn.stream.stop);
      var asked := m.(requests := m.requests + [Request(m.canonical, m.canonical)]);
      AnswerAppends(asked.(canonical := m.canonical + [Assistant(parts)]), turn, CallsIn(parts));
    }
  }

  lemma AppendedAccepted(c: Record, h: seq<Message>, longer: seq<Message>)
    requires h <= longer && (h != [] || c.generation == 0)
    ensures Accepted(c, longer) <==> Accepted(c, h)
  {
    AcceptedStays(c, h, longer[|h|..]);
    assert h + longer[|h|..] == longer;
  }

  /** A round keeps the dump restorable, except exactly when a replacement it did not notice makes the record miscount. */
  lemma TurnRestorable(m: Memory, turn: Turn, pending: seq<Message>)
    requires Restorable(m) && (turn.prepare.Compacts? ==> Committable(turn.prepare.plan, turn.prepare.result))
    ensures Restorable(TurnSpec(m, turn, pending).memory) <==> !Miscounts(m, turn, pending)
  {
    hide Commits, OpenIds, RequestSpec, Accepted, SummaryMessage;
    var injected := m.(canonical := m.canonical + pending);
    FirstStays(m);
    AppendedAccepted(m.record, m.canonical, injected.canonical);
    match turn.prepare {
      case AsIs =>
        RequestAppends(injected, turn);
        AppendedAccepted(m.record, injected.canonical, RequestSpec(injected, turn).memory.canonical);
      case Fails(failure) =>
      case Compacts(plan, result, meanwhile) =>
        var now := Disturbed(injected, meanwhile);
        DisturbedRestorable(injected, meanwhile);
        if plan.original == injected.canonical && !meanwhile.SettingsChange? && now.canonical == plan.original {
          var record := NextRecord(now.record, m.record.generation + 1, result);
          var committed := now.(canonical := result.messages, record := record);
          CommitAccepted(now.record, m.record.generation + 1, plan, result);
          CountsOn(m.record, m.canonical);
          RequestAppends(committed, turn);
          CommitNonempty(plan, result);
          AppendedAccepted(record, result.messages, RequestSpec(committed, turn).memory.canonical);
        }
    }
  }

  lemma CommitNonempty(plan: Plan, result: Committed)
    requires Committable(plan, result)
    ensures result.messages != []
  {
    hide Sound, Paired, OpenIds;
  }

  lemma FirstStays(m: Memory)
    requires Restorable(m)
    ensures m.canonical != [] || m.record.generation == 0
  {
  }

  lemma CountsOn(c: Record, h: seq<Message>)
    requires Accepted(c, h)
    ensures c.compacted >= c.generation
    ensures NO_RECORD.compacted == 0
  {
  }

  lemma DisturbedRestorable(m: Memory, meanwhile: Meanwhile)
    requires Restorable(m)
    ensures Restorable(Disturbed(m, meanwhile))
    ensures Disturbed(m, meanwhile).record == if meanwhile.Replaces? then NO_RECORD else m.record
  {
  }

  /** No round that the loop comes to miscounts. */
  ghost predicate NeverMiscounts(m: Memory, pending: seq<Message>, more: bool, followUps: Poll, script: seq<Turn>)
    requires Genuine(script)
    decreases |script|, if more || pending != [] then 0 else 1
  {
    if more || pending != [] then
      script == [] || script[0].cancelledFirst ||
      (assert script[0] in script;
       var t := TurnSpec(m, script[0], pending);
       && !Miscounts(m, script[0], pending)
       && (t.round.Goes? && !script[0].cancelledLast ==>
             NeverMiscounts(t.memory, t.pending, t.round.again, script[0].followUps, script[1..])))
    else followUps.Ready? && followUps.messages != [] ==> NeverMiscounts(m, followUps.messages, true, followUps, script)
  }

  /** After every round of the loop, and when it is left, the dump is restorable. */
  ghost predicate AlwaysRestorable(m: Memory, pending: seq<Message>, more: bool, followUps: Poll, script: seq<Turn>)
    requires Genuine(script)
    decreases |script|, if more || pending != [] then 0 else 1
  {
    && Restorable(LoopSpec(m, pending, more, followUps, script).1)
    && if more || pending != [] then
         script == [] || script[0].cancelledFirst ||
         (assert script[0] in script;
          var t := TurnSpec(m, script[0], pending);
          && Restorable(t.memory)
          && (t.round.Goes? && !script[0].cancelledLast ==>
                AlwaysRestorable(t.memory, t.pending, t.round.again, script[0].followUps, script[1..])))
       else followUps.Ready? && followUps.messages != [] ==> AlwaysRestorable(m, followUps.messages, true, followUps, script)
  }

  /** The dump stays restorable along the whole loop exactly when no round of it miscounts. */
  lemma {:induction false} LoopRestorable(m: Memory, pending: seq<Message>, more: bool, followUps: Poll, script: seq<Turn>)
    requires Genuine(script) && Restorable(m)
    ensures AlwaysRestorable(m, pending, more, followUps, script) <==> NeverMiscounts(m, pending, more, followUps, script)
    decreases |script|, if more || pending != [] then 0 else 1
  {
    hide Restorable, TurnSpec, Commits, Miscounts;
    if more || pending != [] {
      if script != [] && !script[0].cancelledFirst {
        assert script[0] in script;
        TurnRestorable(m, script[0], pending);
        var t := TurnSpec(m, script[0], pending);
        if t.round.Goes? && !script[0].cancelledLast && Restorable(t.memory) {
          LoopRestorable(t.memory, t.pending, t.round.again, script[0].followUps, script[1..]);
        }
      }
    } else {
      match followUps
      case Ready(messages) => if messages != [] { LoopRestorable(m, messages, true, followUps, script); }
      case Rejected(_) =>
      case Raising(recorded, _) => MoreRestorable(m, recorded);
    }
  }

  lemma MoreRestorable(m: Memory, more: seq<Message>)
    requires Restorable(m)
    ensures Restorable(m.(canonical := m.canonical + more))
  {
    AcceptedStays(m.record, m.canonical, more);
  }

  lemma ResetRestorable(m: Memory, messages: seq<Message>)
    ensures Restorable(m.(canonical := messages, record := NO_RECORD))
  {
  }

  /** No round the run comes to miscounts. */
  ghost predicate RunNeverMiscounts(m: Memory, prompts: Prompts, admission: Admission, first: Poll, script: seq<Turn>)
    requires Genuine(script)
  {
    Loops(prompts, admission, first) ==> NeverMiscounts(Prompted(m, prompts, admission), first.messages, true, Ready([]), script)
  }

  /** Once the prompts are recorded, after every round, and in the end, the dump is restorable. */
  ghost predicate RunAlwaysRestorable(m: Memory, prompts: Prompts, admission: Admission, first: Poll, script: seq<Turn>)
    requires Genuine(script)
  {
    && Restorable(RunSpec(m, prompts, admission, first, script))
    && (Loops(prompts, admission, first) ==>
          && Restorable(Prompted(m, prompts, admission))
          && AlwaysRestorable(Prompted(m, prompts, admission), first.messages, true, Ready([]), script))
  }

  /** The dump stays restorable along a whole run, whatever ends it, exactly when no round of it miscounts. */
  lemma RunRestorable(m: Memory, prompts: Prompts, admission: Admission, first: Poll, script: seq<Turn>)
    requires Genuine(script) && Restorable(m)
    ensures RunAlwaysRestorable(m, prompts, admission, first, script) <==> RunNeverMiscounts(m, prompts, admission, first, script)
  {
    hide Restorable, LoopSpec, NeverMiscounts, AlwaysRestorable;
    if Loops(prompts, admission, first) {
      var prompted := Prompted(m, prompts, admission);
      PromptedRestorable(m, admission, prompts.poll.messages);
      LoopRestorable(prompted, first.messages, true, Ready([]), script);
      var end := LoopSpec(prompted, first.messages, true, Ready([]), script);
      if AlwaysRestorable(prompted, first.messages, true, Ready([]), script) {
        EndRestorable(prompted, first.messages, true, Ready([]), script);
        ClosedRestorable(end.1, end.0);
      }
    } else {
      NoLoopRestorable(m, prompts, admission, first, script);
    }
  }

  lemma EndRestorable(m: Memory, pending: seq<Message>, more: bool, followUps: Poll, script: seq<Turn>)
    requires Genuine(script) && AlwaysRestorable(m, pending, more, followUps, script)
    ensures Restorable(LoopSpec(m, pending, more, followUps, script).1)
  {
    hide LoopSpec, Restorable;
  }

  /** A run that ends before its loop only appends, or resets the record with the admitted context. */
  lemma NoLoopRestorable(m: Memory, prompts: Prompts, admission: Admission, first: Poll, script: seq<Turn>)
    requires Genuine(script) && Restorable(m) && !Loops(prompts, admission, first)
    ensures Restorable(RunSpec(m, prompts, admission, first, script))
  {
    hide Restorable, LoopSpec;
    if prompts.Prompts? && !prompts.poll.Rejected? {
      if admission.NotAdmitted? {
        ClosedRestorable(m, Raised(admission.failure, false));
      } else {
        var recorded := if prompts.poll.Raising? then prompts.poll.recorded else prompts.poll.messages;
        PromptedRestorable(m, admission, recorded);
        var base := WithContext(m, admission.messages);
        var prompted := base.(canonical := base.canonical + recorded);
        if prompts.poll.Raising? {
          ClosedRestorable(prompted, Raised(prompts.poll.failure, false));
        } else if first.Raising? {
          MoreRestorable(prompted, first.recorded);
          ClosedRestorable(prompted.(canonical := prompted.canonical + first.recorded), Raised(first.failure, false));
        }
      }
    }
  }

  lemma PromptedRestorable(m: Memory, admission: Admission, messages: seq<Message>)
    requires Restorable(m) && admission.Admitted?
    ensures var base := WithContext(m, admission.messages); Restorable(base.(canonical := base.canonical + messages))
  {
    hide Restorable;
    ResetRestorable(m, m.canonical + admission.messages);
    MoreRestorable(WithContext(m, admission.messages), messages);
  }

  lemma ClosedRestorable(m: Memory, exit: Exit)
    requires Restorable(m)
    ensures Restorable(Closed(m, exit))
  {
    MoreRestorable(m, [FAILURE]);
  }

  // ---- Unanswered calls at a request -----------------------------------------------------------------------------

  /** The round comes to a request on the history as it is. */
  predicate AsksAsIs(turn: Turn) {
    turn.prepare.AsIs? && !turn.cancelledThen
  }

  /** The results of a complete batch close the reply's calls. */
  lemma AnswerCloses(m: Memory, h: seq<Message>, turn: Turn, parts: seq<Part>)
    requires NoneOpen(h) && m.canonical == h + [Assistant(parts)]
    ensures var t := AnswerSpec(m, turn, CallsIn(parts)); t.memory.requests == m.requests && (t.round.Goes? ==> NoneOpen(t.memory.canonical))
  {
    hide OpenIds, Results, Padded, CallsIn;
    var calls := CallsIn(parts);
    var reply := Assistant(parts);
    assert Calls(reply) == calls;
    AllResults(calls, turn.batch);
    BatchCloses(h, reply, Padded(turn.batch, |calls|));
  }

  /** From an answered history a request is answered, and so is the history after a round that goes on. */
  lemma RequestCloses(m: Memory, turn: Turn, from: nat)
    requires NoneOpen(m.canonical) && from <= |m.requests| && Answered(m.requests, from)
    ensures var t := RequestSpec(m, turn);
            && m.requests <= t.memory.requests && Answered(t.memory.requests, from)
            && (t.round.Goes? ==> NoneOpen(t.memory.canonical))
  {
    hide OpenIds, AnswerSpec, Checked, CallsIn;
    if !turn.cancelledThen && turn.stream.Replies? {
      var (parts, stop) := Checked(turn.stream.parts, turn.stream.stop);
      var asked := m.(requests := m.requests + [Request(m.canonical, m.canonical)]);
      AnswerCloses(asked.(canonical := m.canonical + [Assistant(parts)]), m.canonical, turn, parts);
    }
  }

  /** A request that is made shows the history as it is. */
  lemma RequestShows(m: Memory, turn: Turn, from: nat)
    requires from <= |m.requests|
    ensures var t := RequestSpec(m, turn);
            m.requests <= t.memory.requests && (!turn.cancelledThen && !NoneOpen(m.canonical) ==> !Answered(t.memory.requests, from))
  {
    hide OpenIds, Checked, CallsIn, Results, Padded, Emitted;
    if !turn.cancelledThen {
      assert RequestSpec(m, turn).memory.requests == m.requests + [Request(m.canonical, m.canonical)];
      assert (m.requests + [Request(m.canonical, m.canonical)])[|m.requests|].canonical == m.canonical;
    }
  }

  /**
    * One round: `h` is the history when nothing was open last, `given` what was handed over since. The round makes an
    * unanswered request exactly when it asks on the history as it is and the messages handed over leave a call open.
    */
  lemma TurnAnswered(h: seq<Message>, given: seq<Message>, m: Memory, turn: Turn, pending: seq<Message>, from: nat)
    requires turn.prepare.Compacts? ==> Committable(turn.prepare.plan, turn.prepare.result)
    requires NoneOpen(h) && m.canonical == h + given && from <= |m.requests| && Answered(m.requests, from)
    ensures var t := TurnSpec(m, turn, pending);
            && m.requests <= t.memory.requests
            && (Answered(t.memory.requests, from) <==> (AsksAsIs(turn) ==> NoneOpen(given + pending)))
            && (Answered(t.memory.requests, from) && t.round.Goes? ==> NoneOpen(t.memory.canonical))
  {
    hide OpenIds, Commits, RequestSpec, NextRecord, Answered;
    var injected := m.(canonical := m.canonical + pending);
    assert injected.canonical == h + (given + pending);
    InjectedOpen(h, given + pending);
    RequestShows(injected, turn, from);
    CancelledAsksNothing(injected, turn);
    match turn.prepare {
      case Fails(_) =>
      case AsIs => if NoneOpen(injected.canonical) { RequestCloses(injected, turn, from); }
      case Compacts(plan, result, meanwhile) =>
        var now := Disturbed(injected, meanwhile);
        assert now.requests == m.requests;
        CommitAccepted(now.record, m.record.generation + 1, plan, result);
        RequestCloses(now.(canonical := result.messages, record := NextRecord(now.record, m.record.generation + 1, result)), turn, from);
    }
  }

  lemma CancelledAsksNothing(m: Memory, turn: Turn)
    ensures turn.cancelledThen ==> RequestSpec(m, turn) == TurnEnd(Throws(Cancellation, false), m, [])
  {
    hide AnswerSpec;
  }

  lemma OneTurn(m: Memory, turn: Turn, pending: seq<Message>)
    requires turn.prepare.Compacts? ==> Committable(turn.prepare.plan, turn.prepare.result)
    requires NoneOpen(m.canonical)
    ensures var t := TurnSpec(m, turn, pending);
            && m.requests <= t.memory.requests
            && (Answered(t.memory.requests, |m.requests|) <==> (AsksAsIs(turn) ==> NoneOpen(pending)))
            && (Answered(t.memory.requests, |m.requests|) && t.round.Goes? ==> NoneOpen(t.memory.canonical))
  {
    hide NoneOpen, TurnSpec, Commits;
    assert m.canonical == m.canonical + [] && [] + pending == pending;
    TurnAnswered(m.canonical, [], m, turn, pending, |m.requests|);
  }

  /** Requests already made stay. */
  lemma {:induction false} RequestsStay(m: Memory, pending: seq<Message>, more: bool, followUps: Poll, script: seq<Turn>)
    requires Genuine(script)
    ensures m.requests <= LoopSpec(m, pending, more, followUps, script).1.requests
    decreases |script|, if more || pending != [] then 0 else 1
  {
    hide TurnSpec, Commits;
    if more || pending != [] {
      if script != [] && !script[0].cancelledFirst {
        assert script[0] in script;
        var t := TurnSpec(m, script[0], pending);
        TurnRequests(m, script[0], pending);
        if t.round.Goes? && !script[0].cancelledLast {
          RequestsStay(t.memory, t.pending, t.round.again, script[0].followUps, script[1..]);
        }
      }
    } else if followUps.Ready? && followUps.messages != [] {
      RequestsStay(m, followUps.messages, true, followUps, script);
    }
  }

  lemma TurnRequests(m: Memory, turn: Turn, pending: seq<Message>)
    requires turn.prepare.Compacts? ==> Committable(turn.prepare.plan, turn.prepare.result)
    ensures m.requests <= TurnSpec(m, turn, pending).memory.requests
  {
    hide RequestSpec, NextRecord, Commits;
    var injected := m.(canonical := m.canonical + pending);
    RequestShows(injected, turn, 0);
    if turn.prepare.Compacts? {
      var now := Disturbed(injected, turn.prepare.meanwhile);
      RequestShows(now.(canonical := turn.prepare.result.messages,
                        record := NextRecord(now.record, m.record.generation + 1, turn.prepare.result)), turn, 0);
    }
  }

  lemma StaysUnanswered(a: seq<Request>, b: seq<Request>, from: nat)
    requires a <= b && !Answered(a, from)
    ensures !Answered(b, from)
  {
    hide NoneOpen;
    var k :| from <= k < |a| && !NoneOpen(a[k].canonical);
    assert b[k] == a[k];
  }

  /** No round the loop comes to asks, on the history as it is, with handed over messages that leave a call open. */
  ghost predicate Quiet(m: Memory, given: seq<Message>, pending: seq<Message>, more: bool, followUps: Poll, script: seq<Turn>)
    requires Genuine(script)
    decreases |script|, if more || pending != [] then 0 else 1
  {
    if more || pending != [] then
      script == [] || script[0].cancelledFirst ||
      (assert script[0] in script;
       var t := TurnSpec(m, script[0], pending);
       && (AsksAsIs(script[0]) ==> NoneOpen(given + pending))
       && (t.round.Goes? && !script[0].cancelledLast ==>
             Quiet(t.memory, [], t.pending, t.round.again, script[0].followUps, script[1..])))
    else followUps.Ready? && followUps.messages != [] ==> Quiet(m, given, followUps.messages, true, followUps, script)
  }

  /** Every request of the loop is answered exactly when the loop is quiet. */
  lemma {:induction false} LoopAnswered(h: seq<Message>, given: seq<Message>, m: Memory, pending: seq<Message>, more: bool, followUps: Poll,
                                        script: seq<Turn>, from: nat)
    requires Genuine(script) && NoneOpen(h) && m.canonical == h + given && from <= |m.requests| && Answered(m.requests, from)
    ensures Answered(LoopSpec(m, pending, more, followUps, script).1.requests, from) <==> Quiet(m, given, pending, more, followUps, script)
    decreases |script|, if more || pending != [] then 0 else 1
  {
    hide TurnSpec, Commits, Answered, NoneOpen, AsksAsIs;
    if more || pending != [] {
      if script != [] && !script[0].cancelledFirst {
        assert script[0] in script;
        var turn := script[0];
        TurnAnswered(h, given, m, turn, pending, from);
        var t := TurnSpec(m, turn, pending);
        if t.round.Goes? && !turn.cancelledLast {
          if Answered(t.memory.requests, from) {
            assert t.memory.canonical == t.memory.canonical + [];
            LoopAnswered(t.memory.canonical, [], t.memory, t.pending, t.round.again, turn.followUps, script[1..], from);
          } else {
            RequestsStay(t.memory, t.pending, t.round.again, turn.followUps, script[1..]);
            StaysUnanswered(t.memory.requests, LoopSpec(t.memory, t.pending, t.round.again, turn.followUps, script[1..]).1.requests, from);
          }
        }
      }
    } else if followUps.Ready? && followUps.messages != [] {
      LoopAnswered(h, given, m, followUps.messages, true, followUps, script, from);
    }
  }

  /** The same for a whole run: its context and prompts count as handed over before the first request. */
  ghost predicate RunQuiet(m: Memory, prompts: Prompts, admission: Admission, first: Poll, script: seq<Turn>)
    requires Genuine(script)
  {
    Loops(prompts, admission, first) ==>
      Quiet(Prompted(m, prompts, admission), admission.messages + prompts.poll.messages, first.messages, true, Ready([]), script)
  }

  /** At every request of a whole run no call is unanswered exactly when the run is quiet. */
  lemma RunAnswered(m: Memory, prompts: Prompts, admission: Admission, first: Poll, script: seq<Turn>)
    requires Genuine(script) && NoneOpen(m.canonical)
    ensures Answered(RunSpec(m, prompts, admission, first, script).requests, |m.requests|) <==> RunQuiet(m, prompts, admission, first, script)
  {
    hide LoopSpec, Quiet, NoneOpen;
    if Loops(prompts, admission, first) {
      var given := admission.messages + prompts.poll.messages;
      var prompted := Prompted(m, prompts, admission);
      assert prompted.canonical == m.canonical + given;
      LoopAnswered(m.canonical, given, prompted, first.messages, true, Ready([]), script, |m.requests|);
    }
  }

  /** Inputs that leave no call open among themselves, wherever they are handed over, make a quiet loop. */
  predicate ClosedInputs(script: seq<Turn>) {
    forall t | t in script :: NoneOpen(Given(t.steering)) && NoneOpen(Given(t.followUps))
  }

  lemma {:induction false} ClosedIsQuiet(m: Memory, given: seq<Message>, pending: seq<Message>, more: bool, followUps: Poll, script: seq<Turn>)
    requires Genuine(script) && ClosedInputs(script) && NoneOpen(given + pending)
    requires !more && pending == [] ==> NoneOpen(given + Given(followUps))
    ensures Quiet(m, given, pending, more, followUps, script)
    decreases |script|, if more || pending != [] then 0 else 1
  {
    hide NoneOpen, AsksAsIs, RequestSpec, Commits;
    if more || pending != [] {
      if script != [] && !script[0].cancelledFirst {
        var turn := script[0];
        assert turn in script;
        var t := TurnSpec(m, turn, pending);
        if t.round.Goes? && !turn.cancelledLast {
          NextPending(m, turn, pending);
          assert [] + t.pending == t.pending && [] + Given(turn.followUps) == Given(turn.followUps);
          ClosedIsQuiet(t.memory, [], t.pending, t.round.again, turn.followUps, script[1..]);
        }
      }
    } else if followUps.Ready? && followUps.messages != [] {
      ClosedIsQuiet(m, given, followUps.messages, true, followUps, script);
    }
  }

  /** The next pending messages are those of the steering poll. */
  lemma NextPending(m: Memory, turn: Turn, pending: seq<Message>)
    requires turn.prepare.Compacts? ==> turn.prepare.result.Committed?
    ensures var t := TurnSpec(m, turn, pending); t.round.Goes? && !turn.cancelledLast ==> t.pending == Given(turn.steering)
  {
    hide Results, Padded, Checked, CallsIn, NextRecord;
  }

  lemma NoResults(h: seq<Message>, batch: Batch)
    ensures Emitted(batch, 0) == 0 && h + Results([], Padded(batch, 0))[..0] == h
  {
  }

  lemma AllResults(calls: seq<Call>, batch: Batch)
    ensures |Padded(batch, |calls|)| == |calls|
    ensures Results(calls, Padded(batch, |calls|))[..|calls|] == Results(calls, Padded(batch, |calls|))
  {
  }

  /** One round of `LoopSpec` that takes a turn. */
  lemma LoopTurn(m: Memory, pending: seq<Message>, more: bool, followUps: Poll, script: seq<Turn>)
    requires Genuine(script) && (more || pending != []) && script != [] && !script[0].cancelledFirst
    ensures script[0] in script
    ensures var t := TurnSpec(m, script[0], pending);
            LoopSpec(m, pending, more, followUps, script) ==
              if t.round.Throws? then (Raised(t.round.failure, t.round.inputRejected), t.memory)
              else if t.round.Stops? || script[0].cancelledLast then (Ended, t.memory)
              else LoopSpec(t.memory, t.pending, t.round.again, script[0].followUps, script[1..])
  {
    hide TurnSpec;
  }

  /** `LoopSpec` without a round left, or cancelled before one. */
  lemma NoTurn(m: Memory, pending: seq<Message>, more: bool, followUps: Poll, script: seq<Turn>)
    requires Genuine(script) && (more || pending != []) && (script == [] || script[0].cancelledFirst)
    ensures LoopSpec(m, pending, more, followUps, script) == (Ended, m)
  {
  }

  /** `LoopSpec` at the follow-ups. */
  lemma LoopFollows(m: Memory, followUps: Poll, script: seq<Turn>)
    requires Genuine(script)
    ensures LoopSpec(m, [], false, followUps, script) ==
              if followUps.Rejected? then (Raised(followUps.failure, true), m)
              else if followUps.Raising? then (Raised(followUps.failure, false), m.(canonical := m.canonical + followUps.recorded))
              else if followUps.messages == [] then (Ended, m)
              else LoopSpec(m, followUps.messages, true, followUps, script)
  {
    hide TurnSpec;
  }

  /** One round of a quiet loop. */
  lemma QuietTurn(m: Memory, pending: seq<Message>, more: bool, followUps: Poll, script: seq<Turn>)
    requires Genuine(script) && (more || pending != []) && script != [] && !script[0].cancelledFirst
    requires Quiet(m, [], pending, more, followUps, script)
    ensures script[0] in script && (AsksAsIs(script[0]) ==> NoneOpen(pending))
    ensures var t := TurnSpec(m, script[0], pending);
            t.round.Goes? && !script[0].cancelledLast ==> Quiet(t.memory, [], t.pending, t.round.again, script[0].followUps, script[1..])
  {
    hide TurnSpec, NoneOpen, AsksAsIs;
    assert [] + pending == pending;
  }

  lemma NoRequests(requests: seq<Request>)
    ensures Answered(requests, |requests|)
  {
  }

  lemma AnsweredOn(a: seq<Request>, b: seq<Request>, from: nat)
    requires a <= b && from <= |a| && Answered(a, from) && Answered(b, |a|)
    ensures Answered(b, from)
  {
    hide NoneOpen;
    forall k | from <= k < |a| ensures NoneOpen(b[k].canonical) { assert b[k] == a[k]; }
  }

  lemma WholeLoop(m: Memory, first: seq<Message>, script: seq<Turn>)
    requires Genuine(script) && NoneOpen(m.canonical)
    ensures Answered(LoopSpec(m, first, true, Ready([]), script).1.requests, |m.requests|) <==> Quiet(m, [], first, true, Ready([]), script)
  {
    hide NoneOpen, LoopSpec, Quiet;
    assert m.canonical == m.canonical + [];
    LoopAnswered(m.canonical, [], m, first, true, Ready([]), script, |m.requests|);
  }

  /** What a run starts with leaves no call open of its own. */
  predicate ClosedStart(prompts: Prompts, admission: Admission, first: Poll) {
    && (prompts.Prompts? ==> NoneOpen(Given(prompts.poll)))
    && (admission.Admitted? ==> NoneOpen(admission.messages))
    && NoneOpen(Given(first))
  }

  /** A run that is handed only messages that leave no call open among themselves is quiet. */
  lemma ClosedRunIsQuiet(m: Memory, prompts: Prompts, admission: Admission, first: Poll, script: seq<Turn>)
    requires Genuine(script) && ClosedStart(prompts, admission, first) && ClosedInputs(script)
    ensures RunQuiet(m, prompts, admission, first, script)
  {
    hide OpenIds, Quiet;
    if Loops(prompts, admission, first) {
      var given := admission.messages + prompts.poll.messages;
      InjectedOpen(admission.messages, prompts.poll.messages);
      InjectedOpen(given, first.messages);
      ClosedIsQuiet(Prompted(m, prompts, admission), given, first.messages, true, Ready([]), script);
    }
  }

  lemma FewerIds(calls: seq<Call>, n: nat)
    requires n <= |calls|
    ensures Ids(calls[..n]) <= Ids(calls)
  {
    forall id | id in Ids(calls[..n]) ensures id in Ids(calls) {
      var k :| 0 <= k < n && calls[..n][k].id == id;
      assert calls[k].id == id;
    }
  }

  lemma PaddedOutcome(batch: Batch, n: nat, k: nat)
    requires k < n
    ensures Padded(batch, n)[k] in batch.outcomes || !Padded(batch, n)[k].interrupted
  {
  }

  /** An announced call is among the announced ids. */
  lemma DoubtHas(calls: seq<Call>, batch: Batch, reach: nat, k: nat)
    requires k < reach <= |calls|
    ensures calls[k].id in Ids(calls[..reach])
  {
    assert calls[..reach][k] == calls[k];
  }

  /** What is unconfirmed after the first `k` results, when `before` was at the start. */
  function DoubtSoFar(calls: seq<Call>, batch: Batch, parallel: bool, before: set<string>, k: nat): set<string>
    requires k <= |calls|
  {
    var reach := if parallel then CallsStarted(batch, |calls|, parallel) else k;
    InDoubt(calls, batch, reach, k) + (before - Ids(calls[..reach]))
  }

  lemma DoubtAtFirst(calls: seq<Call>, batch: Batch, parallel: bool, before: set<string>)
    ensures var reach := CallsStarted(batch, |calls|, parallel);
            && Ids(calls[..reach]) <= Ids(calls) && Ids(calls[..0]) == {}
            && (parallel ==> before + Ids(calls[..reach]) == DoubtSoFar(calls, batch, parallel, before, 0))
            && (!parallel ==> before == DoubtSoFar(calls, batch, parallel, before, 0))
  {
    hide InDoubt, CallsStarted;
    var reach := CallsStarted(batch, |calls|, parallel);
    FewerIds(calls, reach);
    AllStarted(calls, batch, reach);
    AllStarted(calls, batch, 0);
  }

  lemma DoubtNext(calls: seq<Call>, batch: Batch, parallel: bool, before: set<string>, k: nat)
    requires DistinctCalls(calls) && k < Emitted(batch, |calls|)
    ensures DoubtSoFar(calls, batch, parallel, before, k + 1)
         == DoubtSoFar(calls, batch, parallel, before, k) + (if parallel then {} else {calls[k].id})
            - (if Padded(batch, |calls|)[k].interrupted then {} else {calls[k].id})
  {
    hide InDoubt, Ids, Padded, CallsStarted;
    var reach := if parallel then CallsStarted(batch, |calls|, parallel) else k + 1;
    LastId(calls, k + 1);
    DoubtStarts(calls, batch, k);
    DoubtConfirms(calls, batch, reach, k);
    DoubtHas(calls, batch, reach, k);
  }

  lemma DoubtLeft(calls: seq<Call>, batch: Batch, parallel: bool, before: set<string>, k: nat)
    requires k == Emitted(batch, |calls|)
    ensures var reach := CallsStarted(batch, |calls|, parallel);
            LeftInDoubt(calls, batch, parallel) + (before - Ids(calls[..reach]))
            == DoubtSoFar(calls, batch, parallel, before, k)
               + (if k < reach && !parallel then {calls[k].id} else {})
               - (if k < reach && batch.early.value.ended then {calls[k].id} else {})
  {
    StartedOneMore(batch, |calls|, parallel);
    hide InDoubt, Ids, Padded, CallsStarted;
    var reach := CallsStarted(batch, |calls|, parallel);
    if k < reach {
      LastId(calls, k + 1);
      DoubtStarts(calls, batch, k);
      DoubtHas(calls, batch, reach, k);
    }
  }

  lemma NextIds(calls: seq<Call>, batch: Batch, k: nat)
    requires k < |calls|
    ensures calls[k].id in Ids(calls) && Ids(calls[..k + 1]) == Ids(calls[..k]) + {calls[k].id}
    ensures Padded(batch, |calls|)[k] in batch.outcomes || !Padded(batch, |calls|)[k].interrupted
  {
    LastId(calls, k + 1);
    DoubtHas(calls, batch, |calls|, k);
    PaddedOutcome(batch, |calls|, k);
    assert calls[..|calls|] == calls;
  }

  lemma StartedOneMore(batch: Batch, n: nat, parallel: bool)
    ensures var k, reach := Emitted(batch, n), CallsStarted(batch, n, parallel);
            && (k == n ==> reach == n)
            && (!parallel && k < n ==> reach == k || reach == k + 1)
            && (k < n ==> batch.early.Some?)
  {
  }

  class Agent {
    var canonical: seq<Message>
    var unconfirmed: map<string, string>
    var record: Record
    ghost var requests: seq<Request>

    constructor ()
      ensures canonical == [] && unconfirmed == map[] && record == NO_RECORD && requests == []
    {
      canonical, unconfirmed, record, requests := [], map[], NO_RECORD, [];
    }

    /** At every request so far both histories were equal. */
    ghost predicate Valid()
      reads this
    {
      Matching(requests)
    }

    ghost function State(): Memory
      reads this
    {
      Memory(canonical, record, requests)
    }

    /** `append_message` */
    method AppendMessage(m: Message)
      requires Valid()
      modifies `canonical
      ensures Valid() && canonical == old(canonical) + [m]
      ensures old(Restorable(State())) ==> Restorable(State())
    {
      if Restorable(State()) { MoreRestorable(State(), [m]); }
      canonical := canonical + [m];
    }

    /** `replace_messages`, `clear_messages` and `reset`. */
    method ReplaceMessages(messages: seq<Message>)
      requires Valid()
      modifies `canonical, `unconfirmed, `record
      ensures Valid() && canonical == messages && unconfirmed == map[] && record == NO_RECORD && Restorable(State())
    {
      canonical, unconfirmed, record := messages, map[], NO_RECORD;
    }

    /** `_restore_candidate`: all checks come before the adoption. */
    method Restore(messages: seq<Message>, c: Record, resumable: bool, modelAllowed: bool, skillsBound: bool) returns (ok: bool)
      requires Valid()
      modifies `canonical, `unconfirmed, `record
      ensures Valid() && (ok <==> resumable && Accepted(c, messages) && modelAllowed && skillsBound)
      ensures ok ==> canonical == messages && record == c && unconfirmed == map[] && Restorable(State())
      ensures !ok ==> State() == old(State()) && unconfirmed == old(unconfirmed)
    {
      if !resumable { return false; }
      if !Accepted(c, messages) { return false; }
      if !modelAllowed || !skillsBound { return false; }
      canonical, unconfirmed, record := messages, map[], c;
      return true;
    }

    /** What a host does meanwhile, through the Agent's own methods. */
    method Disturb(meanwhile: Meanwhile)
      requires Valid()
      modifies `canonical, `unconfirmed, `record
      ensures Valid() && State() == Disturbed(old(State()), meanwhile)
    {
      match meanwhile {
        case Replaces(messages) => ReplaceMessages(messages);
        case Appends(message) => AppendMessage(message);
        case _ =>
      }
    }

    /**
      * The commit at the end of `_compact_context`: refused when the history is not the one that was planned for, or
      * when system prompt, model, adapter or options are not. The generation is that of the time of planning.
      */
    method Commit(plan: Plan, result: Committed, generation: nat, sameSettings: bool) returns (ok: bool)
      requires Valid() && Committable(plan, result) && generation > 0
      modifies `canonical, `record
      ensures Valid() && (ok <==> plan.original == old(canonical) && sameSettings)
      ensures !ok ==> State() == old(State())
      ensures ok ==> canonical == result.messages && NoneOpen(canonical) && record == NextRecord(old(record), generation, result)
      ensures ok ==> (Restorable(State()) <==> old(record).compacted + |result.removed| >= generation)
    {
      hide Commits, OpenIds, Paired, Sound, Accepted;
      if plan.original != canonical || !sameSettings { return false; }
      CommitAccepted(record, generation, plan, result);
      canonical := result.messages;
      record := NextRecord(record, generation, result);
      return true;
    }

    /** The messages of a poll reach both histories, one after the other. */
    method Inject(messages: seq<Message>, working0: seq<Message>) returns (working: seq<Message>)
      requires Valid()
      modifies `canonical
      ensures Valid() && canonical == old(canonical) + messages && working == working0 + messages
    {
      working := working0;
      for k := 0 to |messages|
        invariant Valid() && canonical == old(canonical) + messages[..k] && working == working0 + messages[..k]
      {
        AppendMessage(messages[k]);
        working := working + [messages[k]];
      }
    }

    /** `_stream_assistant_response` from the model call on: partial messages live in the working history only. */
    method Stream(stream: Stream, working0: seq<Message>) returns (working: seq<Message>, reply: Option<Message>, stop: Stop)
      requires Valid() && canonical == working0
      modifies `canonical, `requests
      ensures Valid() && requests == old(requests) + [Request(old(canonical), working0)]
      ensures stream.Breaks? ==> reply.None? && canonical == old(canonical)
      ensures stream.Replies? ==>
        var (parts, s) := Checked(stream.parts, stream.stop);
        && reply == Some(Assistant(parts)) && stop == s
        && canonical == old(canonical) + [Assistant(parts)] && working == working0 + [Assistant(parts)]
    {
      requests := requests + [Request(canonical, working0)];
      working, stop := working0, Normal;
      for k := 0 to |stream.partials|
        invariant working == working0 + if k == 0 then [] else [Assistant(stream.partials[k - 1])]
      {
        working := if k == 0 then working + [Assistant(stream.partials[k])]
                   else working[|working| - 1 := Assistant(stream.partials[k])];
      }
      if stream.Breaks? { return working, None, Normal; }
      var (parts, s) := Checked(stream.parts, stream.stop);
      var final := Assistant(parts);
      working := if stream.partials != [] then working[|working| - 1 := final] else working + [final];
      canonical := canonical + [final];
      return working, Some(final), s;
    }

    /** In a parallel batch the calls are announced, and unconfirmed, before the first result. */
    method StartAll(calls: seq<Call>, reach: nat)
      requires reach <= |calls|
      modifies `unconfirmed
      ensures unconfirmed.Keys == old(unconfirmed).Keys + Ids(calls[..reach])
    {
      assert Ids(calls[..0]) == {};
      for k := 0 to reach
        invariant unconfirmed.Keys == old(unconfirmed).Keys + Ids(calls[..k])
      {
        unconfirmed := unconfirmed[calls[k].id := calls[k].name];
        LastId(calls, k + 1);
      }
    }

    /**
      * A tool batch. Each call is unconfirmed from its start to an uninterrupted end; in a parallel batch the calls
      * start first. Every result reaches the canonical history as it is emitted; the loop adds them all at the end.
      */
    method RunTools(calls: seq<Call>, batch: Batch, parallel: bool) returns (results: seq<Message>, complete: bool)
      requires Valid()
      modifies `canonical, `unconfirmed
      ensures Valid() && canonical == old(canonical) + results
      ensures results == Results(calls, Padded(batch, |calls|))[..Emitted(batch, |calls|)]
      ensures complete <==> !LeftEarly(batch, |calls|)
      ensures complete ==> Emitted(batch, |calls|) == |calls|
      ensures complete && (forall o | o in batch.outcomes :: !o.interrupted) ==>
                forall id | id in unconfirmed :: id in old(unconfirmed) && id !in Ids(calls)
      ensures DistinctCalls(calls) ==>
                unconfirmed.Keys == LeftInDoubt(calls, batch, parallel)
                                    + (old(unconfirmed).Keys - Ids(calls[..CallsStarted(batch, |calls|, parallel)]))
    {
      hide InDoubt, LeftInDoubt, Padded, Ids, CallsStarted, DoubtSoFar, DistinctCalls;
      results := [];
      var reach := CallsStarted(batch, |calls|, parallel);
      if parallel { StartAll(calls, reach); }
      ghost var before := old(unconfirmed).Keys;
      DoubtAtFirst(calls, batch, parallel, before);
      for k := 0 to |calls|
        invariant Valid() && |results| == k <= Emitted(batch, |calls|) && canonical == old(canonical) + results
        invariant forall j | 0 <= j < k :: results[j] == Result(calls[j], Padded(batch, |calls|)[j].parts)
        invariant forall id | id in unconfirmed :: id in before || id in Ids(calls)
        invariant (forall o | o in batch.outcomes :: !o.interrupted) ==> forall id | id in unconfirmed :: id !in Ids(calls[..k])
        invariant DistinctCalls(calls) ==> unconfirmed.Keys == DoubtSoFar(calls, batch, parallel, before, k)
      {
        if batch.early.Some? && batch.early.value.done == k {
          LeaveEarly(calls[k], reach > k && !parallel, reach > k && batch.early.value.ended);
          DoubtLeft(calls, batch, parallel, before, k);
          return results, false;
        }
        var outcome := Padded(batch, |calls|)[k];
        if !parallel { unconfirmed := unconfirmed[calls[k].id := calls[k].name]; }
        if !outcome.interrupted { unconfirmed := unconfirmed - {calls[k].id}; }
        if DistinctCalls(calls) { DoubtNext(calls, batch, parallel, before, k); }
        NextIds(calls, batch, k);
        AppendMessage(Result(calls[k], outcome.parts));
        results := results + [Result(calls[k], outcome.parts)];
      }
      DoubtLeft(calls, batch, parallel, before, |calls|);
      assert calls[..|calls|] == calls;
      complete := !LeftEarly(batch, |calls|);
    }

    /** The exception leaves the batch at this call: it may be announced already, and so may its end. */
    method LeaveEarly(call: Call, announced: bool, ended: bool)
      modifies `unconfirmed
      ensures unconfirmed.Keys == old(unconfirmed).Keys + (if announced then {call.id} else {}) - (if ended then {call.id} else {})
    {
      if announced { unconfirmed := unconfirmed[call.id := call.name]; }
      if ended { unconfirmed := unconfirmed - {call.id}; }
    }

    /** Messages that were recorded before their admission raised. */
    method KeepRecorded(recorded: seq<Message>)
      requires Valid()
      modifies `canonical
      ensures Valid() && canonical == old(canonical) + recorded
    {
      canonical := canonical + recorded;
    }

    /** The automatic compaction before a request: the commit applies to both histories at once. */
    method PrepareRequest(prepare: Prepare, working0: seq<Message>) returns (failed: Option<Failure>, working: seq<Message>)
      requires Valid() && canonical == working0
      requires prepare.Compacts? ==> Committable(prepare.plan, prepare.result)
      modifies `canonical, `unconfirmed, `record
      ensures Valid()
      ensures failed.None? ==> canonical == working && (NoneOpen(working0) ==> NoneOpen(working))
      ensures prepare.AsIs? ==> failed.None? && State() == old(State())
      ensures prepare.Fails? ==> failed == Some(prepare.failure) && State() == old(State())
      ensures prepare.Compacts? ==>
        var now := Disturbed(old(State()), prepare.meanwhile);
        if prepare.plan.original != old(canonical) then failed == Some(Exception) && State() == old(State())
        else if prepare.meanwhile.SettingsChange? || now.canonical != prepare.plan.original then failed == Some(Exception) && State() == now
        else failed.None? && State() == now.(canonical := prepare.result.messages,
                                             record := NextRecord(now.record, old(record).generation + 1, prepare.result))
    {
      hide Accepted, OpenIds, Commits, Sound, Matching;
      failed, working := None, working0;
      match prepare {
        case AsIs =>
        case Fails(failure) => failed := Some(failure);
        case Compacts(plan, result, meanwhile) =>
          if plan.original != canonical { return Some(Exception), working; } // planning gives no such plan
          var generation := record.generation + 1;
          Disturb(meanwhile);
          var committed := Commit(plan, result, generation, !meanwhile.SettingsChange?);
          if committed { working := result.messages; } else { failed := Some(Exception); }
      }
    }

    /** One round of the inner loop after its first cancellation check. */
    method DoTurn(turn: Turn, working0: seq<Message>, pending0: seq<Message>, parallel: bool)
      returns (round: Round, working: seq<Message>, pending: seq<Message>)
      requires Valid() && canonical == working0
      requires turn.prepare.Compacts? ==> Committable(turn.prepare.plan, turn.prepare.result)
      modifies this
      ensures Valid() && old(requests) <= requests
      ensures round.Goes? ==> canonical == working
      ensures NoneOpen(working0) ==> (Answered(requests, |old(requests)|) <==> (AsksAsIs(turn) ==> NoneOpen(pending0)))
      ensures NoneOpen(working0) && (AsksAsIs(turn) ==> NoneOpen(pending0)) && round.Goes? ==> NoneOpen(working)
      ensures round.Goes? ==> pending == if turn.cancelledLast then [] else Given(turn.steering)
      ensures var t := TurnSpec(old(State()), turn, pending0);
              round == t.round && State() == t.memory && (round.Goes? ==> pending == t.pending)
    {
      hide OpenIds, Commits, Sound, AnswerSpec, Checked, NextRecord, Disturbed, NoneOpen, Answered, AsksAsIs;
      if NoneOpen(working0) { OneTurn(State(), turn, pending0); }
      working := Inject(pending0, working0);
      pending := [];
      var failed;
      failed, working := PrepareRequest(turn.prepare, working);
      if failed.Some? { return Throws(failed.value, false), working, pending; }
      if turn.cancelledThen { return Throws(Cancellation, false), working, pending; }
      ghost var before := working;
      var reply, stop;
      working, reply, stop := Stream(turn.stream, working);
      if reply.None? { return Throws(turn.stream.failure, false), working, pending; }
      if stop != Normal { return Stops, working, pending; }
      round, working, pending := Answer(turn, before, reply.value, parallel);
    }

    /** The rest of a round after a reply: its tool results, then the next poll. */
    method Answer(turn: Turn, ghost before: seq<Message>, reply: Message, parallel: bool)
      returns (round: Round, working: seq<Message>, pending: seq<Message>)
      requires Valid() && reply.Assistant? && canonical == before + [reply]
      modifies `canonical, `unconfirmed
      ensures Valid()
      ensures round.Goes? ==> canonical == working
      ensures NoneOpen(before) && round.Goes? ==> NoneOpen(working)
      ensures round.Goes? ==> pending == if turn.cancelledLast then [] else Given(turn.steering)
      ensures var t := AnswerSpec(old(State()), turn, Calls(reply));
              round == t.round && State() == t.memory && (round.Goes? ==> pending == t.pending)
    {
      hide OpenIds, Results, Padded;
      working, pending := canonical, [];
      var calls := Calls(reply);
      if calls != [] {
        var results, complete := RunTools(calls, turn.batch, parallel);
        if !complete { return Throws(turn.batch.early.value.failure, false), working, pending; }
        working := working + results;
        AllResults(calls, turn.batch);
        if NoneOpen(before) { BatchCloses(before, reply, Padded(turn.batch, |calls|)); }
      } else {
        NoResults(canonical, turn.batch);
        if NoneOpen(before) { PlainReply(before, reply); }
      }
      if turn.cancelledLast { return Goes(calls != []), working, pending; }
      match turn.steering {
        case Ready(messages) => pending := messages;
        case Rejected(failure) => return Throws(failure, true), working, pending;
        case Raising(recorded, failure) => KeepRecorded(recorded); return Throws(failure, false), working, pending;
      }
      return Goes(calls != []), working, pending;
    }

    /**
      * The inner loop: rounds until there is neither a call nor a pending message. It has the final say, or it leaves
      * the follow-ups of its last round, script[next - 1], to be looked at.
      */
    method Rounds(working0: seq<Message>, pending0: seq<Message>, script: seq<Turn>, ghost polled: Poll, parallel: bool)
      returns (exit: Option<Exit>, next: nat)
      requires Valid() && Genuine(script) && canonical == working0
      modifies this
      ensures Valid() && old(requests) <= requests && next <= |script|
      ensures NoneOpen(working0) && Quiet(old(State()), [], pending0, true, polled, script) ==>
                Answered(requests, |old(requests)|) && (exit.None? ==> NoneOpen(canonical))
      ensures exit.Some? ==> LoopSpec(old(State()), pending0, true, polled, script) == (exit.value, State())
      ensures exit.None? ==>
                && 0 < next && Genuine(script[next..])
                && LoopSpec(old(State()), pending0, true, polled, script)
                   == LoopSpec(State(), [], false, script[next - 1].followUps, script[next..])
    {
      hide NoneOpen, Answered, AsksAsIs, Committable, Matching, TurnSpec, LoopSpec, Quiet;
      var working, pending, more := working0, pending0, true;
      ghost var clean := NoneOpen(working0) && Quiet(State(), [], pending0, true, polled, script);
      NoRequests(requests);
      ghost var last := polled;
      next := 0;
      assert script[0..] == script;
      while more || pending != []
        invariant next <= |script| && Valid() && canonical == working && old(requests) <= requests
        invariant clean ==> NoneOpen(working) && Answered(requests, |old(requests)|)
        invariant clean ==> Quiet(State(), [], pending, more, last, script[next..])
        invariant more || next > 0
        invariant next > 0 ==> last == script[next - 1].followUps
        invariant Genuine(script[next..])
        invariant LoopSpec(old(State()), pending0, true, polled, script) == LoopSpec(State(), pending, more, last, script[next..])
        decreases |script| - next
      {
        if next == |script| || script[next].cancelledFirst {
          NoTurn(State(), pending, more, last, script[next..]);
          return Some(Ended), next;
        }
        var turn := script[next];
        LoopTurn(State(), pending, more, last, script[next..]);
        if clean { QuietTurn(State(), pending, more, last, script[next..]); }
        assert turn in script && script[next..][0] == turn && script[next..][1..] == script[next + 1..];
        next := next + 1;
        ghost var soFar := requests;
        var round;
        round, working, pending := DoTurn(turn, working, pending, parallel);
        if clean { AnsweredOn(soFar, requests, |old(requests)|); }
        match round {
          case Throws(failure, rejected) => return Some(Raised(failure, rejected)), next;
          case Stops => return Some(Ended), next;
          case Goes(again) => more := again;
        }
        if turn.cancelledLast { return Some(Ended), next; }
        last := turn.followUps;
      }
      exit := None;
    }

    /** `_run_loop`: the inner loop works off tool calls and pending messages, the outer one the follow-ups. */
    method Loop(first: seq<Message>, script: seq<Turn>, parallel: bool) returns (exit: Exit)
      requires Valid() && Genuine(script)
      modifies this
      ensures Valid() && old(requests) <= requests
      ensures NoneOpen(old(canonical)) ==>
                (Answered(requests, |old(requests)|) <==> Quiet(old(State()), [], first, true, Ready([]), script))
      ensures (exit, State()) == LoopSpec(old(State()), first, true, Ready([]), script)
    {
      hide NoneOpen, Answered, Committable, Matching, TurnSpec, LoopSpec, Quiet;
      if NoneOpen(canonical) { WholeLoop(State(), first, script); }
      var pending, rest := first, script;
      ghost var polled := Ready([]);
      while true
        invariant Valid() && old(requests) <= requests && Genuine(rest)
        invariant LoopSpec(old(State()), first, true, Ready([]), script) == LoopSpec(State(), pending, true, polled, rest)
        decreases |rest|
      {
        var ended, next := Rounds(canonical, pending, rest, polled, parallel);
        if ended.Some? { return ended.value; }
        var followUps := rest[next - 1].followUps;
        assert rest[next - 1] in rest;
        LoopFollows(State(), followUps, rest[next..]);
        rest := rest[next..];
        match followUps {
          case Ready(messages) => if messages == [] { return Ended; } pending := messages;
          case Rejected(failure) => return Raised(failure, true);
          case Raising(recorded, failure) => KeepRecorded(recorded); return Raised(failure, false);
        }
        polled := followUps;
      }
    }

    /**
      * `_run_loop` of the Agent: a run is refused while a tool is unconfirmed or a call unanswered; otherwise the
      * loop starts on a copy of the history with the prompts. An exception leaves an error message, a cancellation
      * does not.
      */
    method Run(prompts: Prompts, admission: Admission, first: Poll, script: seq<Turn>, parallel: bool) returns (started: bool)
      requires Valid() && Genuine(script)
      modifies this
      ensures Valid() && old(requests) <= requests
      ensures started <==> NoneOpen(old(canonical)) && old(unconfirmed) == map[]
      ensures !started ==> State() == old(State()) && unconfirmed == old(unconfirmed)
      ensures started ==> State() == RunSpec(old(State()), prompts, admission, first, script)
      ensures started ==> (Answered(requests, |old(requests)|) <==> RunQuiet(old(State()), prompts, admission, first, script))
      ensures old(Restorable(State())) && RunNeverMiscounts(old(State()), prompts, admission, first, script) ==> Restorable(State())
    {
      hide Accepted, OpenIds, Genuine, Matching, LoopSpec, Restorable, Answered, RunQuiet, RunNeverMiscounts;
      if unconfirmed != map[] || OpenIds(canonical) != {} { return false; }
      started := true;
      ghost var m := State();
      RunAnswered(m, prompts, admission, first, script);
      if Restorable(m) { RunRestorable(m, prompts, admission, first, script); }
      if prompts.AllHandled? || prompts.poll.Rejected? { return true; }
      if admission.NotAdmitted? {
        Leave(Raised(admission.failure, false));
        return true;
      }
      RunAdmitted(prompts.poll, admission.messages, first, script, parallel);
    }

    /** How a run is left early: `except Exception` does not see a cancellation. */
    method Leave(exit: Exit)
      requires Valid()
      modifies `canonical
      ensures Valid() && State() == Closed(old(State()), exit)
    {
      if exit == Raised(Exception, false) { AppendMessage(FAILURE); }
    }

    /** The rest of `Run` once the prompts are prepared and the context is there: they are recorded, then the loop starts. */
    method RunAdmitted(prompts: Poll, admitted: seq<Message>, first: Poll, script: seq<Turn>, parallel: bool)
      requires Valid() && Genuine(script) && !prompts.Rejected?
      modifies this
      ensures Valid() && old(requests) <= requests
      ensures State() == RunSpec(old(State()), Prompts(prompts), Admitted(admitted), first, script)
    {
      hide Accepted, Genuine, Matching, LoopSpec, Restorable, NoneOpen, Quiet;
      if admitted != [] { ReplaceMessages(canonical + admitted); }
      if prompts.Raising? {
        KeepRecorded(prompts.recorded);
        Leave(Raised(prompts.failure, false));
        return;
      }
      var working := Inject(prompts.messages, canonical);
      if first.Rejected? { return; }
      if first.Raising? {
        KeepRecorded(first.recorded);
        Leave(Raised(first.failure, false));
        return;
      }
      var exit := Loop(first.messages, script, parallel);
      Leave(exit);
    }
  }
}
