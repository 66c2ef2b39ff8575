/** Two runs the code accepts and the laws of a run do not cover: what their exact conditions shut out. */
module AgentRunExamples {
  import opened TextCodecs
  import opened History
  import opened Compaction
  import opened AgentRun

  // ---- A steered message with a call ----------------------------------------------------------------------------

  const CALL := Call("c", "bash")

  /** A reply of the host's own making that asks for a tool. */
  const STEERED := Assistant([ToolCall(CALL, "", "{}")])

  const NO_BATCH := Batch([], None)

  /** One round without compaction; its request is made and answered with a plain text. */
  const ASKING := Turn(false, AsIs, false, Replies([], [Text("ok", "")], Normal), NO_BATCH, false, Ready([]), Ready([]))

  const FRESH := Memory([], NO_RECORD, [])

  /** A new Agent is prompted and steered with that message: the request is made with its call unanswered. */
  lemma SteeredCallIsUnanswered()
    ensures NoneOpen(FRESH.canonical) && Genuine([ASKING])
    ensures !Answered(RunSpec(FRESH, Prompts(Ready([User(Plain("go"))])), Admitted([]), Ready([STEERED]), [ASKING]).requests, 0)
  {
    var prompts, admission, first := Prompts(Ready([User(Plain("go"))])), Admitted([]), Ready([STEERED]);
    var given := admission.messages + prompts.poll.messages;
    SteeredIsOpen(given);
    var prompted := Prompted(FRESH, prompts, admission);
    hide OpenIds, TurnSpec;
    assert !Quiet(prompted, given, [STEERED], true, Ready([]), [ASKING]);
    assert !RunQuiet(FRESH, prompts, admission, first, [ASKING]);
    RunAnswered(FRESH, prompts, admission, first, [ASKING]);
  }

  lemma SteeredIsOpen(given: seq<Message>)
    requires given == [User(Plain("go"))] || given == [] + [User(Plain("go"))]
    ensures NoneOpen([]) && !NoneOpen(given + [STEERED])
  {
    assert [] + [User(Plain("go"))] == [User(Plain("go"))];
    var h := given + [STEERED];
    assert h[..1] == given && given[..0] == [];
    assert given == [User(Plain("go"))] && given[0].User?;
    OneCall();
    assert OpenIds(h) == OpenIds(given) + Ids(Calls(STEERED));
  }

  lemma OneCall()
    ensures "c" in Ids(Calls(STEERED))
  {
    var parts := [ToolCall(CALL, "", "{}")];
    assert STEERED == Assistant(parts) && parts[1..] == [];
    assert CallsIn(parts) == [CALL] + CallsIn([]) == [CALL];
    assert Calls(STEERED) == [CALL];
    assert [CALL][0].id == "c";
  }

  // ---- The same history put back under a summary ----------------------------------------------------------------

  const LONG := "a summary of long standing"
  const SHORT := "s"
  const LAST := User(Plain("b"))

  /** The history of an Agent that was compacted once. */
  const HISTORY: seq<Wire> := [SummaryMessage(LONG), LAST]
  const COMPACTED := Memory(HISTORY, Record(1, LONG, 1), [])

  function RequestOf(messages: seq<Wire>): Context {
    Context(messages, NoPrompt, [])
  }

  /** The plan that removes the old summary. */
  function SecondPlan(): Plan {
    var before := ContextTokens(RequestOf(HISTORY));
    Plan(HISTORY, RequestOf(HISTORY), [[SummaryMessage(LONG)], [LAST]], [], [1], [0], 1, Budget(before + 2, 1, 0, 0), before, 0, 0, 2)
  }

  function SecondSummary(): Committed {
    var context := RequestOf([SummaryMessage(SHORT), LAST]);
    Committed(SHORT, [SummaryMessage(SHORT), LAST], [SummaryMessage(LONG)], context, ContextTokens(context))
  }

  lemma {:induction false} Utf8Length(a: string, b: string)
    ensures |Utf8(a + b)| == |Utf8(a)| + |Utf8(b)|
  {
    if a == "" {
      assert a + b == b;
    } else {
      assert (a + b)[1..] == a[1..] + b;
      Utf8Length(a[1..], b);
    }
  }

  lemma {:induction false} Utf8Bounds(a: string)
    ensures |a| <= |Utf8(a)| <= 4 * |a|
  {
    if a != "" { Utf8Bounds(a[1..]); }
  }

  /** What a history of a summary and a last message costs. */
  lemma SummaryCosts(summary: string)
    ensures ContextTokens(RequestOf([SummaryMessage(summary), LAST]))
         == 16 + MessageTokens(SummaryMessage(summary)) + MessageTokens(LAST)
  {
    var messages: seq<Wire> := [SummaryMessage(summary), LAST];
    hide SummaryMessage, MessageTokens, Utf8;
    var costs := Costs(messages);
    assert ToolCosts([]) == [];
    assert costs[..1] == [costs[0]] && costs[..1][..0] == [];
    assert Sum(costs) == Sum(costs[..1]) + costs[1];
    assert Sum(costs[..1]) == Sum(costs[..1][..0]) + costs[0];
  }

  lemma ShorterIsCheaper(short: string, long: string)
    requires 4 * |short| + 4 <= |long|
    ensures MessageTokens(SummaryMessage(short)) < MessageTokens(SummaryMessage(long))
  {
    hide Utf8;
    Utf8Bounds(short);
    Utf8Bounds(long);
    Utf8Length(PREAMBLE, short);
    Utf8Length(PREAMBLE + short, CLOSING);
    Utf8Length(PREAMBLE, long);
    Utf8Length(PREAMBLE + long, CLOSING);
  }

  lemma PlainHistories(summary: string)
    ensures Inert([SummaryMessage(summary), LAST]) && Inert([SummaryMessage(summary)]) && Inert([LAST]) && Inert([])
  {
  }

  lemma FlatTwo(a: Wire, b: Wire)
    ensures Flat([[a], [b]]) == [a, b] && Flat([[a]]) == [a] && Flat([[b]]) == [b]
  {
    assert [[a], [b]][..1] == [[a]] && [[a]][..0] == [] && [[b]][..0] == [];
    assert Flat([[a]]) == Flat([]) + [a] == [a];
    assert Flat([[b]]) == Flat([]) + [b] == [b];
    assert Flat([[a], [b]]) == Flat([[a]]) + [b];
  }

  lemma SecondPlanPairs()
    ensures var p := SecondPlan();
            && Paired(p.original, {}) && Paired(p.context.messages, {})
            && p.context.messages == p.prefix + Flat(p.projections)
            && Boundary(p.original, p.prefix, p.projections, 1)
  {
    hide Paired, SummaryMessage, Flat, ContextTokens;
    var p := SecondPlan();
    var a, b: Wire := SummaryMessage(LONG), LAST;
    FlatTwo(a, b);
    PlainHistories(LONG);
    hide Inert;
    InertPairs([a, b]);
    InertPairs([a]);
    InertPairs([b]);
    assert p.original[..1] == [a] && p.original[1..] == [b];
    assert p.projections[..1] == [[a]] && [] + [a, b] == [a, b] && [] + [a] == [a];
    assert [a, b][..1] == [a] && [a, b][1..] == [b];
  }

  lemma SecondWindow()
    ensures var p := SecondPlan();
            && IsRecentStart(GroupCosts(p.projections), 0, 1) && IsCut(p.original, p.prefix, p.projections, 1, 1)
  {
    SecondPlanPairs();
    hide Paired, SummaryMessage, Boundary, Flat, ContextTokens;
    var p := SecondPlan();
    var costs := GroupCosts(p.projections);
    CostsSomething(p.projections);
    assert costs[0..] == costs && costs[..1][..0] == [];
    assert Sum(costs) == Sum(costs[..1]) + costs[1];
  }

  lemma CostsSomething(groups: seq<seq<Wire>>)
    requires |groups| == 2 && |groups[1]| == 1
    ensures |GroupCosts(groups)| == 2 && GroupCosts(groups)[1] > 0
  {
    var one := Costs(groups[1]);
    assert one[..0] == [];
    assert Sum(one) == Sum(one[..0]) + one[0];
  }

  lemma SecondKeeps()
    ensures var p := SecondPlan();
            Protected(p.original, 1, {}) == {} && Kept(2, 1, {}) == [1] && Removed(1, {}) == [0]
  {
    hide SummaryMessage, ContextTokens;
    var h := SecondPlan().original;
    assert h[1..] == [LAST] && LAST in h[1..];
    assert Kept(0, 1, {}) == [] && Kept(1, 1, {}) == [];
    assert Removed(0, {}) == [];
  }

  lemma SecondCandidate(summary: string)
    ensures var p := SecondPlan();
            (forall i | i in p.kept :: i < |p.projections|) && Candidate(p, summary) == RequestOf([SummaryMessage(summary), LAST])
  {
    hide SummaryMessage, ContextTokens;
    var p := SecondPlan();
    FlatTwo(SummaryMessage(summary), LAST);
    assert Select(p.projections, p.kept) == [[LAST]];
  }

  lemma SecondPlanIsSound()
    ensures Sound(SecondPlan(), {})
  {
    hide Paired, SummaryMessage, Boundary, Flat, ContextTokens, Protected, Kept, Removed, IsRecentStart, IsCut, Candidate, MessageTokens, GroupCosts;
    SecondPlanPairs();
    SecondWindow();
    SecondKeeps();
    SecondCandidate("");
    SummaryCosts(LONG);
    SummaryCosts("");
    ShorterIsCheaper("", LONG);
    assert |SecondPlan().original| == 2;
  }

  lemma SecondSummaryPairs()
    ensures Paired([SummaryMessage(SHORT), LAST], {})
  {
    hide Paired, SummaryMessage, Inert;
    PlainHistories(SHORT);
    InertPairs([SummaryMessage(SHORT), LAST]);
  }

  lemma SecondSelects()
    ensures var p := SecondPlan();
            Select(p.original, p.kept) == [LAST] && Select(p.original, p.removed) == [SummaryMessage(LONG)]
  {
    hide SummaryMessage, ContextTokens;
  }

  lemma SecondFits()
    ensures SecondSummary().after < SecondPlan().before == ContextTokens(RequestOf(HISTORY))
    ensures SecondPlan().before <= InputLimit(SecondPlan().budget)
  {
    hide SummaryMessage, ContextTokens, MessageTokens;
    SummaryCosts(LONG);
    SummaryCosts(SHORT);
    ShorterIsCheaper(SHORT, LONG);
  }

  lemma SecondSummaryCommits()
    ensures Committable(SecondPlan(), SecondSummary())
  {
    hide Paired, SummaryMessage, Sound, Flat, ContextTokens, Candidate, MessageTokens, Inert, Select;
    SecondPlanIsSound();
    SecondCandidate(SHORT);
    SecondSummaryPairs();
    SecondSelects();
    SecondFits();
    assert [SummaryMessage(SHORT)] + [LAST] == [SummaryMessage(SHORT), LAST];
  }

  /** The round in which the host puts the same history in place again while the second summary is made. */
  function Replacing(): Turn {
    ASKING.(prepare := Compacts(SecondPlan(), SecondSummary(), Replaces(HISTORY)))
  }

  lemma ReplacingMiscounts()
    ensures Genuine([Replacing()]) && Restorable(COMPACTED) && Miscounts(COMPACTED, Replacing(), [])
  {
    hide Committable, SummaryMessage, ContextTokens;
    SecondSummaryCommits();
    assert COMPACTED.canonical + [] == HISTORY;
  }

  lemma HistoryIsClosed()
    ensures NoneOpen(COMPACTED.canonical)
  {
    hide Inert, Paired, SummaryMessage, NoneOpen;
    PlainHistories(LONG);
    InertPairs(HISTORY);
    PairedIsClosed(HISTORY);
  }

  /** A run of one round that goes on without calls ends with that round. */
  lemma OneRound(m: Memory, turn: Turn)
    requires Genuine([turn]) && !turn.cancelledFirst && !turn.cancelledLast && turn.followUps == Ready([])
    requires turn.prepare.Compacts? && turn.prepare.result.Committed?
    requires var t := TurnSpec(m, turn, []); t.round == Goes(false) && t.pending == []
    ensures RunSpec(m, Prompts(Ready([])), Admitted([]), Ready([]), [turn]) == TurnSpec(m, turn, []).memory
  {
    hide TurnSpec, LoopSpec, Committable;
    assert m.canonical + [] == m.canonical;
    LoopTurn(m, [], true, Ready([]), [turn]);
    assert [turn][1..] == [];
    LoopFollows(TurnSpec(m, turn, []).memory, Ready([]), []);
  }

  /** The run goes through, and the record it leaves counts one message for two compactions: its own dump is refused. */
  lemma ReplacedHistoryMiscounts()
    ensures Genuine([Replacing()]) && Restorable(COMPACTED) && NoneOpen(COMPACTED.canonical)
    ensures !Restorable(RunSpec(COMPACTED, Prompts(Ready([])), Admitted([]), Ready([]), [Replacing()]))
  {
    hide Restorable, Miscounts, TurnSpec, LoopSpec, RunSpec, NoneOpen, Committable, SecondPlan, SecondSummary;
    HistoryIsClosed();
    ReplacingMiscounts();
    var turn := Replacing();
    assert turn in [turn];
    TurnRestorable(COMPACTED, turn, []);
    OneReply();
    OneRound(COMPACTED, turn);
  }

  /** Its round goes on without calls. */
  lemma OneReply()
    ensures var turn := Replacing();
            && turn.prepare.result.Committed?
            && TurnSpec(COMPACTED, turn, []).round == Goes(false) && TurnSpec(COMPACTED, turn, []).pending == []
  {
    hide SummaryMessage, ContextTokens, Results, Padded;
    assert HISTORY + [] == HISTORY;
    var parts := [Text("ok", "")];
    assert parts[1..] == [] && CallsIn([]) == [] && CallsIn(parts) == [];
  }
}
