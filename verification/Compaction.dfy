/** Planning and committing a compaction of the history (compaction.py). */
module Compaction {
  import opened TextCodecs
  import opened History

  /** A message a provider accepts; custom messages are projected before they get here. */
  type Wire = m: Message | !m.Custom? witness User(Plain(""))

  // ---- Token estimates -------------------------------------------------------------------------------

  function Sum(counts: seq<nat>): nat {
    if counts == [] then 0 else Sum(counts[..|counts| - 1]) + counts[|counts| - 1]
  }

  lemma {:induction false} SumSplit(a: seq<nat>, b: seq<nat>)
    ensures Sum(a + b) == Sum(a) + Sum(b)
  {
    if b == [] {
      assert a + b == a;
    } else {
      var n := |b| - 1;
      assert (a + b)[..|a| + n] == a + b[..n];
      SumSplit(a, b[..n]);
    }
  }

  function TextTokens(text: string): nat {
    (|Utf8(text)| + 3) / 4
  }

  function Max(a: int, b: int): int { if a < b then b else a }

  function Min(a: int, b: int): int { if a < b then a else b }

  function PartTokens(p: Part): nat {
    match p
    case Text(text, signature) => TextTokens(text) + TextTokens(signature)
    case Thinking(text, signature) => TextTokens(text) + TextTokens(signature)
    case ToolCall(call, signature, arguments) =>
      TextTokens(call.id + call.name + signature) + TextTokens(arguments) + 10
    case Image(data, mime) => Max(200, TextTokens(data)) + TextTokens(mime)
  }

  function PartCosts(parts: seq<Part>): seq<nat> {
    seq(|parts|, k requires 0 <= k < |parts| => PartTokens(parts[k]))
  }

  function MessageTokens(m: Wire): nat {
    match m
    case User(Plain(text)) => 10 + TextTokens(text)
    case User(Parts(parts)) => 10 + Sum(PartCosts(parts))
    case Assistant(parts) => 10 + Sum(PartCosts(parts))
    case Result(call, parts) => 10 + Sum(PartCosts(parts)) + TextTokens(call.id + call.name) + 4
  }

  function Costs(messages: seq<Wire>): seq<nat> {
    seq(|messages|, k requires 0 <= k < |messages| => MessageTokens(messages[k]))
  }

  datatype Prompt = NoPrompt | OnePrompt(text: string) | Blocks(texts: seq<string>)

  datatype Tool = Tool(name: string, description: string, parameters: string)

  datatype Context = Context(messages: seq<Wire>, system: Prompt, tools: seq<Tool>)

  /** `format` is the response schema's text with its name and description, `choice` the tool choice's type and name. */
  datatype Options = Options(maxTokens: Option<nat>, format: Option<string>, choice: Option<string>)

  const NO_OPTIONS := Options(None, None, None)

  /** The non-empty blocks, separated by blank lines. */
  function Joined(texts: seq<string>): string
    decreases |texts|
  {
    if texts == [] then ""
    else if texts[0] == "" then Joined(texts[1..])
    else if Joined(texts[1..]) == "" then texts[0] else texts[0] + "\n\n" + Joined(texts[1..])
  }

  function PromptTokens(p: Prompt): nat {
    match p
    case NoPrompt => 0
    case OnePrompt(text) => TextTokens(text)
    case Blocks(texts) => TextTokens(Joined(texts)) + 4 * |texts|
  }

  function ToolCosts(tools: seq<Tool>): seq<nat> {
    seq(|tools|, k requires 0 <= k < |tools| =>
      16 + TextTokens(tools[k].name) + TextTokens(tools[k].description) + TextTokens(tools[k].parameters))
  }

  /** What the request costs without its options. */
  function ContextTokens(c: Context): nat {
    16 + PromptTokens(c.system) + Sum(ToolCosts(c.tools)) + Sum(Costs(c.messages))
  }

  function OptionTokens(o: Options): nat {
    (if o.format.Some? then 16 + TextTokens(o.format.value) else 0)
    + (if o.choice.Some? then 4 + TextTokens(o.choice.value) else 0)
  }

  lemma LastSum(counts: seq<nat>, k: nat)
    requires k < |counts|
    ensures Sum(counts[..k + 1]) == Sum(counts[..k]) + counts[k]
  {
    assert counts[..k + 1][..k] == counts[..k];
  }

  method EstimateParts(parts: seq<Part>) returns (total: nat)
    ensures total == Sum(PartCosts(parts))
  {
    total := 0;
    var costs := PartCosts(parts);
    for k := 0 to |parts|
      invariant total == Sum(costs[..k])
    {
      LastSum(costs, k);
      match parts[k]
      case Text(text, signature) => total := total + TextTokens(text) + TextTokens(signature);
      case Thinking(text, signature) => total := total + TextTokens(text) + TextTokens(signature);
      case ToolCall(call, signature, arguments) =>
        total := total + TextTokens(call.id + call.name + signature);
        total := total + TextTokens(arguments) + 10;
      case Image(data, mime) => total := total + Max(200, TextTokens(data)) + TextTokens(mime);
    }
    assert costs[..|parts|] == costs;
  }

  /** `estimate_input_message_tokens` */
  method EstimateMessage(m: Wire) returns (total: nat)
    ensures total == MessageTokens(m)
  {
    total := 10;
    if m.User? && m.content.Plain? { return total + TextTokens(m.content.text); }
    var parts := EstimateParts(if m.User? then m.content.parts else m.parts);
    total := total + parts;
    if m.Result? { total := total + TextTokens(m.call.id + m.call.name) + 4; }
  }

  /** `estimate_input_tokens`: what the options add does not depend on the request. */
  method EstimateInput(c: Context, options: Options) returns (total: nat)
    ensures total == ContextTokens(c) + OptionTokens(options)
  {
    total := 16 + (match c.system case NoPrompt => TextTokens("") case OnePrompt(text) => TextTokens(text) case Blocks(texts) => TextTokens(Joined(texts)));
    if options.format.Some? { total := total + 16 + TextTokens(options.format.value); }
    if options.choice.Some? { total := total + 4 + TextTokens(options.choice.value); }
    if c.system.Blocks? { total := total + 4 * |c.system.texts|; }
    ghost var base := total;
    var tools := ToolCosts(c.tools);
    for k := 0 to |c.tools|
      invariant total == base + Sum(tools[..k])
    {
      LastSum(tools, k);
      total := total + 16 + TextTokens(c.tools[k].name) + TextTokens(c.tools[k].description) + TextTokens(c.tools[k].parameters);
    }
    assert tools[..|c.tools|] == tools;
    var costs := Costs(c.messages);
    for k := 0 to |c.messages|
      invariant total == base + Sum(tools) + Sum(costs[..k])
    {
      LastSum(costs, k);
      var cost := EstimateMessage(c.messages[k]);
      total := total + cost;
    }
    assert costs[..|c.messages|] == costs;
  }

  // ---- The recent window ------------------------------------------------------------------------------

  /** The window starts as early as the target allows, and always holds the last message. */
  predicate IsRecentStart(counts: seq<nat>, target: nat, cut: nat) {
    && cut <= |counts|
    && (cut == |counts| <==> counts == [])
    && (|counts| - cut <= 1 || Sum(counts[cut..]) <= target)
    && (forall c | 0 <= c < cut && c < |counts| - 1 :: Sum(counts[c..]) > target)
  }

  /** `recent_start` */
  method RecentStart(counts: seq<nat>, target: nat) returns (cut: nat)
    ensures IsRecentStart(counts, target, cut)
    ensures cut <= |counts| && (cut == |counts| ==> counts == [])
  {
    var accumulated := 0;
    cut := |counts|;
    while cut > 0
      invariant cut <= |counts|
      invariant accumulated == Sum(counts[cut..])
      invariant |counts| - cut <= 1 || accumulated <= target
    {
      var count := counts[cut - 1];
      assert counts[cut - 1..] == [count] + counts[cut..];
      SumSplit([count], counts[cut..]);
      assert Sum([count]) == count by { assert [count][..0] == []; }
      if accumulated + count > target && cut < |counts| {
        forall c | 0 <= c < cut ensures Sum(counts[c..]) > target {
          assert counts[c..] == counts[c..cut - 1] + counts[cut - 1..];
          SumSplit(counts[c..cut - 1], counts[cut - 1..]);
        }
        return;
      }
      accumulated := accumulated + count;
      cut := cut - 1;
    }
  }

  // ---- Plans ----------------------------------------------------------------------------------------

  datatype Budget = Budget(window: nat, reserve: nat, maxPrompt: nat, margin: nat)

  function InputLimit(b: Budget): int {
    Min(if b.maxPrompt != 0 then b.maxPrompt else b.window, b.window - b.reserve) - b.margin
  }

  /** What the constructor of a budget checks. */
  predicate Usable(b: Budget) {
    b.window > 0 && b.reserve > 0 && InputLimit(b) > 0
  }

  function Flat(groups: seq<seq<Wire>>): seq<Wire> {
    if groups == [] then [] else Flat(groups[..|groups| - 1]) + groups[|groups| - 1]
  }

  function Select<T>(items: seq<T>, indices: seq<nat>): seq<T>
    requires forall i | i in indices :: i < |items|
  {
    seq(|indices|, k requires 0 <= k < |indices| => assert indices[k] in indices; items[indices[k]])
  }

  /** The indices below `n` that stay: the recent suffix and the protected ones. */
  function Kept(n: nat, cut: nat, protected: set<int>): (r: seq<nat>)
    ensures forall i: nat :: i in r <==> i < n && (i >= cut || i in protected)
  {
    if n == 0 then [] else Kept(n - 1, cut, protected) + if n - 1 >= cut || n - 1 in protected then [n - 1] else []
  }

  /** The indices below `cut` that go. */
  function Removed(cut: nat, protected: set<int>): (r: seq<nat>)
    ensures forall i: nat :: i in r <==> i < cut && i !in protected
  {
    if cut == 0 then [] else Removed(cut - 1, protected) + if cut - 1 in protected then [] else [cut - 1]
  }

  datatype Plan = Plan(
    original: seq<Message>,
    context: Context,
    projections: seq<seq<Wire>>,
    prefix: seq<Wire>,
    kept: seq<nat>,
    removed: seq<nat>,
    cut: nat,
    budget: Budget,
    before: nat,
    extra: nat,
    target: nat,
    generation: nat)

  datatype Refusal = OutputReserve | CustomNeedsProjection | Misaligned | Mismatch | BadPairing | NoCapacity
                   | BadProtection | NoProgress | NoRoom

  datatype Planned = BelowTrigger | Refused(why: Refusal) | Planned(plan: Plan)

  /** Both the history and the request split here into tool-complete halves. */
  predicate Boundary(h: seq<Message>, prefix: seq<Wire>, groups: seq<seq<Wire>>, i: nat)
    requires i <= |h| == |groups|
  {
    var request := prefix + Flat(groups);
    var offset := |prefix + Flat(groups[..i])|;
    && Paired(h[..i], {}) && Paired(h[i..], {})
    && offset <= |request| && Paired(request[..offset], {}) && Paired(request[offset..], {})
  }

  /** The latest boundary at or before the wanted start, or 0 if there is none. */
  predicate IsCut(h: seq<Message>, prefix: seq<Wire>, groups: seq<seq<Wire>>, wanted: nat, cut: nat)
    requires wanted <= |h| == |groups|
  {
    && cut <= wanted
    && (forall i | cut < i <= wanted && i < |h| :: !Boundary(h, prefix, groups, i))
    && (cut > 0 ==> cut < |h| && Boundary(h, prefix, groups, cut))
  }

  /** The last user message before the cut. */
  function Task(h: seq<Message>, cut: nat): Option<nat>
    requires cut <= |h|
  {
    if cut == 0 then None else if h[cut - 1].User? then Some(cut - 1) else Task(h, cut - 1)
  }

  predicate HasUser(h: seq<Message>) {
    exists m | m in h :: m.User?
  }

  /** A cut inside a turn keeps the turn's user message too. */
  function Protected(h: seq<Message>, cut: nat, given: set<int>): set<int>
    requires cut <= |h|
  {
    if cut > 0 && !HasUser(h[cut..]) && Task(h, cut).Some? then given + {Task(h, cut).value} else given
  }

  const PREAMBLE := "<conversation_summary>\nThe conversation so far has been summarized. Here is the summary:\n\n"
  const CLOSING := "\n</conversation_summary>\n"

  /** The user message that stands for the removed part. */
  function SummaryMessage(summary: string): Wire {
    User(Plain(PREAMBLE + summary + CLOSING))
  }

  /** The request with the summary in place of what was removed. */
  function Candidate(p: Plan, summary: string): Context
    requires forall i | i in p.kept :: i < |p.projections|
  {
    p.context.(messages := p.prefix + [SummaryMessage(summary)] + Flat(Select(p.projections, p.kept)))
  }

  /** What a plan promises about the request it was made from. */
  predicate Sound(p: Plan, given: set<int>) {
    var h := p.original;
    && |h| == |p.projections| && p.cut < |h|
    && p.context.messages == p.prefix + Flat(p.projections)
    && Paired(h, {}) && Paired(p.context.messages, {})
    && p.kept == Kept(|h|, p.cut, Protected(h, p.cut, given))
    && p.removed == Removed(p.cut, Protected(h, p.cut, given))
    && p.removed != []
    && Boundary(h, p.prefix, p.projections, p.cut)
    && (exists wanted: nat :: wanted < |h| && IsRecentStart(GroupCosts(p.projections), p.target, wanted)
          && IsCut(h, p.prefix, p.projections, wanted, p.cut))
    && p.before == ContextTokens(p.context) + p.extra
    && Usable(p.budget)
    && ContextTokens(Candidate(p, "")) + p.extra < Min(p.before, InputLimit(p.budget))
  }

  function GroupCosts(groups: seq<seq<Wire>>): seq<nat> {
    seq(|groups|, k requires 0 <= k < |groups| => Sum(Costs(groups[k])))
  }

  function Target(limit: int, overhead: nat, total: nat, force: bool): nat {
    var t := Max(1, Min(limit / 2, limit - overhead));
    if force then Min(t, Max(1, total / 2)) else t
  }

  method CostGroups(groups: seq<seq<Wire>>) returns (counts: seq<nat>)
    ensures counts == GroupCosts(groups)
  {
    counts := [];
    for k := 0 to |groups|
      invariant |counts| == k && forall j | 0 <= j < k :: counts[j] == Sum(Costs(groups[j]))
    {
      var total := 0;
      var costs := Costs(groups[k]);
      for j := 0 to |groups[k]|
        invariant total == Sum(costs[..j])
      {
        LastSum(costs, j);
        var cost := EstimateMessage(groups[k][j]);
        total := total + cost;
      }
      assert costs[..|groups[k]|] == costs;
      counts := counts + [total];
    }
  }

  lemma FlatNext(groups: seq<seq<Wire>>, k: nat)
    requires k < |groups|
    ensures Flat(groups[..k + 1]) == Flat(groups[..k]) + groups[k]
  {
    assert groups[..k + 1][..k] == groups[..k];
  }

  lemma {:induction false} FlatSplit(a: seq<seq<Wire>>, b: seq<seq<Wire>>)
    ensures Flat(a + b) == Flat(a) + Flat(b)
  {
    if b == [] {
      assert a + b == a;
    } else {
      var n := |b| - 1;
      assert (a + b)[..|a| + n] == a + b[..n];
      FlatSplit(a, b[..n]);
    }
  }

  /** The boundary search: `safe` and `projectedSafe` are the safe cuts of the history and of the request. */
  method FindCut(h: seq<Message>, prefix: seq<Wire>, groups: seq<seq<Wire>>, safe: seq<nat>, projectedSafe: seq<nat>, wanted: nat)
    returns (cut: nat)
    requires wanted <= |h| == |groups|
    requires forall k: nat :: k in safe <==> k <= |h| && Paired(h[..k], {}) && Paired(h[k..], {})
    requires var request := prefix + Flat(groups);
      forall k: nat :: k in projectedSafe <==> k <= |request| && Paired(request[..k], {}) && Paired(request[k..], {})
    ensures IsCut(h, prefix, groups, wanted, cut)
  {
    hide Paired;
    var offset := |prefix|;
    cut := 0;
    for i := 0 to |groups|
      invariant offset == |prefix + Flat(groups[..i])|
      invariant cut <= wanted && (i > 0 ==> cut < i) && (i == 0 ==> cut == 0)
      invariant forall j | cut < j < i && j <= wanted :: !Boundary(h, prefix, groups, j)
      invariant cut > 0 ==> Boundary(h, prefix, groups, cut)
    {
      FlatNext(groups, i);
      assert (i in safe && offset in projectedSafe) <==> Boundary(h, prefix, groups, i);
      if i in safe && offset in projectedSafe && i <= wanted { cut := i; }
      offset := offset + |groups[i]|;
    }
  }

  /** The indices a caller may protect name messages that reach the model as user messages only. */
  predicate MayProtect(groups: seq<seq<Wire>>, protected: seq<int>) {
    forall i | i in protected :: 0 <= i < |groups| && forall m | m in groups[i] :: m.User?
  }

  /** One group per message: the given ones, or each message by itself. */
  predicate GroupsOf(h: seq<Message>, projections: Option<seq<seq<Wire>>>, groups: seq<seq<Wire>>) {
    if projections.Some? then groups == projections.value
    else |groups| == |h| && forall k | 0 <= k < |h| :: groups[k] == [h[k]]
  }

  /** A refusal has the reason it gives. */
  ghost predicate Justified(why: Refusal, h: seq<Message>, context: Context, budget: Budget, force: bool, protectedIndices: seq<int>,
                            projections: Option<seq<seq<Wire>>>, prefix: seq<Wire>, options: Options) {
    match why
    case OutputReserve => options.maxTokens.Some? && options.maxTokens.value > budget.reserve
    case CustomNeedsProjection => projections.None? && exists m | m in h :: m.Custom?
    case Misaligned => projections.Some? && |projections.value| != |h|
    case Mismatch => exists groups :: GroupsOf(h, projections, groups) && prefix + Flat(groups) != context.messages
    case BadPairing => !Paired(h, {}) || !Paired(context.messages, {})
    case NoCapacity => ContextTokens(context.(messages := prefix)) + OptionTokens(options) >= InputLimit(budget)
    case BadProtection => exists groups :: GroupsOf(h, projections, groups) && !MayProtect(groups, protectedIndices)
    case NoProgress => exists cut :: CutFor(h, context, budget, force, projections, prefix, options, cut)
                         && Removed(cut, Protected(h, cut, set i | i in protectedIndices)) == []
    case NoRoom => exists p: Plan ::
      && p.original == h && p.context == context && p.prefix == prefix && GroupsOf(h, projections, p.projections) && |p.projections| == |h|
      && CutFor(h, context, budget, force, projections, prefix, options, p.cut)
      && p.kept == Kept(|h|, p.cut, Protected(h, p.cut, set i | i in protectedIndices))
      && ContextTokens(Candidate(p, "")) + OptionTokens(options)
           >= Min(ContextTokens(context) + OptionTokens(options), InputLimit(budget))
  }

  /** The cut of a plan: the latest boundary before the recent window. */
  ghost predicate CutFor(h: seq<Message>, context: Context, budget: Budget, force: bool, projections: Option<seq<seq<Wire>>>,
                         prefix: seq<Wire>, options: Options, cut: nat) {
    exists groups, wanted: nat ::
      && GroupsOf(h, projections, groups) && |groups| == |h|
      && var overhead := ContextTokens(context.(messages := prefix)) + OptionTokens(options);
         var target := Target(InputLimit(budget), overhead, Sum(GroupCosts(groups)), force);
         IsRecentStart(GroupCosts(groups), target, wanted) && wanted <= |h| && IsCut(h, prefix, groups, wanted, cut)
  }

  lemma CutFound(h: seq<Message>, context: Context, budget: Budget, force: bool, projections: Option<seq<seq<Wire>>>,
                 prefix: seq<Wire>, options: Options, groups: seq<seq<Wire>>, wanted: nat, cut: nat)
    requires GroupsOf(h, projections, groups) && |groups| == |h| && wanted <= |h| && IsCut(h, prefix, groups, wanted, cut)
    requires var overhead := ContextTokens(context.(messages := prefix)) + OptionTokens(options);
             IsRecentStart(GroupCosts(groups), Target(InputLimit(budget), overhead, Sum(GroupCosts(groups)), force), wanted)
    ensures CutFor(h, context, budget, force, projections, prefix, options, cut)
  {
    hide IsCut, IsRecentStart, Target, ContextTokens, GroupCosts;
  }

  /** The projections, or every message as its own; None for custom messages without projections. */
  method MakeGroups(h: seq<Message>, projections: Option<seq<seq<Wire>>>) returns (r: Option<seq<seq<Wire>>>)
    ensures r.Some? ==> GroupsOf(h, projections, r.value)
    ensures r.None? <==> projections.None? && exists m | m in h :: m.Custom?
  {
    if projections.Some? { return projections; }
    var groups: seq<seq<Wire>> := [];
    for k := 0 to |h|
      invariant |groups| == k && forall j | 0 <= j < k :: !h[j].Custom? && groups[j] == [h[j]]
    {
      if h[k].Custom? { return None; }
      groups := groups + [[h[k]]];
    }
    return Some(groups);
  }

  /** Where the history may be cut, or why not. */
  datatype Placed = Early(outcome: Planned)
                  | At(groups: seq<seq<Wire>>, before: nat, extra: nat, target: nat, wanted: nat, cut: nat)

  /** What is known of a place. */
  predicate Placement(at: Placed, h: seq<Message>, context: Context, prefix: seq<Wire>) {
    && at.At? && |at.groups| == |h|
    && context.messages == prefix + Flat(at.groups)
    && Paired(h, {}) && Paired(context.messages, {})
    && at.before == ContextTokens(context) + at.extra
    && IsRecentStart(GroupCosts(at.groups), at.target, at.wanted) && at.wanted <= |h|
    && IsCut(h, prefix, at.groups, at.wanted, at.cut)
  }

  /** `plan_compaction` up to the cut. */
  method Place(h: seq<Message>, context: Context, budget: Budget, force: bool, ghost protectedIndices: seq<int>,
               projections: Option<seq<seq<Wire>>>, prefix: seq<Wire>, options: Options) returns (at: Placed)
    requires Usable(budget)
    ensures at.Early? ==> !at.outcome.Planned?
    ensures at == Early(BelowTrigger) ==> !force && 5 * (ContextTokens(context) + OptionTokens(options)) < 4 * InputLimit(budget)
    ensures at.Early? && at.outcome.Refused? ==>
              Justified(at.outcome.why, h, context, budget, force, protectedIndices, projections, prefix, options)
    ensures at.At? ==> Placement(at, h, context, prefix) && GroupsOf(h, projections, at.groups)
    ensures at.At? ==> at.extra == OptionTokens(options) && CutFor(h, context, budget, force, projections, prefix, options, at.cut)
    ensures at.At? && !force ==> 5 * at.before >= 4 * InputLimit(budget)
  {
    hide Paired, ContextTokens, PromptTokens, Flat, Boundary, IsRecentStart, Protected, MessageTokens, CutFor, SummaryMessage;
    if options.maxTokens.Some? && options.maxTokens.value > budget.reserve { return Early(Refused(OutputReserve)); }
    var made := MakeGroups(h, projections);
    if made.None? { return Early(Refused(CustomNeedsProjection)); }
    var groups: seq<seq<Wire>> := made.value;
    if |groups| != |h| { return Early(Refused(Misaligned)); }
    if prefix + Flat(groups) != context.messages { return Early(Refused(Mismatch)); }
    var safe := SafeCutIndices(h);
    if safe.None? { return Early(Refused(BadPairing)); }
    var projectedSafe := SafeCutIndices(context.messages);
    if projectedSafe.None? { return Early(Refused(BadPairing)); }
    var before := EstimateInput(context, options);
    var bare := EstimateInput(context, NO_OPTIONS);
    var extra := before - bare;
    var limit := InputLimit(budget);
    if !force && 5 * before < 4 * limit { return Early(BelowTrigger); }
    var overhead := EstimateInput(context.(messages := prefix), options);
    if overhead >= limit { return Early(Refused(NoCapacity)); }
    var counts := CostGroups(groups);
    var target := Target(limit, overhead, Sum(counts), force);
    var wanted := RecentStart(counts, target);
    var cut := FindCut(h, prefix, groups, safe.value, projectedSafe.value, wanted);
    CutFound(h, context, budget, force, projections, prefix, options, groups, wanted, cut);
    return At(groups, before, extra, target, wanted, cut);
  }

  /** `plan_compaction` */
  method MakePlan(h: seq<Message>, context: Context, budget: Budget, force: bool, generation: nat,
                  protectedIndices: seq<int>, projections: Option<seq<seq<Wire>>>, prefix: seq<Wire>, options: Options)
    returns (r: Planned)
    requires Usable(budget)
    ensures r.Planned? ==> Sound(r.plan, set i | i in protectedIndices)
    ensures r.Planned? ==> r.plan.original == h && r.plan.context == context && r.plan.prefix == prefix && r.plan.budget == budget
    ensures r.Planned? ==> r.plan.extra == OptionTokens(options) && r.plan.generation == generation + 1
    ensures r.Planned? ==> GroupsOf(h, projections, r.plan.projections) && MayProtect(r.plan.projections, protectedIndices)
    ensures r.Planned? ==> CutFor(h, context, budget, force, projections, prefix, options, r.plan.cut)
    ensures r.Planned? && !force ==> 5 * r.plan.before >= 4 * InputLimit(budget)
    ensures r == BelowTrigger ==> !force && 5 * (ContextTokens(context) + OptionTokens(options)) < 4 * InputLimit(budget)
    ensures r.Refused? ==> Justified(r.why, h, context, budget, force, protectedIndices, projections, prefix, options)
  {
    hide Paired, ContextTokens, PromptTokens, Flat, Boundary, IsRecentStart, Protected, MessageTokens, CutFor, SummaryMessage,
         GroupsOf, GroupCosts, Target, Usable, OptionTokens;
    var at := Place(h, context, budget, force, protectedIndices, projections, prefix, options);
    if at.Early? { return at.outcome; }
    var groups: seq<seq<Wire>>, cut := at.groups, at.cut;
    for k := 0 to |protectedIndices|
      invariant forall j | 0 <= j < k :: 0 <= protectedIndices[j] < |groups| && forall m | m in groups[protectedIndices[j]] :: m.User?
    {
      var i := protectedIndices[k];
      if i < 0 || i >= |h| || exists m | m in groups[i] :: !m.User? {
        assert i in protectedIndices && !MayProtect(groups, protectedIndices);
        return Refused(BadProtection);
      }
    }
    var protected := Protected(h, cut, set i | i in protectedIndices);
    var kept, removed := Kept(|h|, cut, protected), Removed(cut, protected);
    if removed == [] { return Refused(NoProgress); }
    assert removed[0] in removed;
    CutInside(h, prefix, at);
    var plan := Plan(h, context, groups, prefix, kept, removed, cut, budget, at.before, at.extra, at.target, generation + 1);
    var least := EstimateInput(Candidate(plan, ""), options);
    if least >= Min(at.before, InputLimit(budget)) { return Refused(NoRoom); }
    return Planned(plan);
  }

  /** A cut that removes something lies inside the history. */
  lemma CutInside(h: seq<Message>, prefix: seq<Wire>, at: Placed)
    requires at.At? && |at.groups| == |h| && at.wanted <= |h| && at.cut > 0
    requires IsRecentStart(GroupCosts(at.groups), at.target, at.wanted) && IsCut(h, prefix, at.groups, at.wanted, at.cut)
    ensures at.cut < |h| && at.wanted < |h| && Boundary(h, prefix, at.groups, at.cut)
  {
    hide Boundary;
  }

  // ---- Committing -----------------------------------------------------------------------------------

  datatype Committed = Failed | Committed(summary: string, messages: seq<Message>, removed: seq<Message>, context: Context, after: nat)

  /** A committed candidate: the summary stands for what was removed, and the request has become smaller and fits. */
  predicate Commits(p: Plan, given: set<int>, r: Committed) {
    && Sound(p, given) && r.Committed?
    && r.messages == [SummaryMessage(r.summary)] + Select(p.original, p.kept)
    && r.removed == Select(p.original, p.removed)
    && r.context == Candidate(p, r.summary)
    && Paired(r.messages, {}) && Paired(r.context.messages, {})
    && r.after == ContextTokens(r.context) + p.extra
    && r.after <= InputLimit(p.budget) && r.after < p.before
  }

  /** Only its size can make a candidate fail, once the pairing of the kept part is known. */
  predicate Fits(p: Plan, summary: string)
    requires forall i | i in p.kept :: i < |p.projections|
  {
    ContextTokens(Candidate(p, summary)) + p.extra <= InputLimit(p.budget) && ContextTokens(Candidate(p, summary)) + p.extra < p.before
  }

  /** `summarize_compaction`: `request` is the summary request, `reply` what the model made of it if it succeeded. */
  method Summarize(p: Plan, ghost given: set<int>, request: Context, reply: Option<string>) returns (r: Committed)
    requires Sound(p, given)
    ensures r.Committed? ==> reply == Some(r.summary) && Commits(p, given, r)
    ensures r.Committed? <==> reply.Some? && ContextTokens(request) <= InputLimit(p.budget) && Fits(p, reply.value) && FrontPairs(p, given)
  {
    hide EarlyIndices, FrontPairs, Paired, ContextTokens, PromptTokens, Flat, Boundary, IsRecentStart, IsCut, Protected;
    if reply.Some? { PairingExactly(p, given, reply.value); }
    var asked := EstimateInput(request, NO_OPTIONS);
    if asked > InputLimit(p.budget) || reply.None? { return Failed; }
    var summary := reply.value;
    var messages := [SummaryMessage(summary)] + Select(p.original, p.kept);
    var context := Candidate(p, summary);
    var whole := SafeCutIndices(messages);
    if whole.None? { return Failed; }
    var projected := SafeCutIndices(context.messages);
    if projected.None? { return Failed; }
    var bare := EstimateInput(context, NO_OPTIONS);
    var after := bare + p.extra;
    if after > InputLimit(p.budget) || after >= p.before { return Failed; }
    return Committed(summary, messages, Select(p.original, p.removed), context, after);
  }

  // ---- What compaction guarantees ---------------------------------------------------------------------

  /** Every message is kept or removed, none both, each in its old order; the recent suffix is kept whole. */
  lemma KeptAndRemovedPartition(p: Plan, given: set<int>)
    requires Sound(p, given)
    ensures forall i: nat | i < |p.original| :: i in p.kept <==> i !in p.removed
    ensures |p.kept| + |p.removed| == |p.original|
    ensures forall i: nat | p.cut <= i < |p.original| :: i in p.kept
    ensures |p.original| - 1 in p.kept
    ensures forall j, k | 0 <= j < k < |p.kept| :: p.kept[j] < p.kept[k]
  {
    SoundFacts(p, given);
    var protected := Protected(p.original, p.cut, given);
    assert p.removed == Removed(p.cut, protected);
    hide Sound, Protected;
    CountEarly(p.cut, protected);
    KeptSplits(|p.original|, p.cut, protected);
    RangeSize(p.cut, |p.original|);
    forall j, k | 0 <= j < k < |p.kept| ensures p.kept[j] < p.kept[k] { KeptAscends(|p.original|, p.cut, protected, j, k); }
  }

  lemma {:induction false} CountEarly(cut: nat, protected: set<int>)
    ensures |Kept(cut, cut, protected)| + |Removed(cut, protected)| == cut
  {
    if cut > 0 {
      CountEarly(cut - 1, protected);
      SameBelow(cut - 1, cut, protected);
    }
  }

  /** Below the cut it does not matter where the cut is. */
  lemma {:induction false} SameBelow(n: nat, cut: nat, protected: set<int>)
    requires n <= cut
    ensures Kept(n, cut, protected) == Kept(n, n, protected)
  {
    if n > 0 {
      SameBelow(n - 1, cut, protected);
      SameBelow(n - 1, n, protected);
    }
  }

  lemma {:induction false} KeptAscends(n: nat, cut: nat, protected: set<int>, j: nat, k: nat)
    requires j < k < |Kept(n, cut, protected)|
    ensures Kept(n, cut, protected)[j] < Kept(n, cut, protected)[k]
  {
    var before := Kept(n - 1, cut, protected);
    assert before[j] in before;
    if k < |before| { KeptAscends(n - 1, cut, protected, j, k); }
  }

  function Range(from: nat, to: nat): seq<nat>
    requires from <= to
  {
    if from == to then [] else Range(from, to - 1) + [to - 1]
  }

  lemma {:induction false} KeptSplits(n: nat, cut: nat, protected: set<int>)
    requires cut <= n
    ensures Kept(n, cut, protected) == Kept(cut, cut, protected) + Range(cut, n)
  {
    if n > cut { KeptSplits(n - 1, cut, protected); }
  }

  lemma {:induction false} RangeSize(from: nat, to: nat)
    requires from <= to
    ensures |Range(from, to)| == to - from
  {
    if from < to { RangeSize(from, to - 1); }
  }

  lemma {:induction false} RangeBounds(from: nat, to: nat)
    requires from <= to
    ensures forall i | i in Range(from, to) :: from <= i < to
  {
    if from < to { RangeBounds(from, to - 1); }
  }

  lemma {:induction false} SelectRange<T>(items: seq<T>, from: nat, to: nat)
    requires from <= to <= |items|
    ensures forall i | i in Range(from, to) :: i < |items|
    ensures Select(items, Range(from, to)) == items[from..to]
  {
    RangeBounds(from, to);
    if from < to {
      SelectRange(items, from, to - 1);
      SelectSplit(items, Range(from, to - 1), [to - 1]);
      assert Range(from, to) == Range(from, to - 1) + [to - 1];
      assert Select(items, [to - 1]) == [items[to - 1]];
      assert items[from..to] == items[from..to - 1] + [items[to - 1]];
    }
  }

  lemma SelectSplit<T>(items: seq<T>, a: seq<nat>, b: seq<nat>)
    requires forall i | i in a + b :: i < |items|
    ensures (forall i | i in a :: i < |items|) && forall i | i in b :: i < |items|
    ensures Select(items, a + b) == Select(items, a) + Select(items, b)
  {
    forall i | i in a ensures i < |items| { assert i in a + b; }
    forall i | i in b ensures i < |items| { assert i in a + b; }
  }

  /** What is kept is the protected messages before the cut, then everything from the cut on. */
  lemma KeptIsSuffix<T>(items: seq<T>, cut: nat, protected: set<int>)
    requires cut <= |items|
    ensures Select(items, Kept(|items|, cut, protected)) == Select(items, Kept(cut, cut, protected)) + items[cut..]
  {
    hide Kept, Range, Select;
    KeptSplits(|items|, cut, protected);
    SelectSplit(items, Kept(cut, cut, protected), Range(cut, |items|));
    SelectRange(items, cut, |items|);
    assert items[cut..|items|] == items[cut..];
  }

  /** Everything the caller asks to protect is plain: no call and no result. */
  predicate PlainlyProtected(h: seq<Message>, given: set<int>) {
    forall i: nat | i in given && i < |h| :: !h[i].Result? && Calls(h[i]) == []
  }

  lemma TaskIsUser(h: seq<Message>, cut: nat)
    requires cut <= |h|
    ensures Task(h, cut).Some? ==> Task(h, cut).value < cut && h[Task(h, cut).value].User?
  {
  }

  lemma SoundFacts(p: Plan, given: set<int>)
    requires Sound(p, given)
    ensures p.cut < |p.original| == |p.projections|
    ensures p.kept == Kept(|p.original|, p.cut, Protected(p.original, p.cut, given))
    ensures Paired(p.original[p.cut..], {})
    ensures Boundary(p.original, p.prefix, p.projections, p.cut)
    ensures forall i | i in p.kept :: i < |p.projections|
    ensures p.before == ContextTokens(p.context) + p.extra
  {
  }

  lemma SelectedFrom<T>(items: seq<T>, indices: seq<nat>, item: T)
    requires (forall i | i in indices :: i < |items|) && item in Select(items, indices)
    ensures exists i :: i in indices && items[i] == item
  {
    var k :| 0 <= k < |indices| && Select(items, indices)[k] == item;
    assert indices[k] in indices;
  }

  /** Only plain messages are kept from before the cut. */
  lemma EarlyIsInert(h: seq<Message>, cut: nat, given: set<int>)
    requires cut <= |h| && PlainlyProtected(h, given)
    ensures Inert(Select(h, Kept(cut, cut, Protected(h, cut, given))))
  {
    TaskIsUser(h, cut);
    var indices := Kept(cut, cut, Protected(h, cut, given));
    forall m | m in Select(h, indices) ensures !m.Result? && Calls(m) == [] {
      SelectedFrom(h, indices, m);
      var i :| i in indices && h[i] == m;
      assert i in given || h[i].User?;
    }
  }

  lemma SummaryIsInert(summary: string)
    ensures Inert([SummaryMessage(summary)])
  {
  }

  lemma InertAppend(a: seq<Message>, b: seq<Message>)
    requires Inert(a) && Inert(b)
    ensures Inert(a + b)
  {
  }

  lemma NothingIsInert()
    ensures Inert([])
  {
  }

  lemma InertFront(a: seq<Message>, b: seq<Message>, c: seq<Message>, tail: seq<Message>)
    requires Inert(a) && Inert(b) && Inert(c) && Paired(tail, {})
    ensures Paired(a + b + (c + tail), {})
  {
    hide *;
    InertAppend(a, b);
    InertAppend(a + b, c);
    InertPrefix(a + b + c, tail, {});
    assert a + b + (c + tail) == a + b + c + tail;
  }

  /** Without protected calls or results the compacted history is again well paired, whatever the summary is. */
  lemma CompactedStaysPaired(p: Plan, given: set<int>, summary: string)
    requires Sound(p, given) && PlainlyProtected(p.original, given)
    ensures Paired([SummaryMessage(summary)] + Select(p.original, p.kept), {})
  {
    SoundFacts(p, given);
    hide *;
    var h, cut := p.original, p.cut;
    var protected := Protected(h, cut, given);
    KeptIsSuffix(h, cut, protected);
    var early := Select(h, Kept(cut, cut, protected));
    EarlyIsInert(h, cut, given);
    SummaryIsInert(summary);
    assert Inert([]) by { NothingIsInert(); }
    InertFront([], [SummaryMessage(summary)], early, h[cut..]);
    assert [] + [SummaryMessage(summary)] == [SummaryMessage(summary)];
  }

  /** The messages that stay from before the cut reach the model as plain messages. */
  predicate PlainlyProjected(p: Plan) {
    && Inert(p.prefix)
    && forall i: nat | i in p.kept && i < p.cut && i < |p.projections| :: Inert(p.projections[i])
  }

  lemma {:induction false} FlatInert(groups: seq<seq<Wire>>)
    requires forall g | g in groups :: Inert(g)
    ensures Inert(Flat(groups))
  {
    if groups != [] {
      assert groups[|groups| - 1] in groups;
      FlatInert(groups[..|groups| - 1]);
    }
  }

  lemma EarlyGroupsAreInert(p: Plan, protected: set<int>)
    requires PlainlyProjected(p) && p.cut <= |p.projections| && p.kept == Kept(|p.projections|, p.cut, protected)
    ensures Inert(Flat(Select(p.projections, Kept(p.cut, p.cut, protected))))
  {
    var indices := Kept(p.cut, p.cut, protected);
    var early := Select(p.projections, indices);
    forall g | g in early ensures Inert(g) {
      SelectedFrom(p.projections, indices, g);
      var i :| i in indices && p.projections[i] == g;
      assert i in p.kept;
    }
    FlatInert(early);
  }

  /** The request from the cut on, found again at the end of the request. */
  lemma RequestTail(h: seq<Message>, prefix: seq<Wire>, groups: seq<seq<Wire>>, cut: nat)
    requires cut <= |h| == |groups| && Boundary(h, prefix, groups, cut)
    ensures Paired(Flat(groups[cut..]), {})
  {
    hide Paired, Flat;
    FlatSplit(groups[..cut], groups[cut..]);
    assert groups == groups[..cut] + groups[cut..];
    var front := prefix + Flat(groups[..cut]);
    assert prefix + Flat(groups) == front + Flat(groups[cut..]);
    assert (front + Flat(groups[cut..]))[|front|..] == Flat(groups[cut..]);
  }

  // ---- Exactly when the compacted views pair -------------------------------------------------------------

  /** The kept indices from before the cut. */
  function EarlyIndices(p: Plan, given: set<int>): seq<nat>
    requires p.cut <= |p.original|
  {
    Kept(p.cut, p.cut, Protected(p.original, p.cut, given))
  }

  /**
    * What is kept from before the cut is well paired by itself, in the history and in the request, and the request
    * has nothing pending where the summary goes.
    */
  ghost predicate FrontPairs(p: Plan, given: set<int>)
    requires p.cut <= |p.original| == |p.projections|
  {
    && Paired(Select(p.original, EarlyIndices(p, given)), {})
    && Paired(p.prefix, {})
    && Paired(p.prefix + Flat(Select(p.projections, EarlyIndices(p, given))), {})
  }

  lemma SelectedWithin(h: seq<Message>, cut: nat, indices: seq<nat>)
    requires cut <= |h| && forall i | i in indices :: i < cut
    ensures CallIds(Select(h, indices)) <= CallIds(h[..cut])
  {
    hide CallIds;
    forall m | m in Select(h, indices) ensures m in h[..cut] {
      SelectedFrom(h, indices, m);
      var i :| i in indices && h[i] == m;
      assert h[..cut][i] == m;
    }
    CallIdsWithin(Select(h, indices), h[..cut]);
  }

  lemma {:induction false} InFlat(groups: seq<seq<Wire>>, m: Wire)
    ensures m in Flat(groups) <==> exists k :: 0 <= k < |groups| && m in groups[k]
  {
    if groups != [] {
      var n := |groups| - 1;
      InFlat(groups[..n], m);
      if m in groups[n] { assert m in groups[n]; }
      if k :| 0 <= k < |groups[..n]| && m in groups[..n][k] { assert m in groups[k]; }
    }
  }

  lemma FlatWithin(prefix: seq<Wire>, groups: seq<seq<Wire>>, cut: nat, indices: seq<nat>)
    requires cut <= |groups| && forall i | i in indices :: i < cut
    ensures CallIds(prefix + Flat(Select(groups, indices))) <= CallIds(prefix + Flat(groups[..cut]))
  {
    hide CallIds, Flat;
    var a, b := prefix + Flat(Select(groups, indices)), prefix + Flat(groups[..cut]);
    forall m | m in a ensures m in b {
      if m !in prefix {
        InFlat(Select(groups, indices), m);
        var k :| 0 <= k < |Select(groups, indices)| && m in Select(groups, indices)[k];
        assert indices[k] in indices && groups[..cut][indices[k]] == Select(groups, indices)[k];
        InFlat(groups[..cut], m);
      }
    }
    CallIdsWithin(a, b);
  }

  /** The compacted history pairs exactly when what it keeps from before the cut does. */
  lemma HistoryPairsExactly(p: Plan, given: set<int>, summary: string)
    requires Sound(p, given)
    ensures Paired([SummaryMessage(summary)] + Select(p.original, p.kept), {})
            <==> Paired(Select(p.original, EarlyIndices(p, given)), {})
  {
    SoundFacts(p, given);
    SoundPairs(p, given);
    var h, cut := p.original, p.cut;
    var indices := EarlyIndices(p, given);
    var early := Select(h, indices);
    hide *;
    KeptIsSuffix(h, cut, Protected(h, cut, given));
    EarlyBelow(p, given);
    assert Select(h, p.kept) == early + h[cut..] by { EarlyIsKept(p, given); }
    TailIsNew(h, cut);
    SelectedWithin(h, cut, indices);
    FrontExactly(early, h[cut..], CallIds(h[..cut]));
    SummaryIsPlain(summary);
    PlainExactly([], SummaryMessage(summary), early + h[cut..]);
    NothingPairs();
    assert [] + [SummaryMessage(summary)] == [SummaryMessage(summary)] && [] + (early + h[cut..]) == early + h[cut..];
  }

  lemma SoundPairs(p: Plan, given: set<int>)
    requires Sound(p, given)
    ensures p.cut <= |p.original| && Paired(p.original, {}) && Paired(p.original[..p.cut], {}) && Paired(p.original[p.cut..], {})
    ensures p.context.messages == p.prefix + Flat(p.projections) && Paired(p.context.messages, {})
  {
    hide Paired;
  }

  lemma EarlyIsKept(p: Plan, given: set<int>)
    requires p.cut <= |p.original|
    ensures EarlyIndices(p, given) == Kept(p.cut, p.cut, Protected(p.original, p.cut, given))
  {
  }

  lemma EarlyBelow(p: Plan, given: set<int>)
    requires p.cut <= |p.original|
    ensures forall i | i in EarlyIndices(p, given) :: i < p.cut
  {
  }

  lemma NothingPairs()
    ensures Paired([], {})
  {
  }

  lemma SummaryIsPlain(summary: string)
    ensures !SummaryMessage(summary).Result? && Calls(SummaryMessage(summary)) == []
  {
  }

  /** The request up to the cut and from it on, as two halves of the request. */
  lemma RequestHalves(p: Plan, given: set<int>)
    requires Sound(p, given)
    ensures p.cut <= |p.projections|
    ensures var front, tail := p.prefix + Flat(p.projections[..p.cut]), Flat(p.projections[p.cut..]);
            p.context.messages == front + tail && Paired(front, {}) && Paired(tail, {}) && Paired(tail, CallIds(front))
  {
    hide *;
    SoundFacts(p, given);
    SoundPairs(p, given);
    var groups, cut := p.projections, p.cut;
    var front, tail := p.prefix + Flat(groups[..cut]), Flat(groups[cut..]);
    FrontOf(p.original, p.prefix, groups, cut);
    RequestTail(p.original, p.prefix, groups, cut);
    FlatSplit(groups[..cut], groups[cut..]);
    assert groups == groups[..cut] + groups[cut..];
    var request := p.context.messages;
    assert request == front + tail;
    assert request[..|front|] == front && request[|front|..] == tail;
    TailIsNew(request, |front|);
  }

  lemma FrontOf(h: seq<Message>, prefix: seq<Wire>, groups: seq<seq<Wire>>, cut: nat)
    requires cut <= |h| == |groups| && Boundary(h, prefix, groups, cut)
    ensures Paired(prefix + Flat(groups[..cut]), {})
  {
    hide Paired, Flat;
    FlatSplit(groups[..cut], groups[cut..]);
    assert groups == groups[..cut] + groups[cut..];
    var front := prefix + Flat(groups[..cut]);
    assert (prefix + Flat(groups))[..|front|] == front;
  }

  lemma CandidateIs(p: Plan, summary: string)
    requires forall i | i in p.kept :: i < |p.projections|
    ensures Candidate(p, summary).messages == p.prefix + [SummaryMessage(summary)] + Flat(Select(p.projections, p.kept))
  {
    hide Flat, Select, SummaryMessage;
  }

  /** The compacted request pairs exactly when its prefix does, alone and with what it keeps from before the cut. */
  lemma RequestPairsExactly(p: Plan, given: set<int>, summary: string)
    requires Sound(p, given)
    ensures p.cut <= |p.original| == |p.projections| && forall i | i in p.kept :: i < |p.projections|
    ensures Paired(Candidate(p, summary).messages, {})
            <==> Paired(p.prefix, {}) && Paired(p.prefix + Flat(Select(p.projections, EarlyIndices(p, given))), {})
  {
    hide *;
    SoundFacts(p, given);
    RequestHalves(p, given);
    CandidateIs(p, summary);
    EarlyBelow(p, given);
    var groups, cut := p.projections, p.cut;
    var indices := EarlyIndices(p, given);
    var early := Flat(Select(groups, indices));
    var tail := Flat(groups[cut..]);
    KeptIsSuffix(groups, cut, Protected(p.original, cut, given));
    EarlyIsKept(p, given);
    FlatSplit(Select(groups, indices), groups[cut..]);
    FlatWithin(p.prefix, groups, cut, indices);
    FrontExactly(p.prefix + early, tail, CallIds(p.prefix + Flat(groups[..cut])));
    SummaryIsPlain(summary);
    PlainExactly(p.prefix, SummaryMessage(summary), early + tail);
    assert p.prefix + (early + tail) == p.prefix + early + tail;
  }

  /** Whether the compacted views pair is known before the summary is asked for, and does not depend on it. */
  lemma PairingExactly(p: Plan, given: set<int>, summary: string)
    requires Sound(p, given)
    ensures p.cut <= |p.original| == |p.projections| && forall i | i in p.kept :: i < |p.projections|
    ensures Paired([SummaryMessage(summary)] + Select(p.original, p.kept), {}) && Paired(Candidate(p, summary).messages, {})
            <==> FrontPairs(p, given)
  {
    hide Sound, Paired, Candidate;
    HistoryPairsExactly(p, given, summary);
    RequestPairsExactly(p, given, summary);
  }

  /** In particular plain messages do not hurt: a summary of such a plan fails for capacity only. */
  lemma OnlyCapacityCanFail(p: Plan, given: set<int>)
    requires Sound(p, given) && PlainlyProtected(p.original, given) && PlainlyProjected(p)
    ensures p.cut <= |p.original| == |p.projections| && FrontPairs(p, given)
  {
    SoundFacts(p, given);
    var protected := Protected(p.original, p.cut, given);
    EarlyGroupsAreInert(p, protected);
    EarlyIsInert(p.original, p.cut, given);
    assert Inert(p.prefix);
    var early, groups := Select(p.original, EarlyIndices(p, given)), Flat(Select(p.projections, EarlyIndices(p, given)));
    assert Inert(early) && Inert(groups);
    hide Paired, Inert;
    InertPairs(early);
    InertPairs(p.prefix);
    InertAppend(p.prefix, groups);
    InertPairs(p.prefix + groups);
  }

  lemma InertPairs(h: seq<Message>)
    requires Inert(h)
    ensures Paired(h, {})
  {
    hide Paired, Inert;
    InertPrefix(h, [], {});
    NothingPairs();
    assert h + [] == h;
  }

  /** Results of compacting again and again, each request being the previous candidate with the same options. */
  ghost predicate Repeated(plans: seq<Plan>, results: seq<Committed>) {
    && |plans| == |results|
    && (forall k | 0 <= k < |plans| :: exists given :: Commits(plans[k], given, results[k]))
    && (forall k | 0 < k < |plans| :: plans[k].context == results[k - 1].context && plans[k].extra == plans[0].extra)
  }

  lemma CommitFacts(p: Plan, given: set<int>, r: Committed)
    requires Commits(p, given, r)
    ensures r.Committed? && r.after == ContextTokens(r.context) + p.extra && r.after < p.before == ContextTokens(p.context) + p.extra
  {
  }

  /** With no new messages compaction cannot go on for ever: each round costs less than the one before. */
  lemma {:induction false} RepeatedCompactionEnds(plans: seq<Plan>, results: seq<Committed>, n: nat)
    requires Repeated(plans, results) && n < |plans|
    ensures results[n].Committed? && results[n].after + n + 1 <= plans[0].before
  {
    hide Commits, ContextTokens;
    var given :| Commits(plans[n], given, results[n]);
    CommitFacts(plans[n], given, results[n]);
    if n > 0 {
      RepeatedCompactionEnds(plans, results, n - 1);
      var before :| Commits(plans[n - 1], before, results[n - 1]);
      CommitFacts(plans[n - 1], before, results[n - 1]);
    }
  }
}
