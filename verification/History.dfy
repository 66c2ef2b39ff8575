/** Conversation histories and the positions at which they may be cut (history.py, compaction.py). */
module History {
  import opened TextCodecs

  datatype Call = Call(id: string, name: string)

  /** Absent signatures are empty strings; `arguments` is the compact JSON text of a call's arguments. */
  datatype Part =
    | Text(text: string, signature: string)
    | Thinking(text: string, signature: string)
    | ToolCall(call: Call, signature: string, arguments: string)
    | Image(data: string, mime: string)

  datatype Content = Plain(text: string) | Parts(parts: seq<Part>)

  datatype Message =
    | User(content: Content)
    | Assistant(parts: seq<Part>)
    | Result(call: Call, parts: seq<Part>)
    | Custom(name: string, text: string)

  function CallsIn(parts: seq<Part>): seq<Call> {
    if parts == [] then []
    else if parts[0].ToolCall? then [parts[0].call] + CallsIn(parts[1..]) else CallsIn(parts[1..])
  }

  function Calls(m: Message): seq<Call> {
    if m.Assistant? then CallsIn(m.parts) else []
  }

  function Ids(calls: seq<Call>): set<string> {
    set k | 0 <= k < |calls| :: calls[k].id
  }

  // ---- What a well paired history is -------------------------------------------------------------

  /** The ids are usable, differ from each other and were not used before. */
  predicate NewIds(calls: seq<Call>, seen: set<string>) {
    && (forall k | 0 <= k < |calls| :: calls[k].id != "" && calls[k].id !in seen)
    && (forall j, k | 0 <= j < k < |calls| :: calls[j].id != calls[k].id)
  }

  function Replies(results: seq<Message>): seq<Call> {
    seq(|results|, k requires 0 <= k < |results| => if results[k].Result? then results[k].call else Call("", ""))
  }

  /** The messages are the results of these calls, one each, in any order. */
  predicate Answers(results: seq<Message>, calls: seq<Call>) {
    && (forall r | r in results :: r.Result?)
    && multiset(Replies(results)) == multiset(calls)
  }

  /**
    * A history is a sequence of batches: a message that is no tool result, followed at once by exactly
    * one result for each of its calls. No call id is used twice.
    */
  predicate Paired(h: seq<Message>, seen: set<string>)
    decreases |h|
  {
    h == [] ||
    (var calls := Calls(h[0]);
     && !h[0].Result?
     && 1 + |calls| <= |h|
     && NewIds(calls, seen)
     && Answers(h[1..1 + |calls|], calls)
     && Paired(h[1 + |calls|..], seen + Ids(calls)))
  }

  // ---- The scanner ----------------------------------------------------------------------------------

  datatype Scan = Scan(pending: map<string, string>, seen: set<string>)

  datatype Scanned = Clean(scan: Scan) | Broken

  const START := Scan(map[], {})

  function Open(s: Scan, calls: seq<Call>): Scanned
    decreases |calls|
  {
    if calls == [] then Clean(s)
    else if calls[0].id == "" || calls[0].id in s.seen then Broken
    else Open(Scan(s.pending[calls[0].id := calls[0].name], s.seen + {calls[0].id}), calls[1..])
  }

  function Step(s: Scan, m: Message): Scanned {
    if m.Result? then
      if m.call.id in s.pending && s.pending[m.call.id] == m.call.name
      then Clean(s.(pending := s.pending - {m.call.id})) else Broken
    else if s.pending != map[] then Broken
    else Open(s, Calls(m))
  }

  function Run(s: Scan, h: seq<Message>): Scanned
    decreases |h|
  {
    if h == [] then Clean(s) else
      match Step(s, h[0])
      case Broken => Broken
      case Clean(t) => Run(t, h[1..])
  }

  lemma {:induction false} RunSplit(s: Scan, a: seq<Message>, b: seq<Message>)
    ensures Run(s, a + b) == (if Run(s, a).Clean? then Run(Run(s, a).scan, b) else Broken)
    decreases |a|
  {
    if a == [] {
      assert a + b == b;
    } else {
      assert (a + b)[1..] == a[1..] + b;
      if Step(s, a[0]).Clean? { RunSplit(Step(s, a[0]).scan, a[1..], b); }
    }
  }

  lemma RunNext(s: Scan, h: seq<Message>, k: nat)
    requires k < |h|
    ensures Run(s, h[..k + 1]) == (if Run(s, h[..k]).Clean? then Step(Run(s, h[..k]).scan, h[k]) else Broken)
    ensures Run(s, h[..k + 1]).Broken? ==> Run(s, h).Broken?
  {
    RunSplit(s, h[..k], [h[k]]);
    assert h[..k + 1] == h[..k] + [h[k]];
    assert [h[k]][1..] == [];
    RunSplit(s, h[..k + 1], h[k + 1..]);
    assert h == h[..k + 1] + h[k + 1..];
  }

  lemma {:induction false} OpenSplit(s: Scan, a: seq<Call>, b: seq<Call>)
    ensures Open(s, a + b) == (if Open(s, a).Clean? then Open(Open(s, a).scan, b) else Broken)
    decreases |a|
  {
    if a == [] {
      assert a + b == b;
    } else {
      assert (a + b)[1..] == a[1..] + b;
      if a[0].id != "" && a[0].id !in s.seen {
        OpenSplit(Scan(s.pending[a[0].id := a[0].name], s.seen + {a[0].id}), a[1..], b);
      }
    }
  }

  lemma {:induction false} CallsInSplit(a: seq<Part>, b: seq<Part>)
    ensures CallsIn(a + b) == CallsIn(a) + CallsIn(b)
  {
    if a == [] {
      assert a + b == b;
    } else {
      assert (a + b)[1..] == a[1..] + b;
      CallsInSplit(a[1..], b);
    }
  }

  lemma OpenNext(s: Scan, parts: seq<Part>, k: nat)
    requires k < |parts|
    ensures Open(s, CallsIn(parts[..k + 1]))
         == (if Open(s, CallsIn(parts[..k])).Clean? then Open(Open(s, CallsIn(parts[..k])).scan, CallsIn([parts[k]])) else Broken)
    ensures Open(s, CallsIn(parts[..k + 1])).Broken? ==> Open(s, CallsIn(parts)).Broken?
  {
    assert parts[..k + 1] == parts[..k] + [parts[k]];
    CallsInSplit(parts[..k], [parts[k]]);
    OpenSplit(s, CallsIn(parts[..k]), CallsIn([parts[k]]));
    assert parts == parts[..k + 1] + parts[k + 1..];
    CallsInSplit(parts[..k + 1], parts[k + 1..]);
    OpenSplit(s, CallsIn(parts[..k + 1]), CallsIn(parts[k + 1..]));
  }

  // ---- The scanner accepts exactly the well paired histories ------------------------------------------

  /** The pending table holds exactly the calls that wait for their result. */
  ghost predicate Waiting(pending: map<string, string>, calls: multiset<Call>) {
    forall c: Call :: calls[c] == if c.id in pending && pending[c.id] == c.name then 1 else 0
  }

  lemma IdsSplit(first: Call, rest: seq<Call>)
    ensures Ids([first] + rest) == {first.id} + Ids(rest)
    ensures forall c | c in rest :: c.id in Ids(rest)
  {
    var all := [first] + rest;
    forall id | id in Ids(rest) ensures id in Ids(all) {
      var k :| 0 <= k < |rest| && rest[k].id == id;
      assert all[k + 1].id == id;
    }
    forall id | id in Ids(all) ensures id in {first.id} + Ids(rest) {
      var k :| 0 <= k < |all| && all[k].id == id;
      if k > 0 { assert rest[k - 1].id == id; }
    }
    assert all[0].id in Ids(all);
  }

  lemma NewIdsSplit(calls: seq<Call>, seen: set<string>)
    requires calls != []
    ensures NewIds(calls, seen) <==> (calls[0].id != "" && calls[0].id !in seen && NewIds(calls[1..], seen + {calls[0].id}))
  {
    var rest := calls[1..];
    if NewIds(calls, seen) {
      forall k | 0 <= k < |rest| ensures rest[k].id !in seen + {calls[0].id} { assert calls[0].id != calls[k + 1].id; }
      forall j, k | 0 <= j < k < |rest| ensures rest[j].id != rest[k].id { assert calls[j + 1].id != calls[k + 1].id; }
    }
  }

  lemma {:induction false} OpenMeans(s: Scan, calls: seq<Call>)
    ensures Open(s, calls).Clean? <==> NewIds(calls, s.seen)
    ensures Open(s, calls).Clean? ==> Open(s, calls).scan.seen == s.seen + Ids(calls)
    ensures Open(s, calls).Clean? ==> forall c: Call ::
              (c.id in Open(s, calls).scan.pending && Open(s, calls).scan.pending[c.id] == c.name)
              <==> (c in calls || (c.id !in Ids(calls) && c.id in s.pending && s.pending[c.id] == c.name))
    decreases |calls|
  {
    if calls != [] {
      var first, rest := calls[0], calls[1..];
      assert [first] + rest == calls;
      IdsSplit(first, rest);
      NewIdsSplit(calls, s.seen);
      hide Ids, NewIds;
      if first.id != "" && first.id !in s.seen {
        var t := Scan(s.pending[first.id := first.name], s.seen + {first.id});
        OpenMeans(t, rest);
        if NewIds(rest, t.seen) { FirstIsNew(first, rest, t.seen); }
      }
    }
  }

  lemma FirstIsNew(first: Call, rest: seq<Call>, seen: set<string>)
    requires NewIds(rest, seen) && first.id in seen
    ensures first.id !in Ids(rest)
  {
  }

  lemma {:induction false} SeqCount(calls: seq<Call>, c: Call)
    requires forall j, k | 0 <= j < k < |calls| :: calls[j] != calls[k]
    ensures multiset(calls)[c] == if c in calls then 1 else 0
  {
    if calls != [] {
      SeqCount(calls[1..], c);
      assert calls == [calls[0]] + calls[1..];
      assert calls[0] !in calls[1..];
    }
  }

  lemma OpenWaits(s: Scan, calls: seq<Call>)
    requires s.pending == map[] && Open(s, calls).Clean?
    ensures Waiting(Open(s, calls).scan.pending, multiset(calls))
  {
    OpenMeans(s, calls);
    forall c: Call ensures multiset(calls)[c] == if c in calls then 1 else 0 { SeqCount(calls, c); }
  }

  /** What the scanner still has to see: the missing results first, then a well paired rest. */
  ghost predicate Rest(h: seq<Message>, waiting: multiset<Call>, seen: set<string>) {
    var n := |waiting|;
    && n <= |h| && (forall r | r in h[..n] :: r.Result?) && multiset(Replies(h[..n])) == waiting && Paired(h[n..], seen)
  }

  lemma RestWhenNothingWaits(h: seq<Message>, seen: set<string>)
    ensures Rest(h, multiset{}, seen) <==> Paired(h, seen)
    ensures Rest(h, multiset{}, seen) <==> (
              || h == []
              || (!h[0].Result? && NewIds(Calls(h[0]), seen) && Rest(h[1..], multiset(Calls(h[0])), seen + Ids(Calls(h[0])))))
  {
    assert h[..0] == [] && h[0..] == h && Replies([]) == [];
    if h != [] && 1 + |Calls(h[0])| <= |h| {
      var n := |Calls(h[0])|;
      assert h[1..][..n] == h[1..1 + n] && h[1..][n..] == h[1 + n..];
    }
  }

  lemma RestWhenSomeWait(h: seq<Message>, waiting: multiset<Call>, seen: set<string>)
    requires |waiting| > 0
    ensures Rest(h, waiting, seen) <==>
              (h != [] && h[0].Result? && h[0].call in waiting && Rest(h[1..], waiting - multiset{h[0].call}, seen))
  {
    hide Paired, Replies;
    var n := |waiting|;
    if n <= |h| {
      assert h[0] in h[..n];
      assert h[1..][..n - 1] == h[..n][1..] && h[1..][n - 1..] == h[n..];
      if h[0].Result? {
        HeadReply(h[..n]);
        if h[0].call in waiting { assert waiting == multiset{h[0].call} + (waiting - multiset{h[0].call}); }
      }
    }
  }

  /** The scanner ends with nothing pending exactly when it sees what it still has to see. */
  lemma {:induction false} RunMeans(s: Scan, h: seq<Message>, waiting: multiset<Call>)
    requires Waiting(s.pending, waiting)
    ensures Run(s, h).Clean? && Run(s, h).scan.pending == map[] <==> Rest(h, waiting, s.seen)
    decreases |h|
  {
    hide Rest, NewIds, Ids, Calls;
    if |waiting| == 0 {
      NothingWaits(s.pending, waiting);
      RestWhenNothingWaits(h, s.seen);
      if h != [] && !h[0].Result? {
        OpenMeans(s, Calls(h[0]));
        if NewIds(Calls(h[0]), s.seen) {
          OpenWaits(s, Calls(h[0]));
          RunMeans(Open(s, Calls(h[0])).scan, h[1..], multiset(Calls(h[0])));
        }
      }
      if h == [] { assert Rest(h, waiting, s.seen); }
    } else {
      RestWhenSomeWait(h, waiting, s.seen);
      var some :| some in waiting;
      assert some.id in s.pending;
      if h != [] && h[0].Result? && h[0].call in waiting {
        var c := h[0].call;
        assert Waiting(s.pending - {c.id}, waiting - multiset{c});
        RunMeans(s.(pending := s.pending - {c.id}), h[1..], waiting - multiset{c});
      }
    }
  }

  lemma NothingWaits(pending: map<string, string>, waiting: multiset<Call>)
    requires Waiting(pending, waiting) && |waiting| == 0
    ensures pending == map[] && waiting == multiset{}
  {
    forall id ensures id !in pending {
      assert waiting[Call(id, if id in pending then pending[id] else "")] == 0;
    }
  }

  lemma HeadReply(rs: seq<Message>)
    requires rs != [] && rs[0].Result?
    ensures multiset(Replies(rs)) == multiset{rs[0].call} + multiset(Replies(rs[1..]))
    ensures rs[0].call in multiset(Replies(rs))
    ensures forall r | r in rs :: r == rs[0] || r in rs[1..]
  {
    assert Replies(rs) == [rs[0].call] + Replies(rs[1..]);
  }

  /** The scanner ends with nothing pending exactly on the well paired histories. */
  lemma AcceptedIsPaired(h: seq<Message>, seen: set<string>)
    ensures Run(Scan(map[], seen), h).Clean? && Run(Scan(map[], seen), h).scan.pending == map[] <==> Paired(h, seen)
  {
    RunMeans(Scan(map[], seen), h, multiset{});
    RestWhenNothingWaits(h, seen);
  }

  lemma {:induction false} PairedWithFewer(h: seq<Message>, seen: set<string>, fewer: set<string>)
    requires Paired(h, seen) && fewer <= seen
    ensures Paired(h, fewer)
    decreases |h|
  {
    if h != [] { PairedWithFewer(h[1 + |Calls(h[0])|..], seen + Ids(Calls(h[0])), fewer + Ids(Calls(h[0]))); }
  }

  /** The ids of every call in a history. */
  function CallIds(h: seq<Message>): set<string> {
    set k, j | 0 <= k < |h| && 0 <= j < |Calls(h[k])| :: Calls(h[k])[j].id
  }

  /** A well paired history splits exactly where nothing is pending; both halves are then well paired. */
  lemma CutsSplit(h: seq<Message>, k: nat)
    requires Paired(h, {}) && k <= |h|
    ensures Run(START, h[..k]).Clean?
    ensures Run(START, h[..k]).scan.pending == map[] <==> Paired(h[..k], {}) && Paired(h[k..], {})
  {
    hide Paired, Step, Run;
    AcceptedIsPaired(h, {});
    RunSplit(START, h[..k], h[k..]);
    assert h == h[..k] + h[k..];
    AcceptedIsPaired(h[..k], {});
    var mid := Run(START, h[..k]).scan;
    if mid.pending == map[] {
      AcceptedIsPaired(h[k..], mid.seen);
      PairedWithFewer(h[k..], mid.seen, {});
    }
  }

  /** One message of the scan in `safe_cut_indices`; not `ok` is its error. */
  method ScanMessage(m: Message, pending0: map<string, string>, seen0: set<string>)
    returns (ok: bool, pending: map<string, string>, seen: set<string>)
    ensures Step(Scan(pending0, seen0), m) == if ok then Clean(Scan(pending, seen)) else Broken
  {
    pending, seen := pending0, seen0;
    if m.Result? {
      if m.call.id !in pending || pending[m.call.id] != m.call.name { return false, pending, seen; }
      pending := pending - {m.call.id};
      return true, pending, seen;
    }
    if pending != map[] { return false, pending, seen; }
    if m.Assistant? {
      ghost var s := Scan(pending, seen);
      assert m.parts[..0] == [];
      for j := 0 to |m.parts|
        invariant Open(s, CallsIn(m.parts[..j])) == Clean(Scan(pending, seen))
      {
        OpenNext(s, m.parts, j);
        if m.parts[j].ToolCall? {
          var call := m.parts[j].call;
          assert CallsIn([m.parts[j]]) == [call] && [call][1..] == [];
          if call.id == "" || call.id in seen { return false, pending, seen; }
          seen := seen + {call.id};
          pending := pending[call.id := call.name];
        } else {
          assert CallsIn([m.parts[j]]) == [];
        }
      }
      assert m.parts[..|m.parts|] == m.parts;
    }
    return true, pending, seen;
  }

  /** `safe_cut_indices`; None is its error. */
  method SafeCutIndices(h: seq<Message>) returns (r: Option<seq<nat>>)
    ensures r.Some? <==> Paired(h, {})
    ensures r.Some? ==> forall k: nat :: k in r.value <==> k <= |h| && Paired(h[..k], {}) && Paired(h[k..], {})
    ensures r.Some? ==> forall i, j | 0 <= i < j < |r.value| :: r.value[i] < r.value[j]
  {
    hide Paired, Step;
    AcceptedIsPaired(h, {});
    var pending: map<string, string>, seen: set<string> := map[], {};
    var cuts: seq<nat> := [0];
    assert h[..0] == [];
    for k := 0 to |h|
      invariant Run(START, h[..k]) == Clean(Scan(pending, seen))
      invariant forall i: nat :: i in cuts <==> i <= k && Run(START, h[..i]).Clean? && Run(START, h[..i]).scan.pending == map[]
      invariant forall i | 0 <= i < |cuts| :: cuts[i] <= k
      invariant forall i, j | 0 <= i < j < |cuts| :: cuts[i] < cuts[j]
    {
      RunNext(START, h, k);
      var ok;
      ok, pending, seen := ScanMessage(h[k], pending, seen);
      if !ok { return None; }
      if pending == map[] { cuts := cuts + [k + 1]; }
    }
    assert h[..|h|] == h;
    if pending != map[] { return None; }
    forall k: nat | k <= |h| ensures k in cuts <==> Paired(h[..k], {}) && Paired(h[k..], {}) { CutsSplit(h, k); }
    return Some(cuts);
  }

  // ---- history_points -----------------------------------------------------------------------------------

  /** Position `at` holds a result with this id. */
  predicate Replied(h: seq<Message>, at: int, id: string) {
    0 <= at < |h| && h[at].Result? && h[at].call.id == id
  }

  predicate RepliedAfter(h: seq<Message>, k: nat, id: string) {
    exists j | k < j < |h| :: Replied(h, j, id)
  }

  /** Some call with this id has no result after it. */
  predicate Unanswered(h: seq<Message>, id: string) {
    exists k | 0 <= k < |h| :: id in Ids(Calls(h[k])) && !RepliedAfter(h, k, id)
  }

  /** Every call has a result somewhere after it. */
  predicate Settled(h: seq<Message>) {
    forall k, i | 0 <= k < |h| && 0 <= i < |Calls(h[k])| :: RepliedAfter(h, k, Calls(h[k])[i].id)
  }

  /** The pending set of the permissive scan. */
  function OpenIds(h: seq<Message>): set<string> {
    if h == [] then {} else
      var last := h[|h| - 1];
      var before := OpenIds(h[..|h| - 1]);
      if last.Result? then before - {last.call.id} else before + Ids(Calls(last))
  }

  lemma RepliedNext(t: seq<Message>, m: Message, k: nat, id: string)
    requires k < |t|
    ensures RepliedAfter(t + [m], k, id) <==> RepliedAfter(t, k, id) || (m.Result? && m.call.id == id)
  {
    var h := t + [m];
    if RepliedAfter(t, k, id) {
      var j :| k < j < |t| && Replied(t, j, id);
      assert Replied(h, j, id);
    }
    if RepliedAfter(h, k, id) {
      var j :| k < j < |h| && Replied(h, j, id);
      if j < |t| { assert Replied(t, j, id); }
    }
    if m.Result? && m.call.id == id { assert Replied(h, |t|, id); }
  }

  lemma UnansweredNext(t: seq<Message>, m: Message, id: string)
    ensures Unanswered(t + [m], id)
       <==> (if m.Result? then id != m.call.id && Unanswered(t, id) else Unanswered(t, id) || id in Ids(Calls(m)))
  {
    hide RepliedAfter, Ids, Calls;
    var h := t + [m];
    NeverLast(h, id);
    if Unanswered(t, id) {
      var k :| 0 <= k < |t| && id in Ids(Calls(t[k])) && !RepliedAfter(t, k, id);
      RepliedNext(t, m, k, id);
      assert h[k] == t[k];
    }
    if Unanswered(h, id) {
      var k :| 0 <= k < |h| && id in Ids(Calls(h[k])) && !RepliedAfter(h, k, id);
      if k < |t| { RepliedNext(t, m, k, id); assert h[k] == t[k]; } else { assert h[k] == m; NoCalls(m); }
    }
    if id in Ids(Calls(m)) { assert h[|t|] == m; }
  }

  lemma NeverLast(h: seq<Message>, id: string)
    ensures h != [] ==> !RepliedAfter(h, |h| - 1, id)
  {
  }

  lemma NoCalls(m: Message)
    ensures !m.Assistant? ==> Ids(Calls(m)) == {}
  {
  }

  lemma {:induction false} OpenIdsAreUnanswered(h: seq<Message>, id: string)
    ensures id in OpenIds(h) <==> Unanswered(h, id)
  {
    if h != [] {
      var n := |h| - 1;
      assert h == h[..n] + [h[n]];
      UnansweredNext(h[..n], h[n], id);
      OpenIdsAreUnanswered(h[..n], id);
    }
  }

  lemma OpenNothing(h: seq<Message>)
    ensures OpenIds(h[..0]) == {}
  {
  }

  lemma OpenNextMessage(h: seq<Message>, k: nat)
    requires k < |h|
    ensures OpenIds(h[..k + 1]) == if h[k].Result? then OpenIds(h[..k]) - {h[k].call.id} else OpenIds(h[..k]) + Ids(Calls(h[k]))
    ensures !h[k].Result? && !h[k].Assistant? ==> Ids(Calls(h[k])) == {}
  {
    assert h[..k + 1][..k] == h[..k];
  }

  lemma NoOpenIds(h: seq<Message>)
    ensures OpenIds(h) == {} <==> Settled(h)
  {
    forall id | id in OpenIds(h) ensures !Settled(h) {
      OpenIdsAreUnanswered(h, id);
      var k :| 0 <= k < |h| && id in Ids(Calls(h[k])) && !RepliedAfter(h, k, id);
      var i :| 0 <= i < |Calls(h[k])| && Calls(h[k])[i].id == id;
    }
    if !Settled(h) {
      var k, i :| 0 <= k < |h| && 0 <= i < |Calls(h[k])| && !RepliedAfter(h, k, Calls(h[k])[i].id);
      OpenIdsAreUnanswered(h, Calls(h[k])[i].id);
      assert Calls(h[k])[i].id in Ids(Calls(h[k]));
    }
  }

  /** `history_points`: the indices of its points. */
  method HistoryPoints(h: seq<Message>) returns (points: seq<nat>)
    ensures forall k: nat :: k in points <==> k < |h| && Settled(h[..k + 1])
  {
    hide OpenIds, Settled;
    assert OpenIds(h[..0]) == {} by { OpenNothing(h); }
    var pending: set<string> := {};
    points := [];
    for k := 0 to |h|
      invariant pending == OpenIds(h[..k])
      invariant forall i: nat :: i in points <==> i < k && Settled(h[..i + 1])
    {
      OpenNextMessage(h, k);
      if h[k].Assistant? {
        pending := pending + Ids(Calls(h[k]));
      } else if h[k].Result? {
        pending := pending - {h[k].call.id};
      }
      NoOpenIds(h[..k + 1]);
      if pending == {} { points := points + [k]; }
    }
  }

  /** On a history without errors the two scans have the same calls pending. */
  lemma {:induction false} SamePending(h: seq<Message>)
    requires Run(START, h).Clean?
    ensures Run(START, h).scan.pending.Keys == OpenIds(h)
  {
    if h != [] {
      hide Run, Calls, Ids, NewIds;
      var n := |h| - 1;
      assert h[..n + 1] == h;
      RunNext(START, h, n);
      SamePending(h[..n]);
      if !h[n].Result? { OpenedIds(Run(START, h[..n]).scan, Calls(h[n])); }
    }
  }

  lemma OpenedIds(s: Scan, calls: seq<Call>)
    requires s.pending == map[] && Open(s, calls).Clean?
    ensures Open(s, calls).scan.pending.Keys == Ids(calls)
  {
    OpenMeans(s, calls);
    var t := Open(s, calls).scan;
    forall id ensures id in t.pending <==> id in Ids(calls) {
      if id in t.pending { assert Call(id, t.pending[id]) in calls; }
      if id in Ids(calls) {
        var k :| 0 <= k < |calls| && calls[k].id == id;
        assert calls[k] in calls;
      }
    }
  }

  /** In a well paired history the navigable points are exactly the ends of its safe cuts. */
  lemma PointsAreCuts(h: seq<Message>, k: nat)
    requires Paired(h, {}) && k < |h|
    ensures Settled(h[..k + 1]) <==> Paired(h[..k + 1], {}) && Paired(h[k + 1..], {})
  {
    CutsSplit(h, k + 1);
    SamePending(h[..k + 1]);
    var s := Run(START, h[..k + 1]).scan;
    assert s.pending == map[] <==> s.pending.Keys == {};
    NoOpenIds(h[..k + 1]);
  }

  /** `validate_checkpoint` accepts an empty history at -1, and otherwise the points. */
  method ValidateCheckpoint(h: seq<Message>, index: int) returns (ok: bool)
    ensures ok <==> (index == -1 && h == []) || (0 <= index < |h| && Settled(h[..index + 1]))
  {
    if index == -1 && h == [] { return true; }
    var points := HistoryPoints(h);
    if index < 0 { return false; }
    return index in points;
  }

  // ---- Composing well paired histories ------------------------------------------------------------------

  lemma HeadIds(h: seq<Message>, n: nat)
    requires h != [] && n <= |h|
    ensures Ids(Calls(h[0])) <= CallIds(h) && CallIds(h[n..]) <= CallIds(h)
  {
    forall id | id in Ids(Calls(h[0])) ensures id in CallIds(h) {
      var j :| 0 <= j < |Calls(h[0])| && Calls(h[0])[j].id == id;
    }
    forall id | id in CallIds(h[n..]) ensures id in CallIds(h) {
      var k, j :| 0 <= k < |h[n..]| && 0 <= j < |Calls(h[n..][k])| && Calls(h[n..][k])[j].id == id;
      assert Calls(h[n + k])[j].id == id;
    }
  }

  lemma {:induction false} PairedAppend(a: seq<Message>, b: seq<Message>, seen: set<string>, all: set<string>)
    requires Paired(a, seen) && Paired(b, all) && seen + CallIds(a) <= all
    ensures Paired(a + b, seen)
    decreases |a|
  {
    hide NewIds, Answers, Calls, Ids, CallIds;
    if a == [] {
      assert a + b == b;
      PairedWithFewer(b, all, seen);
    } else {
      var n := 1 + |Calls(a[0])|;
      assert (a + b)[n..] == a[n..] + b && (a + b)[1..n] == a[1..n];
      HeadIds(a, n);
      PairedAppend(a[n..], b, seen + Ids(Calls(a[0])), all);
    }
  }

  /** Messages that are neither results nor ask for any. */
  predicate Inert(h: seq<Message>) {
    forall m | m in h :: !m.Result? && Calls(m) == []
  }

  lemma {:induction false} InertPrefix(a: seq<Message>, b: seq<Message>, seen: set<string>)
    requires Inert(a)
    ensures Paired(a + b, seen) <==> Paired(b, seen)
    decreases |a|
  {
    if a == [] {
      assert a + b == b;
    } else {
      assert a[0] in a && (a + b)[0] == a[0];
      assert Calls(a[0]) == [] && (a + b)[1..] == a[1..] + b && (a + b)[1..1] == [];
      assert Ids([]) == {} && seen + Ids([]) == seen;
      assert Replies([]) == [] && NewIds([], seen);
      assert forall m | m in a[1..] :: m in a;
      InertPrefix(a[1..], b, seen);
    }
  }

  // ---- Taking a front part out ------------------------------------------------------------------------------

  /** What a clean scan has seen is every call id. */
  lemma {:induction false} RunSeen(h: seq<Message>, n: nat)
    requires n <= |h| && Run(START, h[..n]).Clean?
    ensures Run(START, h[..n]).scan.seen == CallIds(h[..n])
  {
    hide Run, Step, CallIds, Ids, Calls;
    if n == 0 {
      assert h[..0] == [];
      NoCallIds();
    } else {
      RunNext(START, h, n - 1);
      RunSeen(h, n - 1);
      var s := Run(START, h[..n - 1]).scan;
      assert h[..n] == h[..n - 1] + [h[n - 1]];
      CallIdsNext(h[..n - 1], h[n - 1]);
      StepSeen(s, h[n - 1]);
    }
  }

  lemma NoCallIds()
    ensures CallIds([]) == {} && Run(START, []) == Clean(START)
  {
  }

  lemma CallIdsNext(h: seq<Message>, m: Message)
    ensures CallIds(h + [m]) == CallIds(h) + Ids(Calls(m))
  {
    var all := h + [m];
    forall id ensures id in CallIds(all) <==> id in CallIds(h) + Ids(Calls(m)) {
      if id in CallIds(h) {
        var k, j :| 0 <= k < |h| && 0 <= j < |Calls(h[k])| && Calls(h[k])[j].id == id;
        assert all[k] == h[k];
      }
      if id in Ids(Calls(m)) {
        var j :| 0 <= j < |Calls(m)| && Calls(m)[j].id == id;
        assert all[|h|] == m;
      }
    }
  }

  lemma StepSeen(s: Scan, m: Message)
    requires Step(s, m).Clean?
    ensures Step(s, m).scan.seen == s.seen + Ids(Calls(m))
  {
    if m.Result? {
      assert Ids([]) == {};
    } else {
      OpenMeans(s, Calls(m));
    }
  }

  /** The second half of a well paired history uses no call id of the first. */
  lemma TailIsNew(h: seq<Message>, k: nat)
    requires Paired(h, {}) && k <= |h| && Paired(h[..k], {}) && Paired(h[k..], {})
    ensures Paired(h[k..], CallIds(h[..k]))
  {
    hide Paired, Run, Step, CallIds;
    CutsSplit(h, k);
    AcceptedIsPaired(h, {});
    RunSplit(START, h[..k], h[k..]);
    assert h == h[..k] + h[k..];
    RunSeen(h, k);
    var mid := Run(START, h[..k]).scan;
    AcceptedIsPaired(h[k..], mid.seen);
  }

  /** Before a well paired half with ids of its own, exactly the well paired fronts may stand. */
  lemma FrontExactly(front: seq<Message>, tail: seq<Message>, all: set<string>)
    requires Paired(tail, all) && CallIds(front) <= all
    ensures Paired(front + tail, {}) <==> Paired(front, {})
  {
    if Paired(front, {}) {
      hide *;
      assert {} + CallIds(front) <= all;
      PairedAppend(front, tail, {}, all);
    } else if Paired(front + tail, {}) {
      NothingWaitsBefore(front, tail, all);
    }
  }

  lemma NothingWaitsBefore(front: seq<Message>, tail: seq<Message>, all: set<string>)
    requires Paired(tail, all) && Paired(front + tail, {})
    ensures Paired(front, {})
  {
    HeadIsNoResult(tail, all);
    hide Paired, Run, Calls;
    AcceptedIsPaired(front + tail, {});
    AcceptedIsPaired(front, {});
    RunSplit(START, front, tail);
    if tail == [] {
      assert front + tail == front;
    } else {
      RunHead(Run(START, front).scan, tail);
    }
  }

  lemma HeadIsNoResult(tail: seq<Message>, all: set<string>)
    requires Paired(tail, all)
    ensures tail != [] ==> !tail[0].Result?
  {
  }

  lemma RunHead(s: Scan, h: seq<Message>)
    requires h != [] && !h[0].Result? && Run(s, h).Clean?
    ensures s.pending == map[]
  {
  }

  /** A plain message may stand exactly where nothing waits. */
  lemma PlainExactly(a: seq<Message>, m: Message, b: seq<Message>)
    requires !m.Result? && Calls(m) == []
    ensures Paired(a + [m] + b, {}) <==> Paired(a, {}) && Paired(a + b, {})
  {
    hide Paired, Run, Step;
    AcceptedIsPaired(a + [m] + b, {});
    AcceptedIsPaired(a, {});
    AcceptedIsPaired(a + b, {});
    RunSplit(START, a + [m], b);
    RunSplit(START, a, b);
    assert (a + [m])[..|a|] == a && (a + [m])[..|a| + 1] == a + [m];
    RunNext(START, a + [m], |a|);
    if Run(START, a).Clean? { PlainStep(Run(START, a).scan, m); }
  }

  lemma PlainStep(s: Scan, m: Message)
    requires !m.Result? && Calls(m) == []
    ensures Step(s, m) == if s.pending == map[] then Clean(s) else Broken
  {
  }

  lemma CallIdsWithin(a: seq<Message>, b: seq<Message>)
    requires forall m | m in a :: m in b
    ensures CallIds(a) <= CallIds(b)
  {
    forall id | id in CallIds(a) ensures id in CallIds(b) {
      var k, j :| 0 <= k < |a| && 0 <= j < |Calls(a[k])| && Calls(a[k])[j].id == id;
      assert a[k] in b;
      var i :| 0 <= i < |b| && b[i] == a[k];
      assert Calls(b[i])[j].id == id;
    }
  }
}
