/**
  * The steering and follow-up queues with their identified inputs (agent.py, input_queue.py).
  *
  * Four structures speak about the same inputs: the two lanes, the table of identified inputs, and the table
  * from message handles to input ids. Handles stand for object identity.
  */
module InputQueues {

  import opened TextCodecs

  datatype Lane = Steer | FollowUp

  datatype Item = Item(id: string, content: string, lane: Lane, selected: bool, images: seq<string>)

  datatype Entry = Entry(item: Item, handle: nat)

  /** `order` is the insertion order of `inputs`, `context` the context messages that travel with an input. */
  datatype Books = Books(
    steering: seq<nat>,
    followUp: seq<nat>,
    order: seq<string>,
    inputs: map<string, Entry>,
    ids: map<nat, string>,
    context: map<string, seq<string>>)

  const NO_BOOKS := Books([], [], [], map[], map[], map[])

  // ---- What the books promise ------------------------------------------------------------------------

  predicate NoRepeat<T(==)>(xs: seq<T>) {
    forall j, k | 0 <= j < k < |xs| :: xs[j] != xs[k]
  }

  /** How often the message of an input has to be in a lane: once in its own, while it is not selected. */
  function Share(item: Item, name: Lane): nat {
    if item.lane == name && !item.selected then 1 else 0
  }

  ghost predicate LaneOk(lane: seq<nat>, name: Lane, s: Books) {
    forall h | h in s.ids && s.ids[h] in s.inputs :: multiset(lane)[h] == Share(s.inputs[s.ids[h]].item, name)
  }

  /** The tables name the same inputs, and the two maps are inverse to each other. */
  ghost predicate TablesOk(s: Books) {
    && NoRepeat(s.order)
    && (forall id :: id in s.order <==> id in s.inputs)
    && s.context.Keys == s.inputs.Keys
    && (forall id | id in s.inputs :: s.inputs[id].item.id == id && s.inputs[id].handle in s.ids && s.ids[s.inputs[id].handle] == id)
    && (forall h | h in s.ids :: s.ids[h] in s.inputs && s.inputs[s.ids[h]].handle == h)
  }

  ghost predicate Valid(s: Books) {
    TablesOk(s) && LaneOk(s.steering, Steer, s) && LaneOk(s.followUp, FollowUp, s)
  }

  // ---- pending_inputs -----------------------------------------------------------------------------------

  /** The input a message is queued for, if it is an identified one. */
  function Row(h: nat, s: Books): seq<Item> {
    if h in s.ids && s.ids[h] in s.inputs then [s.inputs[s.ids[h]].item] else []
  }

  /** The identified inputs of a lane, in its order. */
  function Rows(lane: seq<nat>, s: Books): seq<Item> {
    if lane == [] then [] else Rows(lane[..|lane| - 1], s) + Row(lane[|lane| - 1], s)
  }

  function SelectedRows(order: seq<string>, inputs: map<string, Entry>): seq<Item> {
    if order == [] then [] else
      var id := order[|order| - 1];
      var rest := SelectedRows(order[..|order| - 1], inputs);
      if id in inputs && inputs[id].item.selected then rest + [inputs[id].item] else rest
  }

  function Pending(s: Books): seq<Item> {
    Rows(s.steering, s) + Rows(s.followUp, s) + SelectedRows(s.order, s.inputs)
  }

  lemma {:induction false} RowsSplit(a: seq<nat>, b: seq<nat>, s: Books)
    ensures Rows(a + b, s) == Rows(a, s) + Rows(b, s)
  {
    if b == [] {
      assert a + b == a;
    } else {
      var n := |b| - 1;
      assert (a + b)[..|a| + n] == a + b[..n];
      RowsSplit(a, b[..n], s);
    }
  }

  lemma {:induction false} RowsFrame(lane: seq<nat>, s: Books, t: Books)
    requires forall h | h in lane :: Row(h, s) == Row(h, t)
    ensures Rows(lane, s) == Rows(lane, t)
  {
    if lane != [] {
      assert lane[|lane| - 1] in lane;
      RowsFrame(lane[..|lane| - 1], s, t);
    }
  }

  /** Each row of a lane comes from an identified message of the lane. */
  lemma {:induction false} RowsOf(lane: seq<nat>, s: Books, row: Item)
    ensures row in Rows(lane, s) <==> exists h :: h in lane && row in Row(h, s)
  {
    if lane != [] {
      var n := |lane| - 1;
      RowsOf(lane[..n], s, row);
      assert lane == lane[..n] + [lane[n]];
    }
  }

  lemma {:induction false} SelectedOf(order: seq<string>, inputs: map<string, Entry>, row: Item)
    ensures row in SelectedRows(order, inputs) <==> exists id :: id in order && id in inputs && inputs[id].item.selected && inputs[id].item == row
  {
    if order != [] {
      var n := |order| - 1;
      SelectedOf(order[..n], inputs, row);
      assert order == order[..n] + [order[n]];
    }
  }

  predicate DistinctIds(rows: seq<Item>) {
    forall j, k | 0 <= j < k < |rows| :: rows[j].id != rows[k].id
  }

  lemma DistinctAppend(a: seq<Item>, b: seq<Item>)
    requires DistinctIds(a) && DistinctIds(b) && forall x, y | x in a && y in b :: x.id != y.id
    ensures DistinctIds(a + b)
  {
    var c := a + b;
    forall j, k | 0 <= j < k < |c| ensures c[j].id != c[k].id {
      if j < |a| <= k { assert c[j] in a && c[k] in b; }
    }
  }

  lemma CountedTwice(lane: seq<nat>, j: nat, k: nat)
    requires j < k < |lane| && lane[j] == lane[k]
    ensures multiset(lane)[lane[j]] >= 2
  {
    assert lane == lane[..k] + [lane[k]] + lane[k + 1..];
    assert lane[..k][j] in lane[..k];
  }

  /** An identified message of a lane has no row before it. */
  lemma FirstOfItsInput(lane: seq<nat>, name: Lane, n: nat, s: Books, row: Item)
    requires Valid(s) && LaneOk(lane, name, s) && n < |lane| && lane[n] in s.ids && row in Rows(lane[..n], s)
    ensures row.id != s.ids[lane[n]]
  {
    RowsOf(lane[..n], s, row);
    var g :| g in lane[..n] && row in Row(g, s);
    var k :| 0 <= k < n && lane[..n][k] == g;
    if g == lane[n] { CountedTwice(lane, k, n); }
  }

  lemma IdentifiedRow(lane: seq<nat>, name: Lane, s: Books, h: nat)
    requires Valid(s) && LaneOk(lane, name, s) && h in lane && h in s.ids
    ensures s.ids[h] in s.inputs
    ensures var row := s.inputs[s.ids[h]].item; Row(h, s) == [row] && row.id == s.ids[h] && row.lane == name && !row.selected
  {
    assert multiset(lane)[h] > 0;
  }

  /** The rows of a prefix of a valid lane have different ids. */
  lemma {:induction false} RowsDistinct(lane: seq<nat>, name: Lane, n: nat, s: Books)
    requires Valid(s) && LaneOk(lane, name, s) && n <= |lane|
    ensures DistinctIds(Rows(lane[..n], s))
    ensures forall row | row in Rows(lane[..n], s) :: row.id in s.inputs && s.inputs[row.id].item == row && row.lane == name && !row.selected
  {
    if n > 0 {
      var h := lane[n - 1];
      RowsDistinct(lane, name, n - 1, s);
      assert lane[..n][..n - 1] == lane[..n - 1];
      hide Valid, LaneOk;
      if h in s.ids {
        IdentifiedRow(lane, name, s, h);
        forall row | row in Rows(lane[..n - 1], s) ensures row.id != s.ids[h] { FirstOfItsInput(lane, name, n - 1, s, row); }
        DistinctAppend(Rows(lane[..n - 1], s), Row(h, s));
      }
    }
  }

  lemma {:induction false} SelectedDistinct(order: seq<string>, inputs: map<string, Entry>)
    requires NoRepeat(order) && forall id | id in inputs :: inputs[id].item.id == id
    ensures DistinctIds(SelectedRows(order, inputs))
  {
    if order != [] {
      var n := |order| - 1;
      SelectedDistinct(order[..n], inputs);
      if order[n] in inputs && inputs[order[n]].item.selected {
        forall row | row in SelectedRows(order[..n], inputs) ensures row.id != order[n] { SelectedOf(order[..n], inputs, row); }
        DistinctAppend(SelectedRows(order[..n], inputs), [inputs[order[n]].item]);
      }
    }
  }

  /** The rows of the two lanes and of the selected inputs: each an input of the books, no id twice. */
  lemma PartsDistinct(s: Books)
    requires Valid(s)
    ensures DistinctIds(Rows(s.steering, s)) && DistinctIds(Rows(s.followUp, s)) && DistinctIds(SelectedRows(s.order, s.inputs))
    ensures forall row | row in Rows(s.steering, s) :: row.id in s.inputs && s.inputs[row.id].item == row && row.lane == Steer && !row.selected
    ensures forall row | row in Rows(s.followUp, s) :: row.id in s.inputs && s.inputs[row.id].item == row && row.lane == FollowUp && !row.selected
    ensures forall row | row in SelectedRows(s.order, s.inputs) :: row.id in s.inputs && s.inputs[row.id].item == row && row.selected
  {
    assert s.steering[..|s.steering|] == s.steering && s.followUp[..|s.followUp|] == s.followUp;
    RowsDistinct(s.steering, Steer, |s.steering|, s);
    RowsDistinct(s.followUp, FollowUp, |s.followUp|, s);
    SelectedDistinct(s.order, s.inputs);
    forall row | row in SelectedRows(s.order, s.inputs) ensures row.selected && row.id in s.inputs && s.inputs[row.id].item == row {
      SelectedOf(s.order, s.inputs, row);
    }
    hide Rows, SelectedRows, DistinctIds;
  }

  /** Every identified input is pending exactly once, and nothing else is. */
  lemma EachPendingOnce(s: Books)
    requires Valid(s)
    ensures DistinctIds(Pending(s))
    ensures forall row | row in Pending(s) :: row.id in s.inputs && s.inputs[row.id].item == row
    ensures forall id | id in s.inputs :: s.inputs[id].item in Pending(s)
  {
    hide Valid, LaneOk, TablesOk, Rows, SelectedRows, DistinctIds;
    PartsDistinct(s);
    DistinctAppend(Rows(s.steering, s), Rows(s.followUp, s));
    DistinctAppend(Rows(s.steering, s) + Rows(s.followUp, s), SelectedRows(s.order, s.inputs));
    forall id | id in s.inputs ensures s.inputs[id].item in Pending(s) { InputIsPending(s, id); }
  }

  lemma InputIsPending(s: Books, id: string)
    requires Valid(s) && id in s.inputs
    ensures s.inputs[id].item in Pending(s)
  {
    var e := s.inputs[id];
    if e.item.selected {
      SelectedOf(s.order, s.inputs, e.item);
    } else {
      var lane := if e.item.lane == Steer then s.steering else s.followUp;
      assert e.handle in multiset(lane);
      RowsOf(lane, s, e.item);
      assert e.item in Row(e.handle, s);
    }
  }

  // ---- change_input -------------------------------------------------------------------------------------

  function LaneOf(s: Books, name: Lane): seq<nat> {
    if name == Steer then s.steering else s.followUp
  }

  function WithLane(s: Books, name: Lane, lane: seq<nat>): Books {
    if name == Steer then s.(steering := lane) else s.(followUp := lane)
  }

  /** The first position of a message in a lane; the lane's length if it is not there. */
  function Position(lane: seq<nat>, h: nat): (k: nat)
    ensures k <= |lane| && (k < |lane| ==> lane[k] == h) && (k == |lane| <==> h !in lane)
    ensures forall j | 0 <= j < k :: lane[j] != h
  {
    if lane == [] then 0 else if lane[0] == h then 0 else 1 + Position(lane[1..], h)
  }

  function Without<T(==, !new)>(xs: seq<T>, gone: set<T>): (r: seq<T>)
    ensures forall x :: x in r <==> x in xs && x !in gone
  {
    if xs == [] then [] else
      var rest := Without(xs[..|xs| - 1], gone);
      if xs[|xs| - 1] in gone then rest else rest + [xs[|xs| - 1]]
  }

  /** What str.strip removes. */
  predicate Space(c: char) {
    var n := c as int;
    9 <= n <= 13 || 28 <= n <= 32 || n == 133 || n == 160 || n == 5760 || 8192 <= n <= 8202
    || n == 8232 || n == 8233 || n == 8239 || n == 8287 || n == 12288
  }

  predicate Blank(content: string) {
    forall c | c in content :: Space(c)
  }

  datatype Action = Remove | Edit(content: string) | Move(direction: int)

  /** `change_input`; `handle` is that of a replacement message, None its False. */
  function Changed(s: Books, id: string, action: Action, handle: nat): Option<Books> {
    if id !in s.inputs || s.inputs[id].item.selected then None else
      var item, h := s.inputs[id].item, s.inputs[id].handle;
      var lane := LaneOf(s, item.lane);
      var p := Position(lane, h);
      if p == |lane| then None else
        match action
        case Remove =>
          Some(WithLane(s, item.lane, lane[..p] + lane[p + 1..]).(
            order := Without(s.order, {id}), inputs := s.inputs - {id}, ids := s.ids - {h}, context := s.context - {id}))
        case Edit(content) =>
          if Blank(content) then None else
            Some(WithLane(s, item.lane, lane[p := handle]).(
              ids := (s.ids - {h})[handle := id], inputs := s.inputs[id := Entry(item.(content := content), handle)]))
        case Move(direction) =>
          var t := p + direction;
          if (direction != -1 && direction != 1) || !(0 <= t < |lane|) then None
          else Some(WithLane(s, item.lane, lane[p := lane[t]][t := h]))
  }

  /** `change_input` once the position of the message is known. */
  lemma ChangedAt(s: Books, id: string, action: Action, handle: nat, queue: seq<nat>, p: nat)
    requires id in s.inputs && !s.inputs[id].item.selected && queue == LaneOf(s, s.inputs[id].item.lane)
    requires p == Position(queue, s.inputs[id].handle)
    ensures p == |queue| ==> Changed(s, id, action, handle) == None
    ensures p < |queue| ==> queue[p] == s.inputs[id].handle
    ensures p < |queue| ==>
      var item, h := s.inputs[id].item, s.inputs[id].handle;
      Changed(s, id, action, handle) == (match action
        case Remove =>
          Some(WithLane(s, item.lane, queue[..p] + queue[p + 1..]).(
            order := Without(s.order, {id}), inputs := s.inputs - {id}, ids := s.ids - {h}, context := s.context - {id}))
        case Edit(content) =>
          if Blank(content) then None else
            Some(WithLane(s, item.lane, queue[p := handle]).(
              ids := (s.ids - {h})[handle := id], inputs := s.inputs[id := Entry(item.(content := content), handle)]))
        case Move(direction) =>
          if (direction != -1 && direction != 1) || !(0 <= p + direction < |queue|) then None
          else Some(WithLane(s, item.lane, queue[p := queue[p + direction]][p + direction := h])))
  {
  }

  /** A handle no message of the books has. */
  predicate Unused(s: Books, handle: nat) {
    handle !in s.ids && handle !in s.steering && handle !in s.followUp
  }

  /** The message of an unselected input is in its own lane once, and not in the other. */
  lemma OwnLane(s: Books, id: string)
    requires Valid(s) && id in s.inputs && !s.inputs[id].item.selected
    ensures multiset(LaneOf(s, s.inputs[id].item.lane))[s.inputs[id].handle] == 1
    ensures multiset(LaneOf(s, Opposite(s.inputs[id].item.lane)))[s.inputs[id].handle] == 0
    ensures Row(s.inputs[id].handle, s) == [s.inputs[id].item]
  {
    hide NoRepeat;
    var e := s.inputs[id];
    assert s.ids[e.handle] == id;
  }

  lemma SplitOnce(lane: seq<nat>, h: nat)
    requires multiset(lane)[h] == 1
    ensures var p := Position(lane, h); p < |lane| && h !in lane[..p] && h !in lane[p + 1..] && lane == lane[..p] + [h] + lane[p + 1..]
  {
    AbsentCount(lane, h);
    var p := Position(lane, h);
    hide Position;
    CountWithout(lane, p);
    AbsentCount(lane[..p] + lane[p + 1..], h);
    SplitMembers(lane, p, h);
  }

  lemma SplitMembers(lane: seq<nat>, p: nat, h: nat)
    requires p < |lane|
    ensures lane == lane[..p] + [lane[p]] + lane[p + 1..]
    ensures h !in lane[..p] + lane[p + 1..] ==> h !in lane[..p] && h !in lane[p + 1..]
  {
  }

  /** An unselected input splits its lane, and the rows of its lane. */
  lemma LaneSplits(s: Books, id: string)
    requires Valid(s) && id in s.inputs && !s.inputs[id].item.selected
    ensures var h := s.inputs[id].handle; var lane := LaneOf(s, s.inputs[id].item.lane); var p := Position(lane, h);
            && p < |lane| && h !in lane[..p] && h !in lane[p + 1..] && lane == lane[..p] + [h] + lane[p + 1..]
            && Rows(lane, s) == Rows(lane[..p], s) + [s.inputs[id].item] + Rows(lane[p + 1..], s)
            && h !in LaneOf(s, Opposite(s.inputs[id].item.lane))
  {
    hide *;
    OwnLane(s, id);
    var h := s.inputs[id].handle;
    var lane: seq<nat> := LaneOf(s, s.inputs[id].item.lane);
    SplitOnce(lane, h);
    AbsentCount(LaneOf(s, Opposite(s.inputs[id].item.lane)), h);
    var p := Position(lane, h);
    RowsSplit(lane[..p] + [h], lane[p + 1..], s);
    RowsSplit(lane[..p], [h], s);
    OneMessage(h, s);
  }

  lemma {:induction false} WithoutKeepsOrder<T(!new)>(xs: seq<T>, gone: set<T>)
    requires NoRepeat(xs)
    ensures NoRepeat(Without(xs, gone))
  {
    if xs != [] {
      var n := |xs| - 1;
      WithoutKeepsOrder(xs[..n], gone);
      var rest := Without(xs[..n], gone);
      if xs[n] !in gone {
        forall j | 0 <= j < |rest| ensures rest[j] != xs[n] { assert rest[j] in rest; }
      }
    }
  }

  /** The tables after these inputs were taken off the books. */
  ghost predicate Removed(s: Books, t: Books, keys: set<string>) {
    && t.order == Without(s.order, keys) && t.inputs == s.inputs - keys && t.context == s.context - keys
    && (forall h :: h in t.ids <==> h in s.ids && s.ids[h] !in keys)
    && (forall h | h in t.ids :: t.ids[h] == s.ids[h])
  }

  lemma RemovedTables(s: Books, t: Books, keys: set<string>)
    requires TablesOk(s) && Removed(s, t, keys)
    ensures TablesOk(t)
  {
    WithoutKeepsOrder(s.order, keys);
  }

  /** A lane that lost nothing but messages of removed inputs is in order. */
  lemma RemovedLane(lane: seq<nat>, now: seq<nat>, name: Lane, s: Books, t: Books, keys: set<string>)
    requires LaneOk(lane, name, s) && Removed(s, t, keys)
    requires forall h | h in s.ids && s.ids[h] !in keys :: multiset(now)[h] == multiset(lane)[h]
    ensures LaneOk(now, name, t)
  {
    forall h | h in t.ids && t.ids[h] in t.inputs ensures multiset(now)[h] == Share(t.inputs[t.ids[h]].item, name) {
      assert h in s.ids && t.ids[h] == s.ids[h] && s.ids[h] in s.inputs;
    }
  }

  lemma CountWithout(lane: seq<nat>, p: nat)
    requires p < |lane|
    ensures multiset(lane[..p] + lane[p + 1..]) == multiset(lane) - multiset{lane[p]}
  {
    assert lane == lane[..p] + [lane[p]] + lane[p + 1..];
  }

  function Opposite(name: Lane): Lane {
    if name == Steer then FollowUp else Steer
  }

  /** The removal of one input, in terms of the removal of a set. */
  lemma OneRemoved(s: Books, t: Books, id: string)
    requires TablesOk(s) && id in s.inputs
    requires t.order == Without(s.order, {id}) && t.inputs == s.inputs - {id} && t.context == s.context - {id}
    requires t.ids == s.ids - {s.inputs[id].handle}
    ensures Removed(s, t, {id})
  {
    hide NoRepeat, Without;
  }

  lemma LanesOfWith(s: Books, name: Lane, lane: seq<nat>, t: Books)
    requires t.steering == WithLane(s, name, lane).steering && t.followUp == WithLane(s, name, lane).followUp
    ensures LaneOf(t, name) == lane && LaneOf(t, Opposite(name)) == LaneOf(s, Opposite(name))
  {
  }

  lemma ChangedRemoves(s: Books, id: string, handle: nat)
    requires Valid(s) && Changed(s, id, Remove, handle).Some?
    ensures var t := Changed(s, id, Remove, handle).value;
            var name := s.inputs[id].item.lane;
            var p := Position(LaneOf(s, name), s.inputs[id].handle);
            && p < |LaneOf(s, name)|
            && Removed(s, t, {id})
            && LaneOf(t, name) == LaneOf(s, name)[..p] + LaneOf(s, name)[p + 1..]
            && LaneOf(t, Opposite(name)) == LaneOf(s, Opposite(name))
  {
    hide *;
    ChangedInput(s, id, Remove, handle);
    ValidLanes(s);
    LaneSplits(s, id);
    var name := s.inputs[id].item.lane;
    var lane: seq<nat> := LaneOf(s, name);
    var p := Position(lane, s.inputs[id].handle);
    ChangedAt(s, id, Remove, handle, lane, p);
    var t := Changed(s, id, Remove, handle).value;
    OneRemoved(s, t, id);
    LanesOfWith(s, name, lane[..p] + lane[p + 1..], t);
  }

  lemma ValidLanes(s: Books)
    ensures Valid(s) <==> TablesOk(s) && forall name: Lane :: LaneOk(LaneOf(s, name), name, s)
  {
    assert LaneOf(s, Steer) == s.steering && LaneOf(s, FollowUp) == s.followUp;
  }

  lemma ChangedInput(s: Books, id: string, action: Action, handle: nat)
    requires Valid(s) && Changed(s, id, action, handle).Some?
    ensures id in s.inputs && !s.inputs[id].item.selected && s.inputs[id].handle in s.ids && s.ids[s.inputs[id].handle] == id
  {
  }

  lemma RemoveKeepsValid(s: Books, id: string, handle: nat)
    requires Valid(s) && Changed(s, id, Remove, handle).Some?
    ensures Valid(Changed(s, id, Remove, handle).value)
  {
    hide *;
    ChangedInput(s, id, Remove, handle);
    LaneSplits(s, id);
    ChangedRemoves(s, id, handle);
    var t := Changed(s, id, Remove, handle).value;
    var name := s.inputs[id].item.lane;
    ValidLanes(s);
    ValidLanes(t);
    CountWithout(LaneOf(s, name), Position(LaneOf(s, name), s.inputs[id].handle));
    RemovedTables(s, t, {id});
    RemovedLane(LaneOf(s, name), LaneOf(t, name), name, s, t, {id});
    RemovedLane(LaneOf(s, Opposite(name)), LaneOf(t, Opposite(name)), Opposite(name), s, t, {id});
    forall each: Lane ensures LaneOk(LaneOf(t, each), each, t) { TwoLanes(each, name); }
  }

  lemma TwoLanes(a: Lane, b: Lane)
    ensures (a == b || a == Opposite(b)) && a != Opposite(a)
  {
  }

  lemma EditTables(s: Books, id: string, content: string, handle: nat)
    requires Valid(s) && Unused(s, handle) && Changed(s, id, Edit(content), handle).Some?
    ensures TablesOk(Changed(s, id, Edit(content), handle).value)
  {
    hide LaneOk, LaneOf, Position, NoRepeat;
    ChangedEdits(s, id, content, handle);
    var t := Changed(s, id, Edit(content), handle).value;
    assert t.order == s.order && t.context == s.context;
    hide Changed;
  }

  /** The tables after an edit, as far as the lanes care. */
  ghost predicate Edited(s: Books, t: Books, id: string, content: string, handle: nat) {
    && id in s.inputs && TablesOk(s) && handle !in s.ids
    && t.ids == (s.ids - {s.inputs[id].handle})[handle := id]
    && t.inputs == s.inputs[id := Entry(s.inputs[id].item.(content := content), handle)]
  }

  lemma ChangedEdits(s: Books, id: string, content: string, handle: nat)
    requires Valid(s) && Unused(s, handle) && Changed(s, id, Edit(content), handle).Some?
    ensures var t := Changed(s, id, Edit(content), handle).value;
            var name := s.inputs[id].item.lane;
            var p := Position(LaneOf(s, name), s.inputs[id].handle);
            && Edited(s, t, id, content, handle)
            && p < |LaneOf(s, name)| && LaneOf(s, name)[p] == s.inputs[id].handle
            && LaneOf(t, name) == LaneOf(s, name)[p := handle]
            && LaneOf(t, Opposite(name)) == LaneOf(s, Opposite(name))
            && handle !in LaneOf(s, name) && handle !in LaneOf(s, Opposite(name))
  {
  }

  lemma EditKeepsValid(s: Books, id: string, content: string, handle: nat)
    requires Valid(s) && Unused(s, handle) && Changed(s, id, Edit(content), handle).Some?
    ensures Valid(Changed(s, id, Edit(content), handle).value)
  {
    NewHandle(s, handle);
    EditTables(s, id, content, handle);
    hide *;
    ChangedInput(s, id, Edit(content), handle);
    ChangedEdits(s, id, content, handle);
    var t := Changed(s, id, Edit(content), handle).value;
    var name := s.inputs[id].item.lane;
    ValidLanes(s);
    ValidLanes(t);
    EditLane(LaneOf(s, name), name, Position(LaneOf(s, name), s.inputs[id].handle), s, t, id, content, handle);
    TwoLanes(name, name);
    OtherLane(LaneOf(s, Opposite(name)), Opposite(name), s, t, id, content, handle);
    forall each: Lane ensures LaneOk(LaneOf(t, each), each, t) { TwoLanes(each, name); }
  }

  lemma NewHandle(s: Books, handle: nat)
    requires Unused(s, handle)
    ensures handle !in s.ids
  {
  }

  lemma EditLane(lane: seq<nat>, name: Lane, p: nat, s: Books, t: Books, id: string, content: string, handle: nat)
    requires Edited(s, t, id, content, handle) && LaneOk(lane, name, s) && s.inputs[id].item.lane == name && !s.inputs[id].item.selected
    requires p < |lane| && lane[p] == s.inputs[id].handle && handle !in lane
    ensures LaneOk(lane[p := handle], name, t)
  {
    assert multiset(lane)[handle] == 0;
    assert multiset(lane[p := handle]) == multiset(lane) - multiset{lane[p]} + multiset{handle};
    forall h | h in t.ids && t.ids[h] in t.inputs ensures multiset(lane[p := handle])[h] == Share(t.inputs[t.ids[h]].item, name) {
      if h != handle { assert h in s.ids && t.ids[h] == s.ids[h] != id; }
    }
  }

  lemma OtherLane(lane: seq<nat>, name: Lane, s: Books, t: Books, id: string, content: string, handle: nat)
    requires Edited(s, t, id, content, handle) && LaneOk(lane, name, s) && s.inputs[id].item.lane != name && handle !in lane
    ensures LaneOk(lane, name, t)
  {
    assert multiset(lane)[handle] == 0;
    forall h | h in t.ids && t.ids[h] in t.inputs ensures multiset(lane)[h] == Share(t.inputs[t.ids[h]].item, name) {
      if h != handle { assert h in s.ids && t.ids[h] == s.ids[h] != id; }
    }
  }

  lemma SwapCounts(lane: seq<nat>, p: nat, q: nat)
    requires p < |lane| && q < |lane|
    ensures multiset(lane[p := lane[q]][q := lane[p]]) == multiset(lane)
  {
    var first := lane[p := lane[q]];
    assert multiset(first[q := lane[p]]) == multiset(lane);
  }

  lemma MoveKeepsValid(s: Books, id: string, direction: int, handle: nat)
    requires Valid(s) && Changed(s, id, Move(direction), handle).Some?
    ensures Valid(Changed(s, id, Move(direction), handle).value)
  {
    hide *;
    ChangedInput(s, id, Move(direction), handle);
    ChangedMoves(s, id, direction, handle);
    var t := Changed(s, id, Move(direction), handle).value;
    var name := s.inputs[id].item.lane;
    var lane: seq<nat> := LaneOf(s, name);
    var p := Position(lane, s.inputs[id].handle);
    LaneSplits(s, id);
    SwapCounts(lane, p, p + direction);
    TablesSame(s, t);
    ValidLanes(s);
    ValidLanes(t);
    SameCounts(lane, LaneOf(t, name), name, s, t);
    SameCounts(LaneOf(s, Opposite(name)), LaneOf(t, Opposite(name)), Opposite(name), s, t);
    forall each: Lane ensures LaneOk(LaneOf(t, each), each, t) { TwoLanes(each, name); }
  }

  // ---- What the operations do to the pending inputs ---------------------------------------------------------

  /** The pending rows before an unselected input, and those after it. */
  function RowsBefore(s: Books, id: string): seq<Item>
    requires id in s.inputs
  {
    var e := s.inputs[id];
    var lane := LaneOf(s, e.item.lane);
    (if e.item.lane == FollowUp then Rows(s.steering, s) else []) + Rows(lane[..Position(lane, e.handle)], s)
  }

  function RowsAfter(s: Books, id: string): seq<Item>
    requires id in s.inputs && s.inputs[id].handle in LaneOf(s, s.inputs[id].item.lane)
  {
    var e := s.inputs[id];
    var lane := LaneOf(s, e.item.lane);
    Rows(lane[Position(lane, e.handle) + 1..], s) + (if e.item.lane == Steer then Rows(s.followUp, s) else [])
      + SelectedRows(s.order, s.inputs)
  }

  /** The pending rows, put together from a lane, the opposite lane and the selected inputs. */
  function Around(name: Lane, mine: seq<Item>, others: seq<Item>, selected: seq<Item>): seq<Item> {
    if name == Steer then mine + others + selected else others + mine + selected
  }

  lemma AroundSplits(name: Lane, a: seq<Item>, m: seq<Item>, b: seq<Item>, others: seq<Item>, selected: seq<Item>)
    ensures Around(name, a + m + b, others, selected)
         == ((if name == FollowUp then others else []) + a) + m + (b + (if name == Steer then others else []) + selected)
  {
    if name == Steer {
      assert [] + a == a;
      assert a + m + b + others + selected == a + m + (b + others + selected);
    } else {
      assert b + [] == b;
      assert others + (a + m + b) + selected == others + a + m + (b + selected);
    }
  }

  lemma PendingAround(s: Books, name: Lane)
    ensures Pending(s) == Around(name, Rows(LaneOf(s, name), s), Rows(LaneOf(s, Opposite(name)), s), SelectedRows(s.order, s.inputs))
  {
  }

  lemma SidesOf(s: Books, id: string)
    requires id in s.inputs && s.inputs[id].handle in LaneOf(s, s.inputs[id].item.lane)
    ensures var name := s.inputs[id].item.lane; var lane := LaneOf(s, name); var p := Position(lane, s.inputs[id].handle);
            var others := Rows(LaneOf(s, Opposite(name)), s);
            && p < |lane|
            && RowsBefore(s, id) == (if name == FollowUp then others else []) + Rows(lane[..p], s)
            && RowsAfter(s, id) == Rows(lane[p + 1..], s) + (if name == Steer then others else []) + SelectedRows(s.order, s.inputs)
  {
    hide Rows, SelectedRows, Position;
    assert Position(LaneOf(s, s.inputs[id].item.lane), s.inputs[id].handle) < |LaneOf(s, s.inputs[id].item.lane)|;
  }

  lemma PendingSplits(s: Books, id: string)
    requires Valid(s) && id in s.inputs && !s.inputs[id].item.selected
    ensures s.inputs[id].handle in LaneOf(s, s.inputs[id].item.lane)
    ensures Pending(s) == RowsBefore(s, id) + [s.inputs[id].item] + RowsAfter(s, id)
  {
    hide *;
    LaneSplits(s, id);
    SidesOf(s, id);
    var name := s.inputs[id].item.lane;
    var lane := LaneOf(s, name);
    var p := Position(lane, s.inputs[id].handle);
    PendingAround(s, name);
    AroundSplits(name, Rows(lane[..p], s), [s.inputs[id].item], Rows(lane[p + 1..], s),
                 Rows(LaneOf(s, Opposite(name)), s), SelectedRows(s.order, s.inputs));
  }

  lemma {:induction false} SelectedFrame(order: seq<string>, a: map<string, Entry>, b: map<string, Entry>)
    requires forall id | id in order && id in a && a[id].item.selected :: id in b && b[id].item == a[id].item
    requires forall id | id in order && id in b && b[id].item.selected :: id in a && a[id].item == b[id].item
    ensures SelectedRows(order, a) == SelectedRows(order, b)
  {
    if order != [] {
      assert order[|order| - 1] in order;
      SelectedFrame(order[..|order| - 1], a, b);
    }
  }

  lemma {:induction false} SelectedWithout(order: seq<string>, gone: set<string>, inputs: map<string, Entry>)
    requires forall id | id in gone && id in inputs :: !inputs[id].item.selected
    ensures SelectedRows(Without(order, gone), inputs) == SelectedRows(order, inputs)
  {
    if order != [] {
      var n := |order| - 1;
      SelectedWithout(order[..n], gone, inputs);
      var rest := Without(order[..n], gone);
      if order[n] !in gone { assert (rest + [order[n]])[..|rest|] == rest; }
    }
  }

  /** Messages other than that of the changed input stand for the same row as before. */
  lemma RowKept(s: Books, id: string, action: Action, handle: nat, h: nat)
    requires Valid(s) && Unused(s, handle) && Changed(s, id, action, handle).Some?
    requires h != handle && h != s.inputs[id].handle
    ensures Row(h, Changed(s, id, action, handle).value) == Row(h, s)
  {
  }

  lemma OppositeKept(s: Books, id: string, action: Action, handle: nat)
    requires Valid(s) && Changed(s, id, action, handle).Some?
    ensures var t := Changed(s, id, action, handle).value; var name := s.inputs[id].item.lane;
            LaneOf(t, Opposite(name)) == LaneOf(s, Opposite(name))
  {
  }

  lemma SelectedKept(s: Books, id: string, action: Action, handle: nat)
    requires Valid(s) && Changed(s, id, action, handle).Some?
    ensures SelectedRows(Changed(s, id, action, handle).value.order, Changed(s, id, action, handle).value.inputs)
         == SelectedRows(s.order, s.inputs)
  {
    hide LaneOk;
    SelectedWithout(s.order, {id}, s.inputs);
    SelectedFrame(Changed(s, id, action, handle).value.order, s.inputs, Changed(s, id, action, handle).value.inputs);
  }

  lemma UnusedInLane(s: Books, handle: nat, name: Lane)
    requires Unused(s, handle)
    ensures handle !in LaneOf(s, name)
  {
  }

  /** The rows of the untouched messages of both lanes, and of the selected inputs, are what they were. */
  lemma SidesKept(s: Books, id: string, action: Action, handle: nat)
    requires Valid(s) && Unused(s, handle) && Changed(s, id, action, handle).Some?
    ensures var t := Changed(s, id, action, handle).value;
            var name, h := s.inputs[id].item.lane, s.inputs[id].handle;
            var lane := LaneOf(s, name); var p := Position(lane, h);
            && p < |lane|
            && Rows(lane[..p], t) == Rows(lane[..p], s)
            && Rows(lane[p + 1..], t) == Rows(lane[p + 1..], s)
            && Rows(LaneOf(t, Opposite(name)), t) == Rows(LaneOf(s, Opposite(name)), s)
            && SelectedRows(t.order, t.inputs) == SelectedRows(s.order, s.inputs)
  {
    hide *;
    ChangedInput(s, id, action, handle);
    LaneSplits(s, id);
    OppositeKept(s, id, action, handle);
    SelectedKept(s, id, action, handle);
    var t := Changed(s, id, action, handle).value;
    var name, h := s.inputs[id].item.lane, s.inputs[id].handle;
    UnusedInLane(s, handle, name);
    UnusedInLane(s, handle, Opposite(name));
    var lane := LaneOf(s, name);
    var p := Position(lane, h);
    forall g | g in lane[..p] || g in lane[p + 1..] || g in LaneOf(s, Opposite(name)) ensures Row(g, t) == Row(g, s) {
      RowKept(s, id, action, handle, g);
    }
    RowsFrame(lane[..p], t, s);
    RowsFrame(lane[p + 1..], t, s);
    RowsFrame(LaneOf(s, Opposite(name)), t, s);
  }

  /** Whatever takes the place of the input's message, its rows take the place of its row. */
  lemma PendingBecomes(s: Books, id: string, action: Action, handle: nat, middle: seq<nat>)
    requires Valid(s) && Unused(s, handle) && Changed(s, id, action, handle).Some?
    requires var t := Changed(s, id, action, handle).value;
             var name := s.inputs[id].item.lane; var lane := LaneOf(s, name); var p := Position(lane, s.inputs[id].handle);
             p < |lane| && LaneOf(t, name) == lane[..p] + middle + lane[p + 1..]
    ensures s.inputs[id].handle in LaneOf(s, s.inputs[id].item.lane)
    ensures Pending(Changed(s, id, action, handle).value)
         == RowsBefore(s, id) + Rows(middle, Changed(s, id, action, handle).value) + RowsAfter(s, id)
  {
    ChangedInput(s, id, action, handle);
    hide *;
    LaneSplits(s, id);
    SidesOf(s, id);
    SidesKept(s, id, action, handle);
    var t := Changed(s, id, action, handle).value;
    var name := s.inputs[id].item.lane;
    var lane := LaneOf(s, name);
    var p := Position(lane, s.inputs[id].handle);
    RowsSplit(lane[..p] + middle, lane[p + 1..], t);
    RowsSplit(lane[..p], middle, t);
    PendingAround(t, name);
    AroundSplits(name, Rows(lane[..p], s), Rows(middle, t), Rows(lane[p + 1..], s),
                 Rows(LaneOf(s, Opposite(name)), s), SelectedRows(s.order, s.inputs));
  }

  lemma OneMessage(h: nat, s: Books)
    ensures Rows([], s) == [] && Rows([h], s) == Row(h, s)
  {
    assert [h][..0] == [];
  }

  lemma NothingBetween<T>(a: seq<T>, b: seq<T>)
    ensures a + [] + b == a + b
  {
  }

  lemma UpdateSplits<T>(xs: seq<T>, p: nat, x: T)
    requires p < |xs|
    ensures xs[p := x] == xs[..p] + [x] + xs[p + 1..]
  {
  }

  /** Removing an input takes its row out and nothing else. */
  lemma RemoveTakesRow(s: Books, id: string, handle: nat)
    requires Valid(s) && Unused(s, handle) && Changed(s, id, Remove, handle).Some?
    ensures s.inputs[id].handle in LaneOf(s, s.inputs[id].item.lane)
    ensures Pending(Changed(s, id, Remove, handle).value) == RowsBefore(s, id) + RowsAfter(s, id)
  {
    ChangedInput(s, id, Remove, handle);
    hide *;
    LaneSplits(s, id);
    ChangedRemoves(s, id, handle);
    OneMessage(handle, Changed(s, id, Remove, handle).value);
    var lane := LaneOf(s, s.inputs[id].item.lane);
    var p := Position(lane, s.inputs[id].handle);
    NothingBetween(lane[..p], lane[p + 1..]);
    PendingBecomes(s, id, Remove, handle, []);
    NothingBetween(RowsBefore(s, id), RowsAfter(s, id));
  }

  lemma EditedRow(s: Books, t: Books, id: string, content: string, handle: nat)
    requires Edited(s, t, id, content, handle)
    ensures Row(handle, t) == [s.inputs[id].item.(content := content)]
  {
  }

  /** Editing an input changes its content and nothing else. */
  lemma EditChangesContent(s: Books, id: string, content: string, handle: nat)
    requires Valid(s) && Unused(s, handle) && Changed(s, id, Edit(content), handle).Some?
    ensures s.inputs[id].handle in LaneOf(s, s.inputs[id].item.lane)
    ensures Pending(Changed(s, id, Edit(content), handle).value)
         == RowsBefore(s, id) + [s.inputs[id].item.(content := content)] + RowsAfter(s, id)
  {
    ChangedInput(s, id, Edit(content), handle);
    hide *;
    LaneSplits(s, id);
    ChangedEdits(s, id, content, handle);
    var t := Changed(s, id, Edit(content), handle).value;
    var lane := LaneOf(s, s.inputs[id].item.lane);
    var p := Position(lane, s.inputs[id].handle);
    UpdateSplits(lane, p, handle);
    OneMessage(handle, t);
    EditedRow(s, t, id, content, handle);
    PendingBecomes(s, id, Edit(content), handle, [handle]);
  }

  lemma RowsRight(lane: seq<nat>, p: nat, s: Books)
    requires p + 1 < |lane|
    ensures Rows(lane[p + 1..], s) == Row(lane[p + 1], s) + Rows(lane[p + 2..], s)
  {
    assert lane[p + 1..] == [lane[p + 1]] + lane[p + 2..];
    RowsSplit([lane[p + 1]], lane[p + 2..], s);
    OneMessage(lane[p + 1], s);
  }

  lemma RowsLeft(lane: seq<nat>, p: nat, s: Books)
    requires 0 < p <= |lane|
    ensures Rows(lane[..p], s) == Rows(lane[..p - 1], s) + Row(lane[p - 1], s)
  {
    assert lane[..p][..p - 1] == lane[..p - 1];
  }

  /** Two neighbours swapped: their rows are swapped. */
  lemma RowsSwapped(lane: seq<nat>, p: nat, s: Books)
    requires p + 1 < |lane|
    ensures Rows(lane[p := lane[p + 1]][p + 1 := lane[p]], s)
         == Rows(lane[..p], s) + (Row(lane[p + 1], s) + Row(lane[p], s)) + Rows(lane[p + 2..], s)
  {
    var a, x, y, b := lane[..p], lane[p], lane[p + 1], lane[p + 2..];
    assert lane[p := y][p + 1 := x] == a + [y] + [x] + b;
    RowsSplit(a + [y] + [x], b, s);
    RowsSplit(a + [y], [x], s);
    RowsSplit(a, [y], s);
    OneMessage(x, s);
    OneMessage(y, s);
  }

  lemma ChangedMoves(s: Books, id: string, direction: int, handle: nat)
    requires Valid(s) && Changed(s, id, Move(direction), handle).Some?
    ensures var t := Changed(s, id, Move(direction), handle).value;
            var name := s.inputs[id].item.lane; var lane := LaneOf(s, name); var p := Position(lane, s.inputs[id].handle);
            && (direction == 1 || direction == -1) && 0 <= p + direction < |lane|
            && t.ids == s.ids && t.inputs == s.inputs && t.order == s.order && t.context == s.context
            && LaneOf(t, name) == lane[p := lane[p + direction]][p + direction := lane[p]]
            && LaneOf(t, Opposite(name)) == LaneOf(s, Opposite(name))
  {
    hide *;
    ChangedInput(s, id, Move(direction), handle);
    LaneSplits(s, id);
    var name, h := s.inputs[id].item.lane, s.inputs[id].handle;
    var lane: seq<nat> := LaneOf(s, name);
    var p := Position(lane, h);
    ChangedAt(s, id, Move(direction), handle, lane, p);
    var t := Changed(s, id, Move(direction), handle).value;
    WithLaneTables(s, name, lane[p := lane[p + direction]][p + direction := h]);
    LanesOfWith(s, name, lane[p := lane[p + direction]][p + direction := h], t);
  }

  lemma WithLaneTables(s: Books, name: Lane, lane: seq<nat>)
    ensures var t := WithLane(s, name, lane); t.ids == s.ids && t.inputs == s.inputs && t.order == s.order && t.context == s.context
  {
  }

  lemma SameTablesRows(lane: seq<nat>, s: Books, t: Books)
    requires t.ids == s.ids && t.inputs == s.inputs
    ensures Rows(lane, t) == Rows(lane, s)
  {
    RowsFrame(lane, t, s);
  }

  /** The row of the neighbour a move swaps with; empty for a plain message. */
  function NeighbourRow(s: Books, id: string, direction: int): seq<Item>
    requires id in s.inputs
  {
    var lane := LaneOf(s, s.inputs[id].item.lane);
    var t := Position(lane, s.inputs[id].handle) + direction;
    if 0 <= t < |lane| then Row(lane[t], s) else []
  }

  /** The rows after the right neighbour, and those before the left one. */
  function FarAfter(s: Books, id: string): seq<Item>
    requires id in s.inputs
  {
    var name := s.inputs[id].item.lane;
    var lane := LaneOf(s, name);
    var p := Position(lane, s.inputs[id].handle);
    (if p + 2 <= |lane| then Rows(lane[p + 2..], s) else []) + (if name == Steer then Rows(LaneOf(s, Opposite(name)), s) else [])
      + SelectedRows(s.order, s.inputs)
  }

  function FarBefore(s: Books, id: string): seq<Item>
    requires id in s.inputs
  {
    var name := s.inputs[id].item.lane;
    var lane := LaneOf(s, name);
    var p := Position(lane, s.inputs[id].handle);
    (if name == FollowUp then Rows(LaneOf(s, Opposite(name)), s) else []) + (if p > 0 then Rows(lane[..p - 1], s) else [])
  }

  lemma FarSides(s: Books, id: string)
    requires id in s.inputs
    ensures var name := s.inputs[id].item.lane; var lane := LaneOf(s, name); var p := Position(lane, s.inputs[id].handle);
            var others := Rows(LaneOf(s, Opposite(name)), s);
            && (p + 2 <= |lane| ==> FarAfter(s, id) == Rows(lane[p + 2..], s) + (if name == Steer then others else [])
                                                       + SelectedRows(s.order, s.inputs))
            && (p > 0 ==> FarBefore(s, id) == (if name == FollowUp then others else []) + Rows(lane[..p - 1], s))
            && (p + 1 < |lane| ==> NeighbourRow(s, id, 1) == Row(lane[p + 1], s))
            && (p > 0 ==> NeighbourRow(s, id, -1) == Row(lane[p - 1], s))
  {
    hide Rows, SelectedRows, Position, Row;
    var lane := LaneOf(s, s.inputs[id].item.lane);
    assert Position(lane, s.inputs[id].handle) <= |lane|;
  }

  lemma MoveRight(s: Books, id: string, handle: nat)
    requires Valid(s) && Changed(s, id, Move(1), handle).Some?
    ensures s.inputs[id].handle in LaneOf(s, s.inputs[id].item.lane)
    ensures RowsAfter(s, id) == NeighbourRow(s, id, 1) + FarAfter(s, id)
    ensures Pending(Changed(s, id, Move(1), handle).value)
         == RowsBefore(s, id) + (NeighbourRow(s, id, 1) + [s.inputs[id].item]) + FarAfter(s, id)
  {
    hide *;
    ChangedInput(s, id, Move(1), handle);
    var name := s.inputs[id].item.lane;
    var lane, others := LaneOf(s, name), Rows(LaneOf(s, Opposite(name)), s);
    var p := Position(lane, s.inputs[id].handle);
    ChangedMoves(s, id, 1, handle);
    ItsRow(s, id);
    LaneSplits(s, id);
    SidesOf(s, id);
    FarSides(s, id);
    var t := Changed(s, id, Move(1), handle).value;
    RowsRight(lane, p, s);
    RowsSwapped(lane, p, s);
    SameTablesRows(LaneOf(t, name), s, t);
    SameTablesRows(LaneOf(t, Opposite(name)), s, t);
    PendingAround(t, name);
    AroundSplits(name, Rows(lane[..p], s), Row(lane[p + 1], s) + [s.inputs[id].item], Rows(lane[p + 2..], s), others, SelectedRows(s.order, s.inputs));
    Regroup(Row(lane[p + 1], s), Rows(lane[p + 2..], s), if name == Steer then others else [], SelectedRows(s.order, s.inputs));
  }

  lemma ItsRow(s: Books, id: string)
    requires Valid(s) && id in s.inputs
    ensures Row(s.inputs[id].handle, s) == [s.inputs[id].item]
  {
  }

  lemma Regroup<T>(a: seq<T>, b: seq<T>, c: seq<T>, d: seq<T>)
    ensures a + b + c + d == a + (b + c + d)
  {
  }

  lemma MoveLeft(s: Books, id: string, handle: nat)
    requires Valid(s) && Changed(s, id, Move(-1), handle).Some?
    ensures s.inputs[id].handle in LaneOf(s, s.inputs[id].item.lane)
    ensures RowsBefore(s, id) == FarBefore(s, id) + NeighbourRow(s, id, -1)
    ensures Pending(Changed(s, id, Move(-1), handle).value)
         == FarBefore(s, id) + ([s.inputs[id].item] + NeighbourRow(s, id, -1)) + RowsAfter(s, id)
  {
    hide *;
    ChangedInput(s, id, Move(-1), handle);
    var name := s.inputs[id].item.lane;
    var lane, others := LaneOf(s, name), Rows(LaneOf(s, Opposite(name)), s);
    var p := Position(lane, s.inputs[id].handle);
    ChangedMoves(s, id, -1, handle);
    ItsRow(s, id);
    LaneSplits(s, id);
    SidesOf(s, id);
    FarSides(s, id);
    var t := Changed(s, id, Move(-1), handle).value;
    RowsLeft(lane, p, s);
    RowsSwapped(lane, p - 1, s);
    SwapSame(lane, p);
    SameTablesRows(LaneOf(t, name), s, t);
    SameTablesRows(LaneOf(t, Opposite(name)), s, t);
    PendingAround(t, name);
    AroundSplits(name, Rows(lane[..p - 1], s), [s.inputs[id].item] + Row(lane[p - 1], s), Rows(lane[p + 1..], s), others, SelectedRows(s.order, s.inputs));
    Assoc(if name == FollowUp then others else [], Rows(lane[..p - 1], s), Row(lane[p - 1], s));
  }

  lemma SwapSame<T>(xs: seq<T>, p: nat)
    requires 0 < p < |xs|
    ensures xs[p := xs[p - 1]][p - 1 := xs[p]] == xs[p - 1 := xs[p]][p := xs[p - 1]]
  {
  }

  lemma Assoc<T>(a: seq<T>, b: seq<T>, c: seq<T>)
    ensures a + (b + c) == a + b + c
  {
  }

  // ---- The other operations on the books --------------------------------------------------------------------

  /** `queue_input`; None is its refusal. */
  function Queued(s: Books, id: string, content: string, name: Lane, images: seq<string>, context: seq<string>, handle: nat): Option<Books> {
    if id == "" || |id| > 128 || id in s.inputs || (Blank(content) && images == []) || |context| > 16 then None
    else
      Some(WithLane(s, name, LaneOf(s, name) + [handle]).(
        order := s.order + [id],
        inputs := s.inputs[id := Entry(Item(id, content, name, false, images), handle)],
        ids := s.ids[handle := id],
        context := s.context[id := context]))
  }

  lemma QueuedKeepsValid(s: Books, id: string, content: string, name: Lane, images: seq<string>, context: seq<string>, handle: nat)
    requires Valid(s) && Unused(s, handle) && Queued(s, id, content, name, images, context, handle).Some?
    ensures Valid(Queued(s, id, content, name, images, context, handle).value)
  {
    hide Valid, Blank;
    var t := Queued(s, id, content, name, images, context, handle).value;
    ValidLanes(s);
    ValidLanes(t);
    hide TablesOk, LaneOk;
    QueuedTables(s, t, id);
    AddedCounts(LaneOf(s, name), handle);
    UnusedInLane(s, handle, name);
    UnusedInLane(s, handle, Opposite(name));
    AbsentCount(LaneOf(s, name), handle);
    AbsentCount(LaneOf(s, Opposite(name)), handle);
    TwoLanes(name, name);
    QueuedLane(LaneOf(s, name), LaneOf(s, name) + [handle], name, s, t, id, handle);
    QueuedLane(LaneOf(s, Opposite(name)), LaneOf(s, Opposite(name)), Opposite(name), s, t, id, handle);
    forall each: Lane ensures LaneOk(LaneOf(t, each), each, t) { TwoLanes(each, name); }
  }

  lemma AddedCounts(lane: seq<nat>, handle: nat)
    ensures forall h | h != handle :: multiset(lane + [handle])[h] == multiset(lane)[h]
    ensures multiset(lane + [handle])[handle] == multiset(lane)[handle] + 1
  {
    assert multiset(lane + [handle]) == multiset(lane) + multiset{handle};
  }

  lemma QueuedTables(s: Books, t: Books, id: string)
    requires TablesOk(s) && id !in s.inputs && t.order == s.order + [id] && id in t.inputs && id in t.context
    requires t.inputs.Keys == s.inputs.Keys + {id} && t.context.Keys == s.context.Keys + {id}
    requires var e := t.inputs[id]; e.handle !in s.ids && t.ids == s.ids[e.handle := id] && t.inputs == s.inputs[id := e] && e.item.id == id
    ensures TablesOk(t)
  {
  }

  lemma QueuedLane(lane: seq<nat>, now: seq<nat>, name: Lane, s: Books, t: Books, id: string, handle: nat)
    requires LaneOk(lane, name, s) && TablesOk(s) && id !in s.inputs && handle !in s.ids
    requires t.ids == s.ids[handle := id] && id in t.inputs && t.inputs == s.inputs[id := t.inputs[id]]
    requires forall h | h != handle :: multiset(now)[h] == multiset(lane)[h]
    requires multiset(now)[handle] == Share(t.inputs[id].item, name)
    ensures LaneOk(now, name, t)
  {
    forall h | h in t.ids && t.ids[h] in t.inputs ensures multiset(now)[h] == Share(t.inputs[t.ids[h]].item, name) {
      if h != handle { assert h in s.ids && t.ids[h] == s.ids[h] != id; }
    }
  }

  /** A plain message joins a lane; it is no identified input. */
  function Pushed(s: Books, name: Lane, handle: nat): Books {
    WithLane(s, name, LaneOf(s, name) + [handle])
  }

  /** A lane whose identified messages are counted as before is in order, as long as the tables are the same. */
  lemma SameCounts(lane: seq<nat>, now: seq<nat>, name: Lane, s: Books, t: Books)
    requires LaneOk(lane, name, s) && t.ids == s.ids && t.inputs == s.inputs
    requires forall h | h in s.ids :: multiset(now)[h] == multiset(lane)[h]
    ensures LaneOk(now, name, t)
  {
  }

  lemma PushedLane(lane: seq<nat>, handle: nat, s: Books)
    requires handle !in s.ids
    ensures forall h | h in s.ids :: multiset(lane + [handle])[h] == multiset(lane)[h]
    ensures Rows(lane + [handle], s) == Rows(lane, s)
  {
    assert multiset(lane + [handle]) == multiset(lane) + multiset{handle};
    RowsSplit(lane, [handle], s);
    OneMessage(handle, s);
  }

  lemma PushedKeepsValid(s: Books, name: Lane, handle: nat)
    requires Valid(s) && handle !in s.ids
    ensures Valid(Pushed(s, name, handle)) && Pending(Pushed(s, name, handle)) == Pending(s)
  {
    var t := Pushed(s, name, handle);
    var lane := LaneOf(s, name);
    assert LaneOf(t, name) == lane + [handle] && LaneOf(t, Opposite(name)) == LaneOf(s, Opposite(name));
    assert t.ids == s.ids && t.inputs == s.inputs && t.order == s.order && t.context == s.context;
    assert TablesOk(t);
    ValidLanes(s);
    ValidLanes(t);
    hide *;
    PushedLane(lane, handle, s);
    SameCounts(lane, lane + [handle], name, s, t);
    SameCounts(LaneOf(s, Opposite(name)), LaneOf(t, Opposite(name)), Opposite(name), s, t);
    forall each: Lane ensures LaneOk(LaneOf(t, each), each, t) { TwoLanes(each, name); }
    SameTablesRows(lane + [handle], s, t);
    SameTablesRows(LaneOf(s, Opposite(name)), s, t);
    PendingAround(s, name);
    PendingAround(t, name);
  }

  /** The inputs whose messages were taken from a lane become selected. */
  function Chosen(s: Books, messages: seq<nat>): map<string, Entry> {
    map id | id in s.inputs ::
      if s.inputs[id].handle in messages then s.inputs[id].(item := s.inputs[id].item.(selected := true)) else s.inputs[id]
  }

  /** `_dequeue_steering` and `_dequeue_follow_ups`: the whole lane or its first message. */
  function Dequeued(s: Books, name: Lane, all: bool): (Books, seq<nat>) {
    var lane := LaneOf(s, name);
    var n := if all then |lane| else Min(1, |lane|);
    (WithLane(s, name, lane[n..]).(inputs := Chosen(s, lane[..n])), lane[..n])
  }

  function Min(a: nat, b: nat): nat { if a < b then a else b }

  /** An entry after some messages were taken: its share of its lane goes when its message does. */
  lemma ChosenShare(s: Books, messages: seq<nat>, h: nat, name: Lane)
    requires TablesOk(s) && h in s.ids
    ensures var t := s.(inputs := Chosen(s, messages));
            s.ids[h] in t.inputs && Share(t.inputs[s.ids[h]].item, name) == if h in messages then 0 else Share(s.inputs[s.ids[h]].item, name)
  {
  }

  lemma ChosenTables(s: Books, messages: seq<nat>)
    requires TablesOk(s)
    ensures TablesOk(s.(inputs := Chosen(s, messages)))
  {
  }

  lemma SplitCounts(lane: seq<nat>, n: nat, h: nat)
    requires n <= |lane| && multiset(lane)[h] <= 1
    ensures multiset(lane[n..])[h] == if h in lane[..n] then 0 else multiset(lane)[h]
  {
    assert lane == lane[..n] + lane[n..];
    assert multiset(lane) == multiset(lane[..n]) + multiset(lane[n..]);
    if h in lane[..n] { assert h in multiset(lane[..n]); } else { assert h !in multiset(lane[..n]); }
  }

  lemma AbsentCount(lane: seq<nat>, h: nat)
    ensures h in lane <==> multiset(lane)[h] > 0
  {
    assert h in lane <==> h in multiset(lane);
  }

  lemma TablesSame(s: Books, t: Books)
    requires t.order == s.order && t.inputs == s.inputs && t.ids == s.ids && t.context == s.context
    ensures TablesOk(s) <==> TablesOk(t)
  {
  }

  lemma DequeuedShape(s: Books, name: Lane, n: nat)
    requires n <= |LaneOf(s, name)|
    ensures var lane := LaneOf(s, name);
            var t := WithLane(s, name, lane[n..]).(inputs := Chosen(s, lane[..n]));
            var u := s.(inputs := Chosen(s, lane[..n]));
            && t.order == u.order && t.inputs == u.inputs && t.ids == u.ids == s.ids && t.context == u.context
            && LaneOf(t, name) == lane[n..] && LaneOf(t, Opposite(name)) == LaneOf(s, Opposite(name))
  {
  }

  /** The counts of one lane make it a lane in order. */
  lemma LaneFrom(now: seq<nat>, name: Lane, t: Books)
    requires forall h | h in t.ids && t.ids[h] in t.inputs :: multiset(now)[h] == Share(t.inputs[t.ids[h]].item, name)
    ensures LaneOk(now, name, t)
  {
  }

  lemma DequeuedKeepsValid(s: Books, name: Lane, all: bool)
    requires Valid(s)
    ensures Valid(Dequeued(s, name, all).0)
  {
    var lane := LaneOf(s, name);
    var n := if all then |lane| else Min(1, |lane|);
    DequeuedPart(s, name, n);
  }

  lemma DequeuedPart(s: Books, name: Lane, n: nat)
    requires Valid(s) && n <= |LaneOf(s, name)|
    ensures Valid(WithLane(s, name, LaneOf(s, name)[n..]).(inputs := Chosen(s, LaneOf(s, name)[..n])))
  {
    hide *;
    var lane := LaneOf(s, name);
    var others := LaneOf(s, Opposite(name));
    var u := s.(inputs := Chosen(s, lane[..n]));
    var t := WithLane(s, name, lane[n..]).(inputs := Chosen(s, lane[..n]));
    DequeuedShape(s, name, n);
    ValidLanes(s);
    ValidLanes(t);
    ChosenTables(s, lane[..n]);
    TablesSame(u, t);
    forall h | h in t.ids && t.ids[h] in t.inputs
      ensures multiset(lane[n..])[h] == Share(t.inputs[t.ids[h]].item, name)
      ensures multiset(others)[h] == Share(t.inputs[t.ids[h]].item, Opposite(name))
    {
      DequeuedCounts(s, name, n, h);
    }
    LaneFrom(lane[n..], name, t);
    LaneFrom(others, Opposite(name), t);
    forall each: Lane ensures LaneOk(LaneOf(t, each), each, t) { TwoLanes(each, name); }
  }

  lemma DequeuedCounts(s: Books, name: Lane, n: nat, h: nat)
    requires Valid(s) && h in s.ids && n <= |LaneOf(s, name)|
    ensures var lane, others := LaneOf(s, name), LaneOf(s, Opposite(name));
            var u := s.(inputs := Chosen(s, lane[..n]));
            && s.ids[h] in u.inputs
            && multiset(lane[n..])[h] == Share(u.inputs[s.ids[h]].item, name)
            && multiset(others)[h] == Share(u.inputs[s.ids[h]].item, Opposite(name))
  {
    var lane: seq<nat>, others: seq<nat> := LaneOf(s, name), LaneOf(s, Opposite(name));
    var item := s.inputs[s.ids[h]].item;
    ValidLanes(s);
    assert multiset(lane)[h] == Share(item, name) && multiset(others)[h] == Share(item, Opposite(name));
    ChosenShare(s, lane[..n], h, name);
    ChosenShare(s, lane[..n], h, Opposite(name));
    TwoLanes(name, name);
    hide Valid, TablesOk, LaneOk, Chosen;
    SplitCounts(lane, n, h);
    AbsentCount(lane, h);
    PrefixMember(lane, n, h);
  }

  lemma PrefixMember(lane: seq<nat>, n: nat, h: nat)
    requires n <= |lane|
    ensures h in lane[..n] ==> h in lane
  {
  }

  /** These inputs are taken off the books; their messages, if they are queued, stay as plain ones. */
  function Off(s: Books, keys: set<string>): Books {
    s.(order := Without(s.order, keys), inputs := s.inputs - keys, context := s.context - keys,
       ids := map h | h in s.ids && s.ids[h] !in keys :: s.ids[h])
  }

  lemma OffKeepsValid(s: Books, keys: set<string>)
    requires Valid(s)
    ensures Valid(Off(s, keys))
  {
    var t := Off(s, keys);
    assert Removed(s, t, keys);
    hide Removed, LaneOk, TablesOk;
    RemovedTables(s, t, keys);
    RemovedLane(s.steering, s.steering, Steer, s, t, keys);
    RemovedLane(s.followUp, s.followUp, FollowUp, s, t, keys);
  }

  function Dropped(rows: seq<Item>, keys: set<string>): seq<Item> {
    if rows == [] then [] else
      var rest := Dropped(rows[..|rows| - 1], keys);
      if rows[|rows| - 1].id in keys then rest else rest + [rows[|rows| - 1]]
  }

  lemma {:induction false} DroppedSplit(a: seq<Item>, b: seq<Item>, keys: set<string>)
    ensures Dropped(a + b, keys) == Dropped(a, keys) + Dropped(b, keys)
  {
    if b == [] {
      assert a + b == a;
    } else {
      var n := |b| - 1;
      assert (a + b)[..|a| + n] == a + b[..n];
      DroppedSplit(a, b[..n], keys);
    }
  }

  lemma {:induction false} OffRows(s: Books, keys: set<string>, lane: seq<nat>)
    requires TablesOk(s)
    ensures Rows(lane, Off(s, keys)) == Dropped(Rows(lane, s), keys)
  {
    if lane != [] {
      var n := |lane| - 1;
      OffRows(s, keys, lane[..n]);
      DroppedSplit(Rows(lane[..n], s), Row(lane[n], s), keys);
      OffRow(s, keys, lane[n]);
    }
  }

  lemma OffRow(s: Books, keys: set<string>, h: nat)
    requires TablesOk(s)
    ensures Row(h, Off(s, keys)) == Dropped(Row(h, s), keys)
  {
    if h in s.ids { assert [s.inputs[s.ids[h]].item][..0] == []; }
  }

  lemma {:induction false} OffSelected(order: seq<string>, inputs: map<string, Entry>, keys: set<string>)
    requires forall id | id in inputs :: inputs[id].item.id == id
    ensures SelectedRows(Without(order, keys), inputs - keys) == Dropped(SelectedRows(order, inputs), keys)
  {
    if order != [] {
      var n := |order| - 1;
      OffSelected(order[..n], inputs, keys);
      var rest := Without(order[..n], keys);
      assert (rest + [order[n]])[..|rest|] == rest;
      if order[n] in inputs && inputs[order[n]].item.selected {
        var row := inputs[order[n]].item;
        DroppedSplit(SelectedRows(order[..n], inputs), [row], keys);
        assert [row][..0] == [];
      }
    }
  }

  /** Taking inputs off the books takes exactly their rows out. */
  lemma OffTakesRows(s: Books, keys: set<string>)
    requires Valid(s)
    ensures Pending(Off(s, keys)) == Dropped(Pending(s), keys)
  {
    var a, b, c := Rows(s.steering, s), Rows(s.followUp, s), SelectedRows(s.order, s.inputs);
    OffRows(s, keys, s.steering);
    OffRows(s, keys, s.followUp);
    OffSelected(s.order, s.inputs, keys);
    DroppedSplit(a + b, c, keys);
    DroppedSplit(a, b, keys);
  }

  /** Messages that stand for no input can leave a lane unnoticed. */
  lemma {:induction false} PlainLeave(lane: seq<nat>, gone: set<nat>, s: Books)
    requires forall h | h in gone :: h !in s.ids
    ensures Rows(Without<nat>(lane, gone), s) == Rows(lane, s)
  {
    if lane != [] {
      var n := |lane| - 1;
      PlainLeave(lane[..n], gone, s);
      var rest := Without<nat>(lane[..n], gone);
      assert (rest + [lane[n]])[..|rest|] == rest;
    }
  }

  lemma {:induction false} CountsWithout(lane: seq<nat>, gone: set<nat>, h: nat)
    requires h !in gone
    ensures multiset(Without<nat>(lane, gone))[h] == multiset(lane)[h]
  {
    if lane != [] {
      var n := |lane| - 1;
      CountsWithout(lane[..n], gone, h);
      assert lane == lane[..n] + [lane[n]];
    }
  }

  /** Lanes may lose messages that stand for no input. */
  lemma LanesLose(s: Books, gone: set<nat>)
    requires Valid(s) && forall h | h in gone :: h !in s.ids
    ensures var t := s.(steering := Without<nat>(s.steering, gone), followUp := Without<nat>(s.followUp, gone)); Valid(t) && Pending(t) == Pending(s)
  {
    hide *;
    var t := s.(steering := Without<nat>(s.steering, gone), followUp := Without<nat>(s.followUp, gone));
    TablesSame(s, t);
    ValidParts(s);
    ValidParts(t);
    forall h | h in s.ids
      ensures multiset(t.steering)[h] == multiset(s.steering)[h] && multiset(t.followUp)[h] == multiset(s.followUp)[h]
    {
      assert t.steering == Without<nat>(s.steering, gone) && t.followUp == Without<nat>(s.followUp, gone);
      CountsWithout(s.steering, gone, h);
      CountsWithout(s.followUp, gone, h);
    }
    SameCounts(s.steering, t.steering, Steer, s, t);
    SameCounts(s.followUp, t.followUp, FollowUp, s, t);
    PlainLeave(s.steering, gone, s);
    PlainLeave(s.followUp, gone, s);
    SameTablesRows(t.steering, s, t);
    SameTablesRows(t.followUp, s, t);
  }

  lemma ValidParts(s: Books)
    ensures Valid(s) <==> TablesOk(s) && LaneOk(s.steering, Steer, s) && LaneOk(s.followUp, FollowUp, s)
    ensures Pending(s) == Rows(s.steering, s) + Rows(s.followUp, s) + SelectedRows(s.order, s.inputs)
  {
  }

  /** The ids of these rows. */
  function RowIds(rows: seq<Item>): set<string> {
    set row | row in rows :: row.id
  }

  function WithPrefix(rows: seq<Item>, prefix: string): seq<Item> {
    if rows == [] then [] else
      var rest := WithPrefix(rows[..|rows| - 1], prefix);
      if prefix <= rows[|rows| - 1].id then rest + [rows[|rows| - 1]] else rest
  }

  /** `drain_inputs`: the inputs with the prefix leave the books and the lanes. */
  function Drained(s: Books, prefix: string): Books {
    var keys := RowIds(WithPrefix(Pending(s), prefix));
    var gone := set h | h in s.ids && s.ids[h] in keys;
    Off(s, keys).(steering := Without<nat>(s.steering, gone), followUp := Without<nat>(s.followUp, gone))
  }

  /** `clear_steering_queue` and `clear_follow_up_queue`: also the selected inputs of the lane are forgotten. */
  function Cleared(s: Books, name: Lane): Books {
    WithLane(Off(s, set id | id in s.inputs && s.inputs[id].item.lane == name), name, [])
  }

  lemma DrainedKeepsValid(s: Books, prefix: string)
    requires Valid(s)
    ensures Valid(Drained(s, prefix))
    ensures Pending(Drained(s, prefix)) == Dropped(Pending(s), RowIds(WithPrefix(Pending(s), prefix)))
  {
    var keys := RowIds(WithPrefix(Pending(s), prefix));
    var gone := set h | h in s.ids && s.ids[h] in keys;
    hide Valid, Pending, WithPrefix, RowIds;
    OffKeepsValid(s, keys);
    OffTakesRows(s, keys);
    LanesLose(Off(s, keys), gone);
  }

  lemma ClearedKeepsValid(s: Books, name: Lane)
    requires Valid(s)
    ensures Valid(Cleared(s, name))
    ensures forall id :: id in Cleared(s, name).inputs <==> id in s.inputs && s.inputs[id].item.lane != name
  {
    var keys := set id | id in s.inputs && s.inputs[id].item.lane == name;
    OffKeepsValid(s, keys);
    var u, t := Off(s, keys), Cleared(s, name);
    forall h | h in t.ids && t.ids[h] in t.inputs ensures Share(t.inputs[t.ids[h]].item, name) == 0 {}
  }

  /** One receipt of `_prepare_inputs`: an input's message is replaced by what its transform returned. */
  function Rebound(s: Books, original: nat, key: string, transformed: nat): Books {
    if original == transformed then s else
      var t := s.(ids := (s.ids - {original})[transformed := key]);
      if key in s.inputs then t.(inputs := s.inputs[key := Entry(s.inputs[key].item, transformed)]) else t
  }

  /**
    * Rebinding keeps the books in order exactly when the input is still on them and the transform returned either
    * the message itself or one that is nowhere on the books yet. An object that two transforms share is not.
    */
  lemma ReboundIsValid(s: Books, original: nat, key: string, transformed: nat)
    requires Valid(s)
    requires if key in s.inputs then s.inputs[key].handle == original && s.inputs[key].item.selected else original !in s.ids
    ensures Valid(Rebound(s, original, key, transformed)) <==> original == transformed || (key in s.inputs && Unused(s, transformed))
  {
    var t := Rebound(s, original, key, transformed);
    if original != transformed {
      if key !in s.inputs {
        assert t.ids[transformed] == key;
      } else if Unused(s, transformed) {
        ReboundFresh(s, original, key, transformed);
      } else if transformed in s.ids {
        assert t.inputs[s.ids[transformed]].handle == transformed && t.ids[transformed] == key;
      } else if transformed in s.steering {
        assert transformed in multiset(s.steering) && t.ids[transformed] == key;
      } else {
        assert transformed in multiset(s.followUp) && t.ids[transformed] == key;
      }
    }
  }

  lemma ReboundFresh(s: Books, original: nat, key: string, transformed: nat)
    requires Valid(s) && key in s.inputs && s.inputs[key].handle == original && s.inputs[key].item.selected
    requires original != transformed && Unused(s, transformed)
    ensures Valid(Rebound(s, original, key, transformed))
  {
    var t := Rebound(s, original, key, transformed);
    ReboundTables(s, original, key, transformed);
    ReboundLane(s.steering, Steer, s, original, key, transformed);
    ReboundLane(s.followUp, FollowUp, s, original, key, transformed);
    hide TablesOk, LaneOk;
  }

  lemma ReboundTables(s: Books, original: nat, key: string, transformed: nat)
    requires TablesOk(s) && key in s.inputs && s.inputs[key].handle == original && transformed !in s.ids && original != transformed
    ensures TablesOk(Rebound(s, original, key, transformed))
  {
    hide NoRepeat;
  }

  lemma ReboundLane(lane: seq<nat>, name: Lane, s: Books, original: nat, key: string, transformed: nat)
    requires TablesOk(s) && LaneOk(lane, name, s) && key in s.inputs && s.inputs[key].handle == original
    requires s.inputs[key].item.selected && original != transformed && transformed !in s.ids && transformed !in lane
    ensures LaneOk(lane, name, Rebound(s, original, key, transformed))
  {
    hide NoRepeat;
    var t := Rebound(s, original, key, transformed);
    AbsentCount(lane, transformed);
    forall h | h in t.ids && t.ids[h] in t.inputs ensures multiset(lane)[h] == Share(t.inputs[t.ids[h]].item, name) {
      if h != transformed { assert h in s.ids && t.ids[h] == s.ids[h] != key; }
    }
  }
}
