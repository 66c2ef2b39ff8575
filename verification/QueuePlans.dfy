/** The write-ahead plan of a change to a child's queued inputs, against what the change really does (child_queue.py). */
module QueuePlans {
  import opened TextCodecs
  import opened InputQueues

  datatype Command = RemoveInput | ReturnInput | EditInput(content: string) | MoveInput(direction: int)

  /** What a request has to be to get this far. */
  predicate Legal(cmd: Command) {
    match cmd
    case EditInput(content) => !Blank(content) && |Utf8(content)| <= 16000
    case MoveInput(direction) => direction == 1 || direction == -1
    case _ => true
  }

  function Find(rows: seq<Item>, id: string): (k: nat)
    ensures k <= |rows| && (k < |rows| ==> rows[k].id == id) && forall j | 0 <= j < k :: rows[j].id != id
  {
    if rows == [] then 0 else if rows[0].id == id then 0 else 1 + Find(rows[1..], id)
  }

  /** The rows as they are written ahead: no longer selected. */
  function Unselected(rows: seq<Item>): seq<Item> {
    seq(|rows|, k requires 0 <= k < |rows| => rows[k].(selected := false))
  }

  /** `planned_change`: the rows it predicts from the pending ones, None its refusal. */
  function Plan(rows: seq<Item>, id: string, cmd: Command): Option<seq<Item>> {
    var index := Find(rows, id);
    if index == |rows| || rows[index].selected then None else
      var row := rows[index];
      match cmd
      case ReturnInput => if row.images != [] then None else Some(Unselected(rows[..index] + rows[index + 1..]))
      case RemoveInput => Some(Unselected(rows[..index] + rows[index + 1..]))
      case EditInput(content) => Some(Unselected(rows[index := row.(content := content)]))
      case MoveInput(direction) =>
        var target := index + direction;
        if !(0 <= target < |rows|) || rows[target].lane != row.lane || rows[target].selected then None
        else Some(Unselected(rows[index := rows[target]][target := row]))
  }

  function ActionOf(cmd: Command): Action {
    match cmd
    case EditInput(content) => Edit(content)
    case MoveInput(direction) => Move(direction)
    case _ => Remove
  }

  /** `change`: what really happens to the books, None its refusal. */
  function Applied(s: Books, id: string, cmd: Command, handle: nat): Option<Books> {
    var rows := Pending(s);
    var index := Find(rows, id);
    if index == |rows| || rows[index].selected || (cmd.ReturnInput? && rows[index].images != []) then None
    else Changed(s, id, ActionOf(cmd), handle)
  }

  /** The move would swap with a message that is no identified input. */
  predicate PlainNeighbour(s: Books, id: string, cmd: Command) {
    && cmd.MoveInput? && id in s.inputs && !s.inputs[id].item.selected
    && var lane := LaneOf(s, s.inputs[id].item.lane);
       var t := Position(lane, s.inputs[id].handle) + cmd.direction;
       0 <= t < |lane| && lane[t] !in s.ids
  }

  /** What the plan was right about. */
  predicate Predicts(s: Books, id: string, cmd: Command, handle: nat) {
    Plan(Pending(s), id, cmd)
      == (match Applied(s, id, cmd, handle) case None => None case Some(t) => Some(Unselected(Pending(t))))
  }

  lemma ItemAt(a: seq<Item>, row: Item, b: seq<Item>, k: nat)
    requires k < |a + [row] + b|
    ensures (a + [row] + b)[k] == if k < |a| then a[k] else if k == |a| then row else b[k - |a| - 1]
  {
  }

  lemma FindMiddle(a: seq<Item>, row: Item, b: seq<Item>)
    requires DistinctIds(a + [row] + b)
    ensures Find(a + [row] + b, row.id) == |a|
  {
    hide Find;
    var rows := a + [row] + b;
    ItemAt(a, row, b, |a|);
    forall j | 0 <= j < |a| ensures rows[j].id != row.id { assert rows[j].id != rows[|a|].id; }
  }

  lemma PlanAtMiddle(a: seq<Item>, row: Item, b: seq<Item>, cmd: Command)
    requires DistinctIds(a + [row] + b) && !row.selected
    ensures var plan := Plan(a + [row] + b, row.id, cmd);
      match cmd
      case RemoveInput => plan == Some(Unselected(a + b))
      case ReturnInput => plan == if row.images != [] then None else Some(Unselected(a + b))
      case EditInput(content) => plan == Some(Unselected(a + [row.(content := content)] + b))
      case MoveInput(_) => true
  {
    hide Find, Unselected, DistinctIds;
    FindMiddle(a, row, b);
    var rows := a + [row] + b;
    ItemAt(a, row, b, |a|);
    match cmd
    case EditInput(content) => assert rows[|a| := row.(content := content)] == a + [row.(content := content)] + b;
    case MoveInput(_) =>
    case _ => assert rows[..|a|] + rows[|a| + 1..] == a + b;
  }

  predicate CanSwap(row: Item, other: Item) {
    other.lane == row.lane && !other.selected
  }

  lemma PlanRight(a: seq<Item>, row: Item, b: seq<Item>)
    requires DistinctIds(a + [row] + b) && !row.selected
    ensures Plan(a + [row] + b, row.id, MoveInput(1))
         == if b != [] && CanSwap(row, b[0]) then Some(Unselected(a + [b[0], row] + b[1..])) else None
  {
    hide Find, Unselected, DistinctIds;
    FindMiddle(a, row, b);
    var rows := a + [row] + b;
    ItemAt(a, row, b, |a|);
    if b != [] {
      ItemAt(a, row, b, |a| + 1);
      assert rows[|a| := b[0]][|a| + 1 := row] == a + [b[0], row] + b[1..];
    }
  }

  lemma PlanLeft(a: seq<Item>, row: Item, b: seq<Item>)
    requires DistinctIds(a + [row] + b) && !row.selected
    ensures Plan(a + [row] + b, row.id, MoveInput(-1))
         == if a != [] && CanSwap(row, a[|a| - 1]) then Some(Unselected(a[..|a| - 1] + [row, a[|a| - 1]] + b)) else None
  {
    hide Find, Unselected, DistinctIds;
    FindMiddle(a, row, b);
    var rows := a + [row] + b;
    ItemAt(a, row, b, |a|);
    if a != [] {
      var n := |a| - 1;
      ItemAt(a, row, b, n);
      assert rows[|a| := a[n]][n := row] == a[..n] + [row, a[n]] + b;
    }
  }

  /** A selected or unknown input is refused by both. */
  lemma BothRefuse(s: Books, id: string, cmd: Command, handle: nat)
    requires Valid(s) && (id !in s.inputs || s.inputs[id].item.selected)
    ensures Plan(Pending(s), id, cmd).None? && Applied(s, id, cmd, handle).None?
  {
    EachPendingOnce(s);
    hide Valid, Pending, DistinctIds;
    var rows := Pending(s);
    var k := Find(rows, id);
    if k < |rows| { assert rows[k] in rows; }
  }

  /** For an unselected input the real change is what change_input does to it. */
  lemma AppliedChanges(s: Books, id: string, cmd: Command, handle: nat)
    requires Valid(s) && id in s.inputs && !s.inputs[id].item.selected
    ensures Applied(s, id, cmd, handle)
         == if cmd.ReturnInput? && s.inputs[id].item.images != [] then None else Changed(s, id, ActionOf(cmd), handle)
    ensures s.inputs[id].handle in LaneOf(s, s.inputs[id].item.lane)
    ensures Pending(s) == RowsBefore(s, id) + [s.inputs[id].item] + RowsAfter(s, id)
    ensures DistinctIds(Pending(s)) && s.inputs[id].item.id == id
  {
    PendingSplits(s, id);
    EachPendingOnce(s);
    ItemsId(s, id);
    hide *;
    FindMiddle(RowsBefore(s, id), s.inputs[id].item, RowsAfter(s, id));
    ItemAt(RowsBefore(s, id), s.inputs[id].item, RowsAfter(s, id), |RowsBefore(s, id)|);
    AppliedAt(s, id, cmd, handle, |RowsBefore(s, id)|);
  }

  lemma ItemsId(s: Books, id: string)
    requires Valid(s) && id in s.inputs
    ensures s.inputs[id].item.id == id
  {
  }

  lemma AppliedAt(s: Books, id: string, cmd: Command, handle: nat, k: nat)
    requires k < |Pending(s)| && Find(Pending(s), id) == k && !Pending(s)[k].selected
    ensures Applied(s, id, cmd, handle)
         == if cmd.ReturnInput? && Pending(s)[k].images != [] then None else Changed(s, id, ActionOf(cmd), handle)
  {
  }

  lemma ChangeSucceeds(s: Books, id: string, action: Action, handle: nat)
    requires Valid(s) && id in s.inputs && !s.inputs[id].item.selected
    ensures action.Remove? ==> Changed(s, id, action, handle).Some?
    ensures action.Edit? && !Blank(action.content) ==> Changed(s, id, action, handle).Some?
    ensures action.Move? && (action.direction == 1 || action.direction == -1) ==>
              var lane := LaneOf(s, s.inputs[id].item.lane);
              (Changed(s, id, action, handle).Some? <==> 0 <= Position(lane, s.inputs[id].handle) + action.direction < |lane|)
  {
    LaneSplits(s, id);
  }

  lemma PredictsRest(s: Books, id: string, cmd: Command, handle: nat)
    requires Valid(s) && Unused(s, handle) && Legal(cmd) && !cmd.MoveInput?
    requires id in s.inputs && !s.inputs[id].item.selected
    ensures Predicts(s, id, cmd, handle)
  {
    AppliedChanges(s, id, cmd, handle);
    ChangeSucceeds(s, id, ActionOf(cmd), handle);
    hide Valid, Unused, Changed, Pending, Find, Unselected, RowsBefore, RowsAfter, DistinctIds, Plan, Applied, Blank, Utf8, LaneOf;
    PlanAtMiddle(RowsBefore(s, id), s.inputs[id].item, RowsAfter(s, id), cmd);
    if cmd.EditInput? {
      EditChangesContent(s, id, cmd.content, handle);
    } else {
      RemoveTakesRow(s, id, handle);
    }
  }

  /** At the end of a lane the next row, if there is one, is of the other lane or selected; so it is at the start. */
  lemma NoNeighbour(s: Books, id: string)
    requires Valid(s) && id in s.inputs && !s.inputs[id].item.selected
    ensures s.inputs[id].handle in LaneOf(s, s.inputs[id].item.lane)
    ensures var lane := LaneOf(s, s.inputs[id].item.lane); var p := Position(lane, s.inputs[id].handle);
            && (p + 1 == |lane| && RowsAfter(s, id) != [] ==> !CanSwap(s.inputs[id].item, RowsAfter(s, id)[0]))
            && (p == 0 && RowsBefore(s, id) != [] ==> !CanSwap(s.inputs[id].item, RowsBefore(s, id)[|RowsBefore(s, id)| - 1]))
  {
    hide *;
    LaneSplits(s, id);
    SidesOf(s, id);
    var item := s.inputs[id].item;
    var lane := LaneOf(s, item.lane);
    var p := Position(lane, s.inputs[id].handle);
    OtherRows(s, Opposite(item.lane));
    TwoLanes(item.lane, item.lane);
    OneMessage(0, s);
    var others := Rows(LaneOf(s, Opposite(item.lane)), s);
    var selected := SelectedRows(s.order, s.inputs);
    if p + 1 == |lane| {
      NothingLeft(lane, p + 1);
      NotSwappable(item, if item.lane == Steer then others else [], selected);
      NothingBefore(if item.lane == Steer then others else [], item);
    }
    if p == 0 {
      NothingLeft(lane, 0);
      NotSwappable(item, if item.lane == FollowUp then others else [], []);
      NothingAfter(if item.lane == FollowUp then others else [], item);
    }
  }

  lemma NothingLeft<T>(xs: seq<T>, p: nat)
    requires p <= |xs|
    ensures p == |xs| ==> xs[p..] == []
    ensures xs[..0] == []
  {
  }

  /** Rows of the other lane, or selected ones, cannot be swapped with. */
  lemma NotSwappable(item: Item, others: seq<Item>, selected: seq<Item>)
    requires forall row | row in others :: row.lane == Opposite(item.lane) && !row.selected
    requires forall row | row in selected :: row.selected
    ensures forall row | row in others + selected :: !CanSwap(item, row)
  {
  }

  lemma NothingBefore<T>(rest: seq<T>, x: T)
    ensures [] + rest == rest && [] + [x] == [x]
  {
  }

  lemma NothingAfter<T>(rest: seq<T>, x: T)
    ensures rest + [] == rest && [x] + [] == [x]
  {
  }

  lemma OtherRows(s: Books, name: Lane)
    requires Valid(s)
    ensures forall row | row in Rows(LaneOf(s, name), s) :: row.lane == name && !row.selected
    ensures forall row | row in SelectedRows(s.order, s.inputs) :: row.selected
  {
    var lane := LaneOf(s, name);
    assert lane[..|lane|] == lane;
    RowsDistinct(lane, name, |lane|, s);
    forall row | row in SelectedRows(s.order, s.inputs) ensures row.selected { SelectedOf(s.order, s.inputs, row); }
  }

  /** An identified neighbour is an unselected input of the same lane. */
  lemma IdentifiedNeighbour(s: Books, id: string, direction: int)
    requires Valid(s) && id in s.inputs && !s.inputs[id].item.selected && (direction == 1 || direction == -1)
    ensures var lane := LaneOf(s, s.inputs[id].item.lane); var t := Position(lane, s.inputs[id].handle) + direction;
            0 <= t < |lane| ==>
              if lane[t] in s.ids then |NeighbourRow(s, id, direction)| == 1 && CanSwap(s.inputs[id].item, NeighbourRow(s, id, direction)[0])
              else NeighbourRow(s, id, direction) == []
  {
    var name := s.inputs[id].item.lane;
    var lane := LaneOf(s, name);
    var t := Position(lane, s.inputs[id].handle) + direction;
    if 0 <= t < |lane| && lane[t] in s.ids {
      OtherRows(s, name);
      RowsOf(lane, s, s.inputs[s.ids[lane[t]]].item);
      assert lane[t] in lane && s.inputs[s.ids[lane[t]]].item in Row(lane[t], s);
    }
  }

  lemma UnselectedDiffers(a: seq<Item>, b: seq<Item>, k: nat)
    requires |a| == |b| && k < |a| && a[k].id != b[k].id
    ensures Unselected(a) != Unselected(b)
  {
    assert Unselected(a)[k].id == a[k].id && Unselected(b)[k].id == b[k].id;
  }

  /** Swapping two different rows does not leave the rows as they were. */
  lemma SwapDiffers(a: seq<Item>, row: Item, next: Item, rest: seq<Item>)
    requires DistinctIds(a + [row, next] + rest)
    ensures Unselected(a + [next, row] + rest) != Unselected(a + [row, next] + rest)
  {
    var x, y := a + [next, row] + rest, a + [row, next] + rest;
    assert y[|a|] == row && y[|a| + 1] == next && x[|a|] == next;
    UnselectedDiffers(x, y, |a|);
  }

  /** The rows after a move to the right, in terms of the rows after the input. */
  lemma ShapeRight(a: seq<Item>, item: Item, n: seq<Item>, far: seq<Item>)
    requires |n| <= 1
    ensures |n| == 1 ==> (n + far) != [] && (n + far)[0] == n[0] && a + (n + [item]) + far == a + [n[0], item] + (n + far)[1..]
    ensures n == [] ==> a + (n + [item]) + far == a + [item] + (n + far)
    ensures n == [] && far != [] ==> a + [item] + (n + far) == a + [item, far[0]] + far[1..] && n + far == far
  {
    if |n| == 1 {
      assert n + [item] == [n[0], item] && (n + far)[1..] == far;
    } else {
      assert n + [item] == [item] && n + far == far;
    }
  }

  lemma ShapeLeft(far: seq<Item>, n: seq<Item>, item: Item, b: seq<Item>)
    requires |n| <= 1
    ensures |n| == 1 ==> var a := far + n; a != [] && a[|a| - 1] == n[0] && far + ([item] + n) + b == a[..|a| - 1] + [item, n[0]] + b
    ensures n == [] ==> far + ([item] + n) + b == (far + n) + [item] + b
    ensures n == [] && far != [] ==> (far + n) + [item] + b == far[..|far| - 1] + [far[|far| - 1], item] + b && far + n == far
  {
    if |n| == 1 {
      assert [item] + n == [item, n[0]] && (far + n)[..|far + n| - 1] == far;
    } else {
      assert [item] + n == [item] && far + n == far;
      if far != [] { assert far == far[..|far| - 1] + [far[|far| - 1]]; }
    }
  }

  /** What a real move to the right leaves pending. */
  lemma RightRows(s: Books, id: string, handle: nat)
    requires Valid(s) && id in s.inputs && !s.inputs[id].item.selected && Changed(s, id, Move(1), handle).Some?
    ensures s.inputs[id].handle in LaneOf(s, s.inputs[id].item.lane)
    ensures var item := s.inputs[id].item; var a, b := RowsBefore(s, id), RowsAfter(s, id);
            var now := Pending(Changed(s, id, Move(1), handle).value);
            if PlainNeighbour(s, id, MoveInput(1)) then
              now == a + [item] + b && (b != [] ==> now == a + [item, b[0]] + b[1..])
            else b != [] && CanSwap(item, b[0]) && now == a + [b[0], item] + b[1..]
  {
    hide Valid, Changed, Pending, RowsBefore, RowsAfter, LaneOf, Position, NeighbourRow, FarAfter, CanSwap;
    IdentifiedNeighbour(s, id, 1);
    ChangeSucceeds(s, id, Move(1), handle);
    MoveRight(s, id, handle);
    ShapeRight(RowsBefore(s, id), s.inputs[id].item, NeighbourRow(s, id, 1), FarAfter(s, id));
  }

  lemma LeftRows(s: Books, id: string, handle: nat)
    requires Valid(s) && id in s.inputs && !s.inputs[id].item.selected && Changed(s, id, Move(-1), handle).Some?
    ensures s.inputs[id].handle in LaneOf(s, s.inputs[id].item.lane)
    ensures var item := s.inputs[id].item; var a, b := RowsBefore(s, id), RowsAfter(s, id);
            var now := Pending(Changed(s, id, Move(-1), handle).value);
            if PlainNeighbour(s, id, MoveInput(-1)) then
              now == a + [item] + b && (a != [] ==> now == a[..|a| - 1] + [a[|a| - 1], item] + b)
            else a != [] && CanSwap(item, a[|a| - 1]) && now == a[..|a| - 1] + [item, a[|a| - 1]] + b
  {
    hide Valid, Changed, Pending, RowsBefore, RowsAfter, LaneOf, Position, NeighbourRow, FarBefore, CanSwap;
    IdentifiedNeighbour(s, id, -1);
    ChangeSucceeds(s, id, Move(-1), handle);
    MoveLeft(s, id, handle);
    ShapeLeft(FarBefore(s, id), NeighbourRow(s, id, -1), s.inputs[id].item, RowsAfter(s, id));
  }

  /** A move succeeds exactly when there is a neighbour; a plain one is such a neighbour. */
  lemma MoveHasNeighbour(s: Books, id: string, direction: int, handle: nat)
    requires Valid(s) && id in s.inputs && !s.inputs[id].item.selected && (direction == 1 || direction == -1)
    ensures s.inputs[id].handle in LaneOf(s, s.inputs[id].item.lane)
    ensures PlainNeighbour(s, id, MoveInput(direction)) ==> Changed(s, id, Move(direction), handle).Some?
    ensures Changed(s, id, Move(1), handle).None? && RowsAfter(s, id) != [] ==> !CanSwap(s.inputs[id].item, RowsAfter(s, id)[0])
    ensures Changed(s, id, Move(-1), handle).None? && RowsBefore(s, id) != [] ==>
              !CanSwap(s.inputs[id].item, RowsBefore(s, id)[|RowsBefore(s, id)| - 1])
  {
    ChangeSucceeds(s, id, Move(direction), handle);
    ChangeSucceeds(s, id, Move(1), handle);
    ChangeSucceeds(s, id, Move(-1), handle);
    NoNeighbour(s, id);
    hide Valid, Changed, RowsBefore, RowsAfter, LaneOf, CanSwap;
  }

  lemma MeansPredicts(s: Books, id: string, direction: int, handle: nat)
    requires Valid(s) && id in s.inputs && !s.inputs[id].item.selected
    ensures Predicts(s, id, MoveInput(direction), handle) <==>
            Plan(Pending(s), id, MoveInput(direction))
              == (if Changed(s, id, Move(direction), handle).None? then None
                  else Some(Unselected(Pending(Changed(s, id, Move(direction), handle).value))))
  {
    hide Valid, Changed, Pending, RowsBefore, RowsAfter, LaneOf, DistinctIds, Plan, Applied, Unselected;
    AppliedChanges(s, id, MoveInput(direction), handle);
  }

  lemma PredictsRight(s: Books, id: string, handle: nat)
    requires Valid(s) && id in s.inputs && !s.inputs[id].item.selected
    ensures Predicts(s, id, MoveInput(1), handle) <==> !PlainNeighbour(s, id, MoveInput(1))
  {
    hide *;
    AppliedChanges(s, id, MoveInput(1), handle);
    MeansPredicts(s, id, 1, handle);
    MoveHasNeighbour(s, id, 1, handle);
    var item := s.inputs[id].item;
    var a, b := RowsBefore(s, id), RowsAfter(s, id);
    PlanRight(a, item, b);
    if Changed(s, id, Move(1), handle).Some? {
      RightRows(s, id, handle);
      if PlainNeighbour(s, id, MoveInput(1)) && b != [] { SwapDiffers(a, item, b[0], b[1..]); }
    }
  }

  lemma PredictsLeft(s: Books, id: string, handle: nat)
    requires Valid(s) && id in s.inputs && !s.inputs[id].item.selected
    ensures Predicts(s, id, MoveInput(-1), handle) <==> !PlainNeighbour(s, id, MoveInput(-1))
  {
    hide *;
    AppliedChanges(s, id, MoveInput(-1), handle);
    MeansPredicts(s, id, -1, handle);
    MoveHasNeighbour(s, id, -1, handle);
    var item := s.inputs[id].item;
    var a, b := RowsBefore(s, id), RowsAfter(s, id);
    PlanLeft(a, item, b);
    if Changed(s, id, Move(-1), handle).Some? {
      LeftRows(s, id, handle);
      if PlainNeighbour(s, id, MoveInput(-1)) && a != [] { SwapDiffers(a[..|a| - 1], a[|a| - 1], item, b); }
    }
  }

  /**
    * The write-ahead plan succeeds exactly when the real change does, and predicts its rows, for every request but
    * one: a move past a message that is no identified input.
    */
  lemma PlanPredicts(s: Books, id: string, cmd: Command, handle: nat)
    requires Valid(s) && Unused(s, handle) && Legal(cmd)
    ensures Predicts(s, id, cmd, handle) <==> !PlainNeighbour(s, id, cmd)
  {
    hide Valid, Unused, Plan, Applied, Pending, Blank, Utf8;
    if id !in s.inputs || s.inputs[id].item.selected {
      BothRefuse(s, id, cmd, handle);
    } else if !cmd.MoveInput? {
      PredictsRest(s, id, cmd, handle);
    } else if cmd.direction == 1 {
      PredictsRight(s, id, handle);
    } else {
      PredictsLeft(s, id, handle);
    }
  }

  const ONE := Item("a", "one", Steer, false, [])
  const TWO := Item("b", "two", Steer, false, [])

  /** Two inputs with a plain message, 1, between them. */
  const PLAIN_BETWEEN := Books([0, 1, 2], [], ["a", "b"], map["a" := Entry(ONE, 0), "b" := Entry(TWO, 2)], map[0 := "a", 2 := "b"],
                               map["a" := [], "b" := []])

  /** The plan swaps the two inputs; the move passes the plain message, and the inputs stay in their order. */
  lemma PlainMessageExample()
    ensures Valid(PLAIN_BETWEEN) && Unused(PLAIN_BETWEEN, 3) && Legal(MoveInput(1))
    ensures !Predicts(PLAIN_BETWEEN, "a", MoveInput(1), 3)
    ensures Plan(Pending(PLAIN_BETWEEN), "a", MoveInput(1)) == Some([TWO, ONE])
    ensures Applied(PLAIN_BETWEEN, "a", MoveInput(1), 3) == Some(PLAIN_BETWEEN.(steering := [1, 0, 2]))
    ensures Pending(PLAIN_BETWEEN.(steering := [1, 0, 2])) == [ONE, TWO]
  {
    PlainBetweenIsValid();
    PlainBetweenRows();
    hide Valid, Pending;
    PlanPredicts(PLAIN_BETWEEN, "a", MoveInput(1), 3);
    PlainMessagePassed();
    assert "a"[0] != "b"[0];
    assert Unselected([TWO, ONE]) == [TWO, ONE] == [ONE, TWO][0 := TWO][1 := ONE];
  }

  lemma PlainMessagePassed()
    ensures Changed(PLAIN_BETWEEN, "a", Move(1), 3) == Some(PLAIN_BETWEEN.(steering := [1, 0, 2]))
  {
    assert Position([0, 1, 2], 0) == 0;
    assert [0, 1, 2][0 := 1][1 := 0] == [1, 0, 2];
  }

  lemma PlainBetweenIsValid()
    ensures Valid(PLAIN_BETWEEN)
  {
    var s := PLAIN_BETWEEN;
    assert "a"[0] != "b"[0];
    assert TablesOk(s);
    assert multiset(s.steering) == multiset{0, 1, 2} && multiset(s.followUp) == multiset{};
  }

  lemma ThreeRows(x: nat, y: nat, z: nat, s: Books)
    ensures Rows([x, y, z], s) == Row(x, s) + Row(y, s) + Row(z, s)
  {
    hide Row;
    assert [x, y, z][..2] == [x, y] && [x, y][..1] == [x] && [x][..0] == [];
    assert Rows([x], s) == Rows([], s) + Row(x, s) && Rows([x, y], s) == Rows([x], s) + Row(y, s);
  }

  lemma NoneSelected(s: Books)
    requires s == PLAIN_BETWEEN || s == PLAIN_BETWEEN.(steering := [1, 0, 2])
    ensures SelectedRows(s.order, s.inputs) == [] && Row(0, s) == [ONE] && Row(1, s) == [] && Row(2, s) == [TWO]
  {
    assert "a"[0] != "b"[0];
    assert ["a", "b"][..1] == ["a"] && ["a"][..0] == [];
    assert SelectedRows(["a"], s.inputs) == SelectedRows([], s.inputs) == [];
  }

  /** Both before and after the move the rows are those of the two inputs in their order. */
  lemma PlainBetweenRows()
    ensures Pending(PLAIN_BETWEEN) == [ONE, TWO] && Pending(PLAIN_BETWEEN.(steering := [1, 0, 2])) == [ONE, TWO]
  {
    hide Rows, Row, SelectedRows;
    var s, t := PLAIN_BETWEEN, PLAIN_BETWEEN.(steering := [1, 0, 2]);
    NoneSelected(s);
    NoneSelected(t);
    ThreeRows(0, 1, 2, s);
    ThreeRows(1, 0, 2, t);
    NoRows(s);
    NoRows(t);
  }

  lemma NoRows(s: Books)
    ensures Rows([], s) == []
  {
  }
}
