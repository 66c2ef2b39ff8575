/** The Agent's input queues, statement by statement (agent.py). */
module AgentInputs {
  import opened TextCodecs
  import opened InputQueues
  import opened QueuePlans

  /** A message that replaces another: its original, the input's id, and the transformed message. */
  datatype Receipt = Receipt(original: nat, key: string, transformed: nat)

  function ReboundAll(s: Books, receipts: seq<Receipt>): Books {
    if receipts == [] then s else
      var n := |receipts| - 1;
      var r := receipts[n];
      if r.key == "" then ReboundAll(s, receipts[..n])
      else Rebound(ReboundAll(s, receipts[..n]), r.original, r.key, r.transformed)
  }

  /** What `_prepare_inputs` collects: one receipt for each of the selected inputs it was given, with its message. */
  ghost predicate Proper(s: Books, receipts: seq<Receipt>) {
    && (forall k | 0 <= k < |receipts| && receipts[k].key != "" ::
          var r := receipts[k]; r.key in s.inputs && s.inputs[r.key].handle == r.original && s.inputs[r.key].item.selected)
    && (forall j, k | 0 <= j < k < |receipts| && receipts[j].key != "" :: receipts[j].key != receipts[k].key)
  }

  predicate Changes(r: Receipt) {
    r.key != "" && r.original != r.transformed
  }

  /**
    * Each new object is in no lane, no other input's before or after: it may have been the message of an input only
    * if that input got its new object earlier in the batch.
    */
  ghost predicate Separate(s: Books, receipts: seq<Receipt>) {
    forall i | 0 <= i < |receipts| && Changes(receipts[i]) :: SeparateAt(s, receipts, i)
  }

  ghost predicate SeparateAt(s: Books, receipts: seq<Receipt>, i: nat)
    requires i < |receipts|
  {
    var h := receipts[i].transformed;
    && h !in s.steering && h !in s.followUp
    && (h in s.ids ==> exists j :: 0 <= j < i && Changes(receipts[j]) && receipts[j].original == h)
    && (forall j | 0 <= j < i && Changes(receipts[j]) :: receipts[j].transformed != h)
  }

  /** Which message an input has after the first `n` receipts. */
  function HandleAfter(s: Books, receipts: seq<Receipt>, n: nat, id: string): nat
    requires n <= |receipts| && id in s.inputs
  {
    if n == 0 then s.inputs[id].handle
    else if receipts[n - 1].key == id && id != "" then receipts[n - 1].transformed
    else HandleAfter(s, receipts, n - 1, id)
  }

  /** What any proper receipts leave alone, and what they make of the handles. */
  ghost predicate Moved(s: Books, receipts: seq<Receipt>, n: nat, t: Books)
    requires n <= |receipts|
  {
    && t.steering == s.steering && t.followUp == s.followUp && t.order == s.order && t.context == s.context
    && t.inputs.Keys == s.inputs.Keys
    && (forall id | id in s.inputs :: t.inputs[id] == Entry(s.inputs[id].item, HandleAfter(s, receipts, n, id)))
  }

  lemma {:induction false} AllMoved(s: Books, receipts: seq<Receipt>, n: nat)
    requires Proper(s, receipts) && n <= |receipts|
    ensures Moved(s, receipts, n, ReboundAll(s, receipts[..n]))
  {
    if n > 0 {
      AllMoved(s, receipts, n - 1);
      assert receipts[..n][..n - 1] == receipts[..n - 1];
      NotYet(s, receipts, n - 1, n - 1);
    }
  }

  /** Before its receipt an input has its original message. */
  lemma {:induction false} NotYet(s: Books, receipts: seq<Receipt>, n: nat, k: nat)
    requires Proper(s, receipts) && n <= k < |receipts|
    ensures receipts[k].key != "" ==> HandleAfter(s, receipts, n, receipts[k].key) == receipts[k].original
  {
    if n > 0 { NotYet(s, receipts, n - 1, k); }
  }

  /** After its receipt an input has the new object. */
  lemma {:induction false} FromThenOn(s: Books, receipts: seq<Receipt>, k: nat, n: nat)
    requires Proper(s, receipts) && k < n <= |receipts| && receipts[k].key != ""
    ensures HandleAfter(s, receipts, n, receipts[k].key) == receipts[k].transformed
  {
    if n > k + 1 { FromThenOn(s, receipts, k, n - 1); }
  }

  /** An input without a receipt that changes it keeps its message. */
  lemma {:induction false} Untouched(s: Books, receipts: seq<Receipt>, n: nat, id: string)
    requires Proper(s, receipts) && n <= |receipts| && id in s.inputs
    requires forall k | 0 <= k < n && Changes(receipts[k]) :: receipts[k].key != id
    ensures HandleAfter(s, receipts, n, id) == s.inputs[id].handle
  {
    if n > 0 { Untouched(s, receipts, n - 1, id); }
  }

  // ---- Separate objects keep the books in order ------------------------------------------------------------------

  predicate Dropped(receipts: seq<Receipt>, n: nat, handle: nat)
    requires n <= |receipts|
  {
    exists j :: 0 <= j < n && Changes(receipts[j]) && receipts[j].original == handle
  }

  predicate Made(receipts: seq<Receipt>, n: nat, handle: nat)
    requires n <= |receipts|
  {
    exists j :: 0 <= j < n && Changes(receipts[j]) && receipts[j].transformed == handle
  }

  /** The handles on the books after the first `n` receipts: what was made, and what was there and not dropped. */
  ghost predicate Known(s: Books, receipts: seq<Receipt>, n: nat, t: Books)
    requires n <= |receipts|
  {
    forall h | h in t.ids :: Made(receipts, n, h) || (h in s.ids && !Dropped(receipts, n, h))
  }

  lemma DroppedNext(receipts: seq<Receipt>, n: nat, handle: nat)
    requires n < |receipts|
    ensures Dropped(receipts, n + 1, handle) <==> Dropped(receipts, n, handle) || (Changes(receipts[n]) && receipts[n].original == handle)
    ensures Made(receipts, n + 1, handle) <==> Made(receipts, n, handle) || (Changes(receipts[n]) && receipts[n].transformed == handle)
  {
    if Dropped(receipts, n, handle) {
      var j :| 0 <= j < n && Changes(receipts[j]) && receipts[j].original == handle;
      assert j < n + 1;
    }
    if Made(receipts, n, handle) {
      var j :| 0 <= j < n && Changes(receipts[j]) && receipts[j].transformed == handle;
      assert j < n + 1;
    }
  }

  lemma NewIsUnused(s: Books, receipts: seq<Receipt>, n: nat, t: Books)
    requires n < |receipts| && Changes(receipts[n]) && SeparateAt(s, receipts, n) && Known(s, receipts, n, t)
    requires t.steering == s.steering && t.followUp == s.followUp
    ensures Unused(t, receipts[n].transformed)
  {
    var h := receipts[n].transformed;
    assert !Made(receipts, n, h);
    assert h in s.ids ==> Dropped(receipts, n, h);
  }

  /** One more receipt of a separate batch. */
  lemma SeparateNext(s: Books, receipts: seq<Receipt>, n: nat, before: Books)
    requires n < |receipts| && Changes(receipts[n]) && SeparateAt(s, receipts, n)
    requires Valid(before) && Known(s, receipts, n, before) && before.steering == s.steering && before.followUp == s.followUp
    requires var r := receipts[n]; r.key in before.inputs && before.inputs[r.key].handle == r.original && before.inputs[r.key].item.selected
    ensures var r := receipts[n]; var after := Rebound(before, r.original, r.key, r.transformed);
            Valid(after) && Known(s, receipts, n + 1, after)
  {
    hide Valid, Unused, Made, Dropped, SeparateAt;
    var r := receipts[n];
    NewIsUnused(s, receipts, n, before);
    ReboundIsValid(before, r.original, r.key, r.transformed);
    forall h | h in Rebound(before, r.original, r.key, r.transformed).ids
      ensures Made(receipts, n + 1, h) || (h in s.ids && !Dropped(receipts, n + 1, h))
    {
      DroppedNext(receipts, n, h);
    }
  }

  lemma KnownSame(s: Books, receipts: seq<Receipt>, n: nat, t: Books)
    requires n < |receipts| && !Changes(receipts[n]) && Known(s, receipts, n, t)
    ensures Known(s, receipts, n + 1, t)
  {
    hide Made, Dropped;
    forall h | h in t.ids ensures Made(receipts, n + 1, h) || (h in s.ids && !Dropped(receipts, n + 1, h)) {
      DroppedNext(receipts, n, h);
    }
  }

  lemma {:induction false} SeparateSoFar(s: Books, receipts: seq<Receipt>, n: nat)
    requires Valid(s) && Proper(s, receipts) && Separate(s, receipts) && n <= |receipts|
    ensures Valid(ReboundAll(s, receipts[..n])) && Known(s, receipts, n, ReboundAll(s, receipts[..n]))
  {
    hide Valid, SeparateAt, HandleAfter;
    if n == 0 {
      NothingMade(s, receipts);
    } else {
      SeparateSoFar(s, receipts, n - 1);
      assert receipts[..n][..n - 1] == receipts[..n - 1];
      var before := ReboundAll(s, receipts[..n - 1]);
      AllMoved(s, receipts, n - 1);
      NotYet(s, receipts, n - 1, n - 1);
      hide Known, Proper;
      if Changes(receipts[n - 1]) {
        SeparateNext(s, receipts, n - 1, before);
      } else {
        KnownSame(s, receipts, n - 1, before);
      }
    }
  }

  lemma NothingMade(s: Books, receipts: seq<Receipt>)
    ensures Known(s, receipts, 0, s)
  {
  }

  // ---- Shared objects do not -------------------------------------------------------------------------------------

  /** Once another input's receipt has taken a handle off the books, they do not give it back to `key`. */
  lemma {:induction false} NeverBack(s: Books, receipts: seq<Receipt>, m: nat, n: nat, handle: nat, key: string)
    requires Proper(s, receipts) && m < n <= |receipts| && Changes(receipts[m]) && receipts[m].original == handle
    requires forall q | m <= q < |receipts| :: receipts[q].key != key
    ensures var t := ReboundAll(s, receipts[..n]); handle in t.ids ==> t.ids[handle] != key
  {
    assert receipts[..n][..n - 1] == receipts[..n - 1];
    if m + 1 < n { NeverBack(s, receipts, m, n - 1, handle, key); }
  }

  /** Two inputs cannot have the same message. */
  lemma OneMessageEach(t: Books, a: string, b: string)
    requires a in t.inputs && b in t.inputs && a != b && t.inputs[a].handle == t.inputs[b].handle
    ensures !Valid(t)
  {
  }

  lemma SelectedInNoLane(t: Books, a: string)
    requires a in t.inputs && t.inputs[a].item.selected
    requires t.inputs[a].handle in t.steering || t.inputs[a].handle in t.followUp
    ensures !Valid(t)
  {
    assert t.inputs[a].handle in multiset(t.steering) || t.inputs[a].handle in multiset(t.followUp);
  }

  lemma NotSeparateAt(s: Books, receipts: seq<Receipt>, i: nat)
    requires Valid(s) && Proper(s, receipts) && i < |receipts| && Changes(receipts[i]) && !SeparateAt(s, receipts, i)
    ensures !Valid(ReboundAll(s, receipts))
  {
    hide Valid;
    var n := |receipts|;
    var t := ReboundAll(s, receipts);
    assert receipts[..n] == receipts;
    var r := receipts[i];
    var h := r.transformed;
    AllMoved(s, receipts, n);
    FromThenOn(s, receipts, i, n);
    assert t.inputs[r.key] == Entry(s.inputs[r.key].item, h);
    hide HandleAfter;
    if h in s.steering || h in s.followUp {
      SelectedInNoLane(t, r.key);
    } else if j :| 0 <= j < i && Changes(receipts[j]) && receipts[j].transformed == h {
      FromThenOn(s, receipts, j, n);
      OneMessageEach(t, r.key, receipts[j].key);
    } else {
      HandleOwner(s, h);
      TakenFromAnother(s, receipts, i, s.ids[h], t);
    }
  }

  lemma HandleOwner(s: Books, h: nat)
    requires Valid(s) && h in s.ids
    ensures s.ids[h] in s.inputs && s.inputs[s.ids[h]].handle == h
  {
  }

  /** The new object is the message of another input that keeps it, or loses it later in the batch. */
  lemma TakenFromAnother(s: Books, receipts: seq<Receipt>, i: nat, other: string, t: Books)
    requires Valid(s) && Proper(s, receipts) && i < |receipts| && Changes(receipts[i]) && t == ReboundAll(s, receipts)
    requires Moved(s, receipts, |receipts|, t) && t.inputs[receipts[i].key].handle == receipts[i].transformed
    requires other in s.inputs && s.inputs[other].handle == receipts[i].transformed
    requires !exists j :: 0 <= j < i && Changes(receipts[j]) && receipts[j].original == receipts[i].transformed
    ensures !Valid(t)
  {
    hide Valid, HandleAfter;
    var n, h := |receipts|, receipts[i].transformed;
    if m :| 0 <= m < n && Changes(receipts[m]) && receipts[m].key == other {
      assert receipts[m].original == h && m > i;
      NeverBack(s, receipts, m, n, h, receipts[i].key);
      assert receipts[..n] == receipts;
      LostHandle(t, receipts[i].key);
    } else {
      Untouched(s, receipts, n, other);
      OneMessageEach(t, receipts[i].key, other);
    }
  }

  lemma LostHandle(t: Books, key: string)
    requires key in t.inputs && (t.inputs[key].handle in t.ids ==> t.ids[t.inputs[key].handle] != key)
    ensures !Valid(t)
  {
  }

  /** A batch of receipts keeps the books in order exactly when the objects it brings in are separate. */
  lemma ReboundAllIsValid(s: Books, receipts: seq<Receipt>)
    requires Valid(s) && Proper(s, receipts)
    ensures Valid(ReboundAll(s, receipts)) <==> Separate(s, receipts)
    ensures ReboundAll(s, receipts).inputs.Keys == s.inputs.Keys
    ensures forall id | id in s.inputs :: ReboundAll(s, receipts).inputs[id].item == s.inputs[id].item
  {
    hide Valid, Proper, SeparateAt;
    assert receipts[..|receipts|] == receipts;
    AllMoved(s, receipts, |receipts|);
    if Separate(s, receipts) {
      SeparateSoFar(s, receipts, |receipts|);
    } else {
      var i: nat :| i < |receipts| && Changes(receipts[i]) && !SeparateAt(s, receipts, i);
      NotSeparateAt(s, receipts, i);
    }
  }

  /** The input is on the books, and no message that could reach the history takes it off. */
  predicate Orphan(s: Books, key: string) {
    key in s.inputs && forall h | h in s.ids :: s.ids[h] != key
  }

  /** `_process_loop_event`, when a message reaches the history: its input leaves the books. */
  function Consumed(s: Books, handle: nat): Books {
    if handle in s.ids then
      var id := s.ids[handle];
      s.(ids := s.ids - {handle}, inputs := s.inputs - {id}, order := Without(s.order, {id}), context := s.context - {id})
    else s
  }

  lemma OrphanStays(s: Books, key: string, handle: nat)
    requires Orphan(s, key)
    ensures Orphan(Consumed(s, handle), key) && Consumed(s, handle).inputs[key] == s.inputs[key]
  {
  }

  function ConsumedAll(s: Books, handles: seq<nat>): Books
    decreases |handles|
  {
    if handles == [] then s else ConsumedAll(Consumed(s, handles[0]), handles[1..])
  }

  /** Whatever reaches the history, such an input stays, selected as it was. */
  lemma {:induction false} OrphanForEver(s: Books, key: string, handles: seq<nat>)
    requires Orphan(s, key)
    ensures Orphan(ConsumedAll(s, handles), key) && ConsumedAll(s, handles).inputs[key] == s.inputs[key]
    decreases |handles|
  {
    if handles != [] {
      OrphanStays(s, key, handles[0]);
      OrphanForEver(Consumed(s, handles[0]), key, handles[1..]);
    }
  }

  lemma ReboundTwo(s: Books, a: Receipt, b: Receipt)
    requires a.key != "" && b.key != ""
    ensures ReboundAll(s, [a, b]) == Rebound(Rebound(s, a.original, a.key, a.transformed), b.original, b.key, b.transformed)
  {
    hide Rebound;
    assert [a, b][..1] == [a] && [a][..0] == [] && [a, b][1] == b && [a][0] == a;
    assert ReboundAll(s, []) == s;
    assert ReboundAll(s, [a]) == Rebound(s, a.original, a.key, a.transformed);
  }

  /** One object for two inputs: the first of them is selected from then on, and no message ever consumes it. */
  lemma SharedObjectOrphans(s: Books, a: Receipt, b: Receipt, handles: seq<nat>)
    requires Valid(s) && Proper(s, [a, b]) && Changes(a) && Changes(b) && a.transformed == b.transformed
    ensures var t := ConsumedAll(ReboundAll(s, [a, b]), handles);
            Orphan(t, a.key) && a.key in s.inputs && t.inputs[a.key].item == s.inputs[a.key].item && t.inputs[a.key].item.selected
  {
    hide Valid, ReboundAll, Rebound, Consumed;
    var receipts := [a, b];
    assert receipts[0] == a && receipts[1] == b;
    ReboundTwo(s, a, b);
    FirstLosesItsHandle(s, a, b);
    OrphanForEver(ReboundAll(s, [a, b]), a.key, handles);
  }

  lemma FirstLosesItsHandle(s: Books, a: Receipt, b: Receipt)
    requires Valid(s) && a.key in s.inputs && b.key in s.inputs && a.key != b.key
    requires s.inputs[a.key].handle == a.original && s.inputs[b.key].handle == b.original
    requires a.original != a.transformed && b.original != b.transformed && a.transformed == b.transformed
    ensures var t := Rebound(Rebound(s, a.original, a.key, a.transformed), b.original, b.key, b.transformed);
            Orphan(t, a.key) && t.inputs[a.key].item == s.inputs[a.key].item
  {
    hide NoRepeat, LaneOk;
  }

  const FIRST := Item("a", "one", Steer, true, [])
  const SECOND := Item("b", "two", Steer, true, [])

  /** Two inputs that were queued and selected together. */
  const TWO_SELECTED := Books([], [], ["a", "b"], map["a" := Entry(FIRST, 0), "b" := Entry(SECOND, 1)], map[0 := "a", 1 := "b"],
                              map["a" := [], "b" := []])

  /** The transform returns one new object, 2, for both; the history receives it twice. */
  lemma SharedObjectExample()
    ensures Valid(TWO_SELECTED) && Proper(TWO_SELECTED, [Receipt(0, "a", 2), Receipt(1, "b", 2)])
    ensures var t := ConsumedAll(ReboundAll(TWO_SELECTED, [Receipt(0, "a", 2), Receipt(1, "b", 2)]), [2, 2]);
            t.inputs == map["a" := Entry(FIRST, 2)] && t.ids == map[] && t.order == ["a"] && Pending(t) == [FIRST]
  {
    TwoSelectedIsValid();
    var u := Books([], [], ["a", "b"], map["a" := Entry(FIRST, 2), "b" := Entry(SECOND, 2)], map[2 := "b"], map["a" := [], "b" := []]);
    ExampleRebound(u);
    var t := Books([], [], ["a"], map["a" := Entry(FIRST, 2)], map[], map["a" := []]);
    ExampleConsumed(u, t);
    hide Consumed, Valid, Proper;
    assert [2, 2][1..] == [2] && [2][1..] == [];
    assert ConsumedAll(u, [2, 2]) == ConsumedAll(t, [2]) == ConsumedAll(t, []) == t;
    assert ["a"][..0] == [];
    assert SelectedRows(["a"], t.inputs) == [FIRST];
  }

  lemma TwoSelectedIsValid()
    ensures Valid(TWO_SELECTED) && Proper(TWO_SELECTED, [Receipt(0, "a", 2), Receipt(1, "b", 2)])
  {
    var s := TWO_SELECTED;
    assert "a"[0] != "b"[0];
    assert TablesOk(s);
    assert multiset(s.steering) == multiset{} == multiset(s.followUp);
  }

  const HALFWAY := TWO_SELECTED.(ids := map[1 := "b", 2 := "a"], inputs := map["a" := Entry(FIRST, 2), "b" := Entry(SECOND, 1)])

  lemma ExampleFirst()
    ensures Rebound(TWO_SELECTED, 0, "a", 2) == HALFWAY
  {
    assert "a"[0] != "b"[0];
    assert (TWO_SELECTED.ids - {0})[2 := "a"] == HALFWAY.ids;
    assert TWO_SELECTED.inputs["a" := Entry(FIRST, 2)] == HALFWAY.inputs;
  }

  lemma ExampleSecond(u: Books)
    requires u == Books([], [], ["a", "b"], map["a" := Entry(FIRST, 2), "b" := Entry(SECOND, 2)], map[2 := "b"], map["a" := [], "b" := []])
    ensures Rebound(HALFWAY, 1, "b", 2) == u
  {
    assert "a"[0] != "b"[0];
    assert (HALFWAY.ids - {1})[2 := "b"] == u.ids;
    assert HALFWAY.inputs["b" := Entry(SECOND, 2)] == u.inputs;
  }

  lemma ExampleRebound(u: Books)
    requires u == Books([], [], ["a", "b"], map["a" := Entry(FIRST, 2), "b" := Entry(SECOND, 2)], map[2 := "b"], map["a" := [], "b" := []])
    ensures ReboundAll(TWO_SELECTED, [Receipt(0, "a", 2), Receipt(1, "b", 2)]) == u
  {
    hide Rebound, ReboundAll;
    ReboundTwo(TWO_SELECTED, Receipt(0, "a", 2), Receipt(1, "b", 2));
    ExampleFirst();
    ExampleSecond(u);
  }

  lemma ExampleConsumed(u: Books, t: Books)
    requires u == Books([], [], ["a", "b"], map["a" := Entry(FIRST, 2), "b" := Entry(SECOND, 2)], map[2 := "b"], map["a" := [], "b" := []])
    requires t == Books([], [], ["a"], map["a" := Entry(FIRST, 2)], map[], map["a" := []])
    ensures Consumed(u, 2) == t && Consumed(t, 2) == t
  {
    assert "a"[0] != "b"[0];
    WithoutSecond();
  }

  lemma WithoutSecond()
    ensures Without(["a", "b"], {"b"}) == ["a"]
  {
    assert ["a", "b"][..1] == ["a"] && ["a"][..0] == [];
    assert "a"[0] != "b"[0];
  }

  /** Every message of the books was created before. */
  ghost predicate Below(s: Books, created: nat) {
    (forall h | h in s.steering :: h < created) && (forall h | h in s.followUp :: h < created) && (forall h | h in s.ids :: h < created)
  }

  lemma BelowUnused(s: Books, created: nat)
    requires Below(s, created)
    ensures Unused(s, created) && Below(s, created + 1)
  {
  }

  lemma Members(lane: seq<nat>, p: nat, x: nat)
    requires p < |lane|
    ensures forall h | h in lane[..p] + lane[p + 1..] :: h in lane
    ensures forall h | h in lane[p := x] :: h in lane || h == x
  {
  }

  lemma BelowLane(s: Books, name: Lane, lane: seq<nat>, created: nat)
    requires Below(s, created) && forall h | h in lane :: h < created
    ensures Below(WithLane(s, name, lane), created)
    ensures forall h | h in LaneOf(s, name) :: h < created
  {
  }

  lemma BelowTables(s: Books, t: Books, created: nat)
    requires Below(s, created) && t.steering == s.steering && t.followUp == s.followUp && forall h | h in t.ids :: h < created
    ensures Below(t, created)
  {
  }

  lemma ChangedBelow(s: Books, id: string, action: Action, created: nat)
    requires Below(s, created) && Changed(s, id, action, created).Some?
    ensures Below(Changed(s, id, action, created).value, created + 1)
    ensures !action.Edit? ==> Below(Changed(s, id, action, created).value, created)
  {
    BelowUnused(s, created);
    assert forall h | h in s.ids :: h < created;
    var name := s.inputs[id].item.lane;
    var lane := LaneOf(s, name);
    var t := Changed(s, id, action, created).value;
    BelowLane(s, name, [], created);
    var p := Position(lane, s.inputs[id].handle);
    Members(lane, p, created);
    hide Below;
    match action
    case Remove =>
      var now := lane[..p] + lane[p + 1..];
      forall h | h in now ensures h < created { assert h in lane; }
      BelowLane(s, name, now, created);
      BelowTables(WithLane(s, name, now), t, created);
      BelowUnused(t, created);
    case Edit(content) =>
      var now := lane[p := created];
      forall h | h in now ensures h < created + 1 { assert h in lane || h == created; }
      BelowLane(s, name, now, created + 1);
      BelowTables(WithLane(s, name, now), t, created + 1);
    case Move(direction) =>
      var first := lane[p := lane[p + direction]];
      Members(lane, p, lane[p + direction]);
      Members(first, p + direction, lane[p]);
      var now := first[p + direction := lane[p]];
      forall h | h in now ensures h < created {
        assert h in first || h == lane[p];
        assert h in lane;
      }
      BelowLane(s, name, now, created);
      BelowUnused(t, created);
  }

  lemma OffBelow(s: Books, keys: set<string>, created: nat)
    requires Below(s, created)
    ensures Below(Off(s, keys), created)
  {
  }

  lemma DrainedBelow(s: Books, prefix: string, created: nat)
    requires Below(s, created)
    ensures Below(Drained(s, prefix), created)
  {
  }

  lemma ClearedBelow(s: Books, name: Lane, created: nat)
    requires Below(s, created)
    ensures Below(Cleared(s, name), created)
  {
  }

  /** An input has one handle. */
  lemma OnlyHandle(s: Books, handle: nat)
    requires Valid(s) && handle in s.ids
    ensures s.ids[handle] in s.inputs
    ensures Consumed(s, handle) == Off(s, {s.ids[handle]})
  {
  }

  lemma ProperKeys(s: Books, receipts: seq<Receipt>)
    requires Proper(s, receipts)
    ensures forall r | r in receipts && Changes(r) :: r.key in s.inputs
  {
  }

  class InputBook {
    var steering: seq<nat>
    var followUp: seq<nat>
    var order: seq<string>
    var inputs: map<string, Entry>
    var ids: map<nat, string>
    var context: map<string, seq<string>>
    var created: nat // handles from here on belong to messages that do not exist yet

    function State(): Books
      reads this
    {
      Books(steering, followUp, order, inputs, ids, context)
    }

    ghost predicate Ok()
      reads this
    {
      Valid(State()) && Below(State(), created)
    }

    constructor ()
      ensures Ok() && State() == NO_BOOKS
    {
      steering, followUp, order, inputs, ids, context, created := [], [], [], map[], map[], map[], 0;
    }

    method QueueInput(id: string, content: string, name: Lane, images: seq<string>, messages: seq<string>) returns (ok: bool)
      requires Ok()
      modifies this
      ensures Ok()
      ensures var q := Queued(old(State()), id, content, name, images, messages, old(created));
              ok == q.Some? && State() == if q.Some? then q.value else old(State())
    {
      hide Valid;
      BelowUnused(State(), created);
      if id == "" || |id| > 128 || id in inputs || (Blank(content) && images == []) || |messages| > 16 { return false; }
      QueuedKeepsValid(State(), id, content, name, images, messages, created);
      inputs := inputs[id := Entry(Item(id, content, name, false, images), created)];
      order := order + [id];
      context := context[id := messages];
      ids := ids[created := id];
      if name == Steer { steering := steering + [created]; } else { followUp := followUp + [created]; }
      created := created + 1;
      return true;
    }

    method PushPlain(name: Lane)
      requires Ok()
      modifies this
      ensures Ok() && State() == Pushed(old(State()), name, old(created)) && Pending(State()) == Pending(old(State()))
    {
      hide Valid, Pending;
      PushedKeepsValid(State(), name, created);
      if name == Steer { steering := steering + [created]; } else { followUp := followUp + [created]; }
      created := created + 1;
    }

    method PendingInputs() returns (ordered: seq<Item>)
      requires Ok()
      ensures ordered == Pending(State())
    {
      var queued := QueuedRows();
      var selected := ChosenRows();
      RowsSplit(steering, followUp, State());
      ordered := queued + selected;
    }

    method QueuedRows() returns (rows: seq<Item>)
      requires Ok()
      ensures rows == Rows(steering + followUp, State())
    {
      rows := [];
      var queue := steering + followUp;
      ghost var s := State();
      for k := 0 to |queue|
        invariant rows == Rows(queue[..k], s)
      {
        assert queue[..k + 1][..k] == queue[..k];
        if queue[k] in ids { rows := rows + [inputs[ids[queue[k]]].item]; }
      }
      assert queue[..|queue|] == queue;
    }

    method ChosenRows() returns (rows: seq<Item>)
      requires Ok()
      ensures rows == SelectedRows(order, inputs)
    {
      rows := [];
      for k := 0 to |order|
        invariant rows == SelectedRows(order[..k], inputs)
      {
        assert order[..k + 1][..k] == order[..k] && order[k] in order;
        if inputs[order[k]].item.selected { rows := rows + [inputs[order[k]].item]; }
      }
      assert order[..|order|] == order;
    }

    method FindMessage(queue: seq<nat>, h: nat) returns (p: nat)
      ensures p == Position(queue, h)
    {
      p := 0;
      while p < |queue| && queue[p] != h
        invariant p <= |queue| && forall j | 0 <= j < p :: queue[j] != h
      {
        p := p + 1;
      }
    }

    method ChangeInput(id: string, action: Action) returns (ok: bool)
      requires Ok()
      modifies this
      ensures Ok()
      ensures var c := Changed(old(State()), id, action, old(created));
              ok == c.Some? && State() == if c.Some? then c.value else old(State())
    {
      hide Valid, Below, Without, Blank, WithLane, Position;
      ghost var s := State();
      BelowUnused(s, created);
      if id !in inputs || inputs[id].item.selected { return false; }
      var item, h := inputs[id].item, inputs[id].handle;
      var queue := if item.lane == Steer then steering else followUp;
      var p := FindMessage(queue, h);
      ChangedAt(s, id, action, created, queue, p);
      hide Changed;
      if p == |queue| { return false; }
      if Changed(s, id, action, created).Some? { ChangedBelow(s, id, action, created); }
      match action {
        case Remove =>
          RemoveKeepsValid(s, id, created);
          RemoveAt(id, item.lane, h, queue, p);
        case Edit(content) =>
          if Blank(content) { return false; }
          EditKeepsValid(s, id, content, created);
          EditAt(id, item, h, queue, p, content);
        case Move(direction) =>
          if direction != -1 && direction != 1 { return false; }
          var t := p + direction;
          if !(0 <= t < |queue|) { return false; }
          MoveKeepsValid(s, id, direction, created);
          SetLane(item.lane, queue[p := queue[t]][t := h]);
      }
      return true;
    }

    method RemoveAt(id: string, name: Lane, h: nat, queue: seq<nat>, p: nat)
      requires p < |queue|
      modifies `steering, `followUp, `inputs, `order, `context, `ids
      ensures State() == WithLane(old(State()), name, queue[..p] + queue[p + 1..]).(
        order := Without(old(order), {id}), inputs := old(inputs) - {id}, ids := old(ids) - {h}, context := old(context) - {id})
    {
      SetLane(name, queue[..p] + queue[p + 1..]);
      inputs, order, context, ids := inputs - {id}, Without(order, {id}), context - {id}, ids - {h};
    }

    method EditAt(id: string, item: Item, h: nat, queue: seq<nat>, p: nat, content: string)
      requires p < |queue|
      modifies `steering, `followUp, `inputs, `ids, `created
      ensures created == old(created) + 1
      ensures State() == WithLane(old(State()), item.lane, queue[p := old(created)]).(
        ids := (old(ids) - {h})[old(created) := id],
        inputs := old(inputs)[id := Entry(item.(content := content), old(created))])
    {
      SetLane(item.lane, queue[p := created]);
      var others: map<nat, string> := ids - {h};
      ids := others[created := id];
      inputs := inputs[id := Entry(item.(content := content), created)];
      created := created + 1;
    }

    method SetLane(name: Lane, lane: seq<nat>)
      modifies `steering, `followUp
      ensures State() == WithLane(old(State()), name, lane)
    {
      if name == Steer { steering := lane; } else { followUp := lane; }
    }

    method Dequeue(name: Lane, all: bool) returns (messages: seq<nat>)
      requires Ok()
      modifies this
      ensures Ok()
      ensures (State(), messages) == Dequeued(old(State()), name, all)
    {
      hide Valid;
      DequeuedKeepsValid(State(), name, all);
      var lane := if name == Steer then steering else followUp;
      var n := if all then |lane| else Min(1, |lane|);
      messages := lane[..n];
      assert forall h | h in lane[n..] :: h in lane;
      SetLane(name, lane[n..]);
      inputs := Chosen(State(), messages);
    }

    /**
      * The receipts of `_prepare_inputs`; false is the KeyError for an input that has left the books meanwhile. The
      * books stay in order exactly when the objects are separate.
      */
    method Rebind(receipts: seq<Receipt>) returns (ok: bool)
      requires Ok() && forall r | r in receipts :: r.transformed < created
      modifies `ids, `inputs
      ensures ok <==> forall r | r in receipts && Changes(r) :: r.key in old(inputs)
      ensures ok ==> State() == ReboundAll(old(State()), receipts)
      ensures Proper(old(State()), receipts) ==> ok && (Ok() <==> Separate(old(State()), receipts))
    {
      hide Valid, Proper, Separate;
      ghost var s := State();
      if Proper(s, receipts) {
        ReboundAllIsValid(s, receipts);
        ProperKeys(s, receipts);
      }
      assert receipts[..0] == [];
      for k := 0 to |receipts|
        invariant State() == ReboundAll(s, receipts[..k]) && inputs.Keys == s.inputs.Keys
        invariant Below(State(), created)
        invariant forall j | 0 <= j < k && Changes(receipts[j]) :: receipts[j].key in s.inputs
      {
        assert receipts[..k + 1][..k] == receipts[..k];
        var r := receipts[k];
        assert r in receipts;
        if r.key != "" && r.original != r.transformed {
          ids := (ids - {r.original})[r.transformed := r.key];
          if r.key !in inputs { return false; }
          inputs := inputs[r.key := Entry(inputs[r.key].item, r.transformed)];
        }
      }
      assert receipts[..|receipts|] == receipts;
      return true;
    }

    method Consume(handle: nat) returns (consumed: Option<Item>)
      requires Ok()
      modifies `ids, `inputs, `order, `context
      ensures Ok() && State() == Consumed(old(State()), handle)
      ensures if handle in old(ids) then consumed == Some(old(inputs[ids[handle]].item).(selected := false)) else consumed == None
    {
      hide Valid, Without, Below;
      consumed := None;
      if handle in ids {
        var id := ids[handle];
        ghost var s := State();
        OffKeepsValid(s, {id});
        OffBelow(s, {id}, created);
        OnlyHandle(s, handle);
        consumed := Some(inputs[id].item.(selected := false));
        ids := ids - {handle};
        inputs, order, context := inputs - {id}, Without(order, {id}), context - {id};
      }
    }

    method Drain(prefix: string) returns (items: seq<Item>)
      requires Ok()
      modifies this
      ensures Ok() && State() == Drained(old(State()), prefix) && items == WithPrefix(old(Pending(State())), prefix)
    {
      hide Valid, Below, Pending, RowIds, Without;
      ghost var s := State();
      var rows := PendingInputs();
      items := [];
      for k := 0 to |rows|
        invariant State() == s && items == WithPrefix(rows[..k], prefix)
      {
        assert rows[..k + 1][..k] == rows[..k];
        if prefix <= rows[k].id { items := items + [rows[k]]; }
      }
      assert rows[..|rows|] == rows;
      DrainedKeepsValid(s, prefix);
      DrainedBelow(s, prefix, created);
      var keys := RowIds(items);
      var gone := set h | h in ids && ids[h] in keys;
      steering, followUp := Without<nat>(steering, gone), Without<nat>(followUp, gone);
      order, inputs, context := Without(order, keys), inputs - keys, context - keys;
      ids := map h | h in ids && ids[h] !in keys :: ids[h];
    }

    method ClearLane(name: Lane)
      requires Ok()
      modifies this
      ensures Ok() && State() == Cleared(old(State()), name)
    {
      hide Valid, Below, Without;
      ClearedKeepsValid(State(), name);
      ClearedBelow(State(), name, created);
      var keys := set id | id in inputs && inputs[id].item.lane == name;
      SetLane(name, []);
      order, inputs, context := Without(order, keys), inputs - keys, context - keys;
      ids := map h | h in ids && ids[h] !in keys :: ids[h];
    }

    /** `clear_all_queues` */
    method ClearAll()
      modifies this
      ensures Ok() && State() == NO_BOOKS
    {
      steering, followUp, order, inputs, ids, context := [], [], [], map[], map[], map[];
    }

    /** `planned_change`, for a request that has been checked against the current rows. */
    method PlannedChange(id: string, cmd: Command) returns (rows: Option<seq<Item>>)
      requires Ok() && Legal(cmd)
      ensures rows == Plan(Pending(State()), id, cmd)
    {
      hide Valid, Pending;
      var list := PendingInputs();
      var index := 0;
      while index < |list| && list[index].id != id
        invariant index <= |list| && forall j | 0 <= j < index :: list[j].id != id
      {
        index := index + 1;
      }
      assert index == Find(list, id);
      if index == |list| || list[index].selected { return None; }
      var row := list[index];
      if cmd.ReturnInput? && row.images != [] { return None; }
      match cmd {
        case EditInput(content) => list := list[index := row.(content := content)];
        case MoveInput(direction) =>
          var target := index + direction;
          if !(0 <= target < |list|) || list[target].lane != row.lane || list[target].selected { return None; }
          list := list[index := list[target]][target := row];
        case _ => list := list[..index] + list[index + 1..];
      }
      return Some(Unselected(list));
    }
  }
}
