/**
  * The durable queue of next-prompt context as a protocol of steps (context_messages.py).
  *
  * Two stores change one after the other: the history first, then the pending rows. A crash, a cancellation or
  * an unclear failure can come between any two steps.
  */
module ContextQueue {

  const CAPACITY := 32

  datatype Row = Row(id: string, body: string)

  datatype Entry = Ordinary(text: string) | Context(row: Row)

  /** A prompt's admission: the ids it captured, and the history it read before it asked for the lock. */
  datatype Admission = Admission(captured: set<string>, base: seq<Entry>)

  /** What the owner of the queue's lock is doing. `wrote`: the history was persisted for this admission. */
  datatype Work =
    | Free
    | Saving(row: Row, rows: seq<Row>)
    | Admitting(admission: Admission, rows: seq<Row>)
    | Retiring(rows: seq<Row>, ids: set<string>, wrote: bool)

  /**
    * `pending` and `stored` are on disk; the last four fields only record the run: the ids ever written to the
    * queue, those a replaced history lost, those whose message was stored and then was not any more, and those
    * that entered the stored history, in order.
    */
  datatype World = World(
    pending: seq<Row>,
    stored: seq<Entry>,
    history: seq<Entry>,
    uncertain: bool,
    work: Work,
    tickets: set<set<string>>,
    begun: set<Admission>,
    durable: set<string>,
    dropped: set<string>,
    left: set<string>,
    entered: seq<string>)

  const EMPTY := World([], [], [], false, Free, {}, {}, {}, {}, {}, [])

  function RowIds(rows: seq<Row>): set<string> {
    set r | r in rows :: r.id
  }

  function Ids(h: seq<Entry>): set<string> {
    set e | e in h && e.Context? :: e.row.id
  }

  function RemainingRows(rows: seq<Row>, ids: set<string>): seq<Row> {
    if rows == [] then [] else
      var rest := RemainingRows(rows[..|rows| - 1], ids);
      if rows[|rows| - 1].id in ids then rest else rest + [rows[|rows| - 1]]
  }

  /** The captured rows the history does not have yet, as messages. */
  function Fresh(rows: seq<Row>, captured: set<string>, known: set<string>): seq<Entry> {
    if rows == [] then [] else
      var last := rows[|rows| - 1];
      var rest := Fresh(rows[..|rows| - 1], captured, known);
      if last.id in captured && last.id !in known then rest + [Context(last)] else rest
  }

  /** How an atomic replacement ends: refused before it, or done, cleanly or with an error or cancellation after. */
  datatype Write = Refused | Replaced(clean: bool)

  /** How persisting the history ends; after a failure the file, or also the memory, may have it. */
  datatype Persist = Rejected | Persisted | Failed(onDisk: bool, inMemory: bool)

  datatype Step =
    | EnqueueLoad(row: Row)
    | EnqueueWrite(write: Write)
    | Capture
    | AdmitBegin(captured: set<string>)
    | AdmitAbandon(admission: Admission)
    | AdmitLoad(admission: Admission)
    | AdmitCommit(persist: Persist)
    | AdmitRetire(write: Write)
    | Append(text: string)        // the conversation goes on
    | Save                        // and the host saves it
    | Replace(to: seq<Entry>)     // a compaction or reset, saved at once
    | Crash
    | Reload                      // the original session is opened again

  /** The step may happen. */
  predicate Enabled(w: World, s: Step) {
    match s
    case EnqueueLoad(row) => w.work.Free?
    case EnqueueWrite(write) => w.work.Saving? && (write.Replaced? ==> |w.work.rows| < CAPACITY)
    case Capture => w.work.Free? && !w.uncertain
    case AdmitBegin(captured) => captured in w.tickets && !w.uncertain
    case AdmitAbandon(admission) => admission in w.begun
    case AdmitLoad(admission) => admission in w.begun && w.work.Free?
    case AdmitCommit(persist) =>
      && w.work.Admitting?
      && (!persist.Rejected? ==> w.history == w.work.admission.base)
      && (persist.Failed? && persist.inMemory ==> persist.onDisk)
    case AdmitRetire(write) => w.work.Retiring?
    case Append(text) => !w.uncertain
    case Save => !w.uncertain
    case Replace(to) => !w.uncertain && Unique(to) && Ids(to) <= Ids(w.history)
    case Crash => true
    case Reload => w.work.Free?
  }

  function Restarted(w: World): World {
    w.(history := w.stored, uncertain := false, work := Free, tickets := {}, begun := {})
  }

  /** `stored` is overwritten. */
  function Overwritten(w: World, to: seq<Entry>): World {
    w.(stored := to, left := w.left + (Ids(w.stored) - Ids(to)))
  }

  function Next(w: World, s: Step): World
    requires Enabled(w, s)
  {
    match s
    case EnqueueLoad(row) =>
      if row.id in RowIds(w.pending) then w else w.(work := Saving(row, w.pending))
    case EnqueueWrite(write) =>
      (match write
       case Refused => w.(work := Free)
       case Replaced(clean) =>
         w.(work := Free, pending := w.work.rows + [w.work.row], durable := w.durable + {w.work.row.id},
            uncertain := w.uncertain || !clean))
    case Capture => w.(tickets := w.tickets + {RowIds(w.pending)})
    case AdmitBegin(captured) => w.(begun := w.begun + {Admission(captured, w.history)})
    case AdmitAbandon(admission) => w.(begun := w.begun - {admission})
    case AdmitLoad(admission) =>
      var w1 := w.(begun := w.begun - {admission});
      var ids := RowIds(w.pending) * admission.captured;
      if Fresh(w.pending, admission.captured, Ids(admission.base)) != [] then w1.(work := Admitting(admission, w.pending))
      else if ids != {} then w1.(work := Retiring(w.pending, ids, false))
      else w1
    case AdmitCommit(persist) =>
      var a := w.work.admission;
      var added := Fresh(w.work.rows, a.captured, Ids(a.base));
      var written := Overwritten(w, a.base + added).(entered := w.entered + NewIds(added, Ids(w.stored)));
      (match persist
       case Rejected => w.(work := Free)
       case Persisted =>
         written.(history := a.base + added, work := Retiring(w.work.rows, RowIds(w.work.rows) * a.captured, true))
       case Failed(onDisk, inMemory) =>
         (if onDisk then written else w).(
           history := if inMemory then a.base + added else w.history, work := Free, uncertain := true))
    case AdmitRetire(write) =>
      (match write
       case Refused => w.(work := Free, uncertain := w.uncertain || w.work.wrote)
       case Replaced(clean) =>
         w.(work := Free, pending := RemainingRows(w.work.rows, w.work.ids), uncertain := w.uncertain || !clean))
    case Append(text) => w.(history := w.history + [Ordinary(text)])
    case Save => Overwritten(w, w.history)
    case Replace(to) => Overwritten(w, to).(history := to, dropped := w.dropped + (Ids(w.history) - Ids(to)))
    case Crash => Restarted(w)
    case Reload => Restarted(w)
  }

  /** The ids of these messages that are not among `known`, in order. */
  function NewIds(h: seq<Entry>, known: set<string>): seq<string> {
    if h == [] then [] else
      var last := h[|h| - 1];
      var rest := NewIds(h[..|h| - 1], known);
      if last.Context? && last.row.id !in known then rest + [last.row.id] else rest
  }

  predicate UniqueRows(rows: seq<Row>) {
    forall j, k | 0 <= j < k < |rows| :: rows[j].id != rows[k].id
  }

  /** No context id occurs twice. */
  predicate Unique(h: seq<Entry>) {
    forall j, k | 0 <= j < k < |h| && h[j].Context? && h[k].Context? :: h[j].row.id != h[k].row.id
  }

  /** Runs: any enabled steps, in any order. */
  predicate Allowed(w: World, steps: seq<Step>)
    decreases |steps|
  {
    steps == [] || (Enabled(w, steps[0]) && Allowed(Next(w, steps[0]), steps[1..]))
  }

  function Run(w: World, steps: seq<Step>): World
    requires Allowed(w, steps)
    decreases |steps|
  {
    if steps == [] then w else Run(Next(w, steps[0]), steps[1..])
  }

  // ---- Safety on every run -------------------------------------------------------------------------------

  predicate WorkOk(w: World) {
    match w.work
    case Free => true
    case Saving(row, rows) => rows == w.pending && row.id !in RowIds(rows)
    case Admitting(admission, rows) => rows == w.pending
    case Retiring(rows, ids, _) => rows == w.pending && ids <= RowIds(rows) && ids <= Ids(w.history) + w.dropped
  }

  /** No id twice, and nothing that was durably enqueued is lost. */
  predicate Safe(w: World) {
    && UniqueRows(w.pending) && |w.pending| <= CAPACITY
    && Unique(w.stored) && Unique(w.history)
    && Ids(w.history) <= Ids(w.stored)
    && w.durable <= RowIds(w.pending) + Ids(w.history) + w.dropped
    && (forall a | a in w.begun :: Ids(a.base) <= Ids(w.history) + w.dropped)
    && WorkOk(w)
  }

  lemma {:induction false} FreshIds(rows: seq<Row>, captured: set<string>, known: set<string>)
    ensures Ids(Fresh(rows, captured, known)) == (RowIds(rows) * captured) - known
    ensures UniqueRows(rows) ==> Unique(Fresh(rows, captured, known))
  {
    hide Unique, UniqueRows, Ids, RowIds;
    if rows == [] {
      NothingKnown();
    } else {
      var n := |rows| - 1;
      var last := rows[n];
      var rest := Fresh(rows[..n], captured, known);
      FreshIds(rows[..n], captured, known);
      assert rows == rows[..n] + [last];
      RowIdsSplit(rows[..n], [last]);
      IdsSplit(rest, [Context(last)]);
      OneEach(last);
      if UniqueRows(rows) {
        LastIsOnly(rows);
        if last.id in captured && last.id !in known { UniqueAppend(rest, [Context(last)]); }
      }
    }
  }

  lemma NothingKnown()
    ensures Ids([]) == {} && RowIds([]) == {} && Unique([]) && UniqueRows([])
  {
  }

  lemma OneEach(row: Row)
    ensures RowIds([row]) == {row.id} && Ids([Context(row)]) == {row.id} && Unique([Context(row)]) && UniqueRows([row])
  {
  }

  lemma LastIsOnly(rows: seq<Row>)
    requires UniqueRows(rows) && rows != []
    ensures UniqueRows(rows[..|rows| - 1]) && rows[|rows| - 1].id !in RowIds(rows[..|rows| - 1])
  {
    var n := |rows| - 1;
    forall r | r in rows[..n] ensures r.id != rows[n].id {
      var k :| 0 <= k < n && rows[k] == r;
    }
  }

  lemma RowIdsSplit(a: seq<Row>, b: seq<Row>)
    ensures RowIds(a + b) == RowIds(a) + RowIds(b)
  {
    assert forall r :: r in a + b <==> r in a || r in b;
  }

  lemma IdsSplit(a: seq<Entry>, b: seq<Entry>)
    ensures Ids(a + b) == Ids(a) + Ids(b)
  {
    assert forall e :: e in a + b <==> e in a || e in b;
  }

  lemma UniqueAppend(a: seq<Entry>, b: seq<Entry>)
    requires Unique(a) && Unique(b) && Ids(a) !! Ids(b)
    ensures Unique(a + b)
  {
    var h := a + b;
    forall j, k | 0 <= j < k < |h| && h[j].Context? && h[k].Context? ensures h[j].row.id != h[k].row.id {
      if j < |a| && |a| <= k {
        assert h[j] in a && h[k] in b;
        assert h[j].row.id in Ids(a) && h[k].row.id in Ids(b);
      }
    }
  }

  lemma OneMoreRow(rows: seq<Row>, row: Row)
    requires UniqueRows(rows) && row.id !in RowIds(rows)
    ensures UniqueRows(rows + [row]) && RowIds(rows + [row]) == RowIds(rows) + {row.id}
  {
    RowIdsSplit(rows, [row]);
    forall k | 0 <= k < |rows| ensures rows[k].id != row.id { assert rows[k] in rows; }
  }

  lemma {:induction false} RemainingIds(rows: seq<Row>, ids: set<string>)
    ensures RowIds(RemainingRows(rows, ids)) == RowIds(rows) - ids
    ensures |RemainingRows(rows, ids)| <= |rows|
    ensures UniqueRows(rows) ==> UniqueRows(RemainingRows(rows, ids))
  {
    hide UniqueRows, RowIds;
    if rows == [] {
      NothingKnown();
    } else {
      var n := |rows| - 1;
      var last := rows[n];
      var rest := RemainingRows(rows[..n], ids);
      RemainingIds(rows[..n], ids);
      assert rows == rows[..n] + [last];
      RowIdsSplit(rows[..n], [last]);
      RowIdsSplit(rest, [last]);
      OneEach(last);
      if UniqueRows(rows) {
        LastIsOnly(rows);
        if last.id !in ids { OneMoreRow(rest, last); }
      }
    }
  }

  lemma OrdinaryAdds(h: seq<Entry>, text: string)
    requires Unique(h)
    ensures Unique(h + [Ordinary(text)]) && Ids(h + [Ordinary(text)]) == Ids(h)
  {
    IdsSplit(h, [Ordinary(text)]);
    UniqueAppend(h, [Ordinary(text)]);
  }

  /** What a commit makes of the history: the captured rows it lacked come last, each once. */
  lemma CommitFacts(w: World)
    requires Safe(w) && w.work.Admitting?
    ensures var a := w.work.admission;
            var added := Fresh(w.pending, a.captured, Ids(a.base));
            && w.work.rows == w.pending
            && Ids(added) == (RowIds(w.pending) * a.captured) - Ids(a.base)
            && Ids(a.base + added) == Ids(a.base) + (RowIds(w.pending) * a.captured)
            && (a.base == w.history ==> Unique(a.base + added))
  {
    var a := w.work.admission;
    FreshIds(w.pending, a.captured, Ids(a.base));
    var added := Fresh(w.pending, a.captured, Ids(a.base));
    IdsSplit(a.base, added);
    if a.base == w.history { UniqueAppend(a.base, added); }
  }

  lemma NothingFresh(rows: seq<Row>, captured: set<string>, known: set<string>)
    ensures Fresh(rows, captured, known) == [] ==> RowIds(rows) * captured <= known
  {
    FreshIds(rows, captured, known);
  }

  lemma StepKeepsSafe(w: World, s: Step)
    requires Safe(w) && Enabled(w, s)
    ensures Safe(Next(w, s))
  {
    hide RowIds, Ids, Unique, UniqueRows, Fresh, RemainingRows, NewIds;
    match s
    case EnqueueWrite(write) => if write.Replaced? { OneMoreRow(w.pending, w.work.row); }
    case AdmitLoad(admission) => NothingFresh(w.pending, admission.captured, Ids(admission.base));
    case AdmitCommit(persist) => CommitFacts(w);
    case AdmitRetire(write) => RemainingIds(w.work.rows, w.work.ids);
    case Append(text) => OrdinaryAdds(w.history, text);
    case _ =>
  }

  /** On every run: no id is twice in the queue or the history, and every enqueued id is still in one of them. */
  lemma {:induction false} EveryRunIsSafe(w: World, steps: seq<Step>)
    requires Safe(w) && Allowed(w, steps)
    ensures Safe(Run(w, steps))
    decreases |steps|
  {
    if steps != [] {
      StepKeepsSafe(w, steps[0]);
      EveryRunIsSafe(Next(w, steps[0]), steps[1..]);
    }
  }

  lemma EmptyIsSafe()
    ensures Safe(EMPTY)
  {
  }

  /** Only a commit brings ids into the stored history, and only pending ones its prompt has captured. */
  lemma OnlyCapturedEnter(w: World, s: Step)
    requires Safe(w) && Enabled(w, s)
    ensures Ids(Next(w, s).stored) <= Ids(w.stored)
         || (s.AdmitCommit? && Ids(Next(w, s).stored) - Ids(w.stored) <= w.work.admission.captured * RowIds(w.pending))
  {
    hide RowIds, Ids, Unique, UniqueRows, Fresh, RemainingRows, NewIds;
    if s.AdmitCommit? { CommitFacts(w); }
  }

  // ---- Entering once ---------------------------------------------------------------------------------------

  predicate NoRepeat(ids: seq<string>) {
    forall j, k | 0 <= j < k < |ids| :: ids[j] != ids[k]
  }

  /** What entered is what is stored and what has left again. */
  ghost predicate Ledger(w: World) {
    forall id :: id in w.entered <==> id in Ids(w.stored) || id in w.left
  }

  ghost predicate Booked(w: World) {
    Safe(w) && Ledger(w)
  }

  lemma OneContext(e: Entry)
    requires e.Context?
    ensures Ids([e]) == {e.row.id}
  {
  }

  lemma OtherLast(e: Entry, known: set<string>)
    requires !e.Context? || e.row.id in known
    ensures Ids([e]) <= known
  {
  }

  lemma LastIsNew(h: seq<Entry>)
    requires h != [] && Unique(h) && h[|h| - 1].Context?
    ensures h[|h| - 1].row.id !in Ids(h[..|h| - 1])
  {
  }

  lemma {:induction false} NewIdsMeans(h: seq<Entry>, known: set<string>)
    ensures forall id :: id in NewIds(h, known) <==> id in Ids(h) && id !in known
    ensures Unique(h) ==> NoRepeat(NewIds(h, known))
  {
    if h != [] {
      var n := |h| - 1;
      NewIdsMeans(h[..n], known);
      assert h == h[..n] + [h[n]];
      IdsSplit(h[..n], [h[n]]);
      if h[n].Context? && h[n].row.id !in known {
        OneContext(h[n]);
        if Unique(h) { LastIsNew(h); }
      } else {
        OtherLast(h[n], known);
      }
    }
  }

  lemma PrefixIds(a: seq<Entry>, b: seq<Entry>)
    requires a <= b
    ensures Ids(a) <= Ids(b)
  {
    assert forall e | e in a :: e in b;
  }

  lemma NoRepeatAppend(a: seq<string>, b: seq<string>)
    requires NoRepeat(a) && NoRepeat(b) && forall id | id in b :: id !in a
    ensures NoRepeat(a + b)
  {
    var c := a + b;
    forall j, k | 0 <= j < k < |c| ensures c[j] != c[k] {
      if j < |a| <= k { assert c[j] in a && c[k] in b; }
    }
  }

  /** The step overwrites the stored history by a commit. */
  predicate Commits(w: World, s: Step)
    requires Enabled(w, s)
  {
    s.AdmitCommit? && (s.persist.Persisted? || (s.persist.Failed? && s.persist.onDisk))
  }

  /** A row that waits and was captured carries an id whose message has left the history. */
  ghost predicate Reenters(w: World)
    requires w.work.Admitting?
  {
    exists id :: id in RowIds(w.pending) && id in w.work.admission.captured
                 && id !in Ids(w.history) && id !in Ids(w.stored) && id in w.left
  }

  /** A commit brings in the captured ids that are not stored. */
  lemma CommitEnters(w: World)
    requires Safe(w) && w.work.Admitting? && w.history == w.work.admission.base
    ensures var a := w.work.admission;
            var added := Fresh(w.work.rows, a.captured, Ids(a.base));
            var news := NewIds(added, Ids(w.stored));
            && (forall id :: id in news <==> id in RowIds(w.pending) && id in a.captured && id !in Ids(w.history) && id !in Ids(w.stored))
            && NoRepeat(news)
            && (forall id :: id in Ids(a.base + added) <==> id in Ids(w.history) || (id in RowIds(w.pending) && id in a.captured))
  {
    hide RowIds, Ids, Unique, UniqueRows, Fresh, RemainingRows, NewIds, NoRepeat;
    CommitFacts(w);
    var a := w.work.admission;
    FreshIds(w.pending, a.captured, Ids(a.base));
    NewIdsMeans(Fresh(w.work.rows, a.captured, Ids(a.base)), Ids(w.stored));
  }

  lemma StepKeepsLedger(w: World, s: Step)
    requires Booked(w) && Enabled(w, s)
    ensures Ledger(Next(w, s))
  {
    hide RowIds, Ids, Unique, UniqueRows, Fresh, RemainingRows, NewIds, NoRepeat, WorkOk;
    if s.AdmitCommit? && !s.persist.Rejected? {
      CommitEnters(w);
    }
  }

  /** A commit enters an id a second time exactly when a captured row waits whose message has left the history. */
  lemma CommitRepeatsExactly(w: World, s: Step)
    requires Booked(w) && Enabled(w, s) && NoRepeat(w.entered)
    ensures NoRepeat(Next(w, s).entered) <==> !(Commits(w, s) && Reenters(w))
    ensures w.entered <= Next(w, s).entered
  {
    hide Safe, RowIds, Ids, Unique, UniqueRows, Fresh, RemainingRows, NewIds, NoRepeat;
    if Commits(w, s) {
      CommitEnters(w);
      var a := w.work.admission;
      NoRepeatSplit(w.entered, NewIds(Fresh(w.work.rows, a.captured, Ids(a.base)), Ids(w.stored)));
    }
  }

  lemma NoRepeatSplit(a: seq<string>, b: seq<string>)
    requires NoRepeat(a) && NoRepeat(b)
    ensures NoRepeat(a + b) <==> !exists id :: id in a && id in b
  {
    if !exists id :: id in a && id in b {
      NoRepeatAppend(a, b);
    } else {
      var id :| id in a && id in b;
      var j :| 0 <= j < |a| && a[j] == id;
      var k :| 0 <= k < |b| && b[k] == id;
      assert (a + b)[j] == (a + b)[|a| + k];
    }
  }

  /** No commit of the run meets a captured row whose message has left the history. */
  ghost predicate NeverReenters(w: World, steps: seq<Step>)
    requires Allowed(w, steps)
    decreases |steps|
  {
    steps == [] || (!(Commits(w, steps[0]) && Reenters(w)) && NeverReenters(Next(w, steps[0]), steps[1..]))
  }

  lemma {:induction false} RepeatsExactly(w: World, steps: seq<Step>)
    requires Booked(w) && Allowed(w, steps) && NoRepeat(w.entered)
    ensures Booked(Run(w, steps))
    ensures NoRepeat(Run(w, steps).entered) <==> NeverReenters(w, steps)
    decreases |steps|
  {
    hide Safe, Ledger, Reenters, Enabled, Next;
    if steps != [] {
      var w1 := Next(w, steps[0]);
      StepKeepsSafe(w, steps[0]);
      StepKeepsLedger(w, steps[0]);
      CommitRepeatsExactly(w, steps[0]);
      if NoRepeat(w1.entered) {
        RepeatsExactly(w1, steps[1..]);
      } else {
        EnteredStays(w1, steps[1..]);
        RepeatStays(w1.entered, Run(w1, steps[1..]).entered);
      }
    }
  }

  lemma {:induction false} EnteredStays(w: World, steps: seq<Step>)
    requires Booked(w) && Allowed(w, steps)
    ensures w.entered <= Run(w, steps).entered && Booked(Run(w, steps))
    decreases |steps|
  {
    hide Safe, Ledger, Enabled;
    if steps != [] {
      StepKeepsSafe(w, steps[0]);
      StepKeepsLedger(w, steps[0]);
      EnteredStays(Next(w, steps[0]), steps[1..]);
    }
  }

  lemma RepeatStays(a: seq<string>, b: seq<string>)
    requires a <= b && !NoRepeat(a)
    ensures !NoRepeat(b)
  {
    var j, k :| 0 <= j < k < |a| && a[j] == a[k];
    assert b[j] == b[k];
  }

  lemma EmptyIsBooked()
    ensures Booked(EMPTY)
  {
  }

  /**
    * From the empty queue, with admissions that overlap or not: no id enters the stored history twice exactly when
    * no commit meets a captured row whose message has left the history.
    */
  lemma EnteringOnceExactly(steps: seq<Step>)
    requires Allowed(EMPTY, steps)
    ensures NoRepeat(Run(EMPTY, steps).entered) <==> NeverReenters(EMPTY, steps)
  {
    EmptyIsBooked();
    RepeatsExactly(EMPTY, steps);
  }

  // ---- One admission at a time -------------------------------------------------------------------------------

  /** An admission is under way. */
  predicate Open(w: World) {
    w.begun != {} || w.work.Admitting? || w.work.Retiring?
  }

  /** At most one admission, and while it or the certainty lasts the memory is ahead of the disk. */
  predicate Serial(w: World) {
    && (w.work.Admitting? || w.work.Retiring? ==> w.begun == {})
    && (forall a, b | a in w.begun && b in w.begun :: a == b)
    && (Open(w) || !w.uncertain ==> w.stored <= w.history)
  }

  /** The host begins no admission while another is under way. */
  predicate InTurn(w: World, s: Step) {
    s.AdmitBegin? ==> !Open(w)
  }

  predicate AllInTurn(w: World, steps: seq<Step>)
    requires Allowed(w, steps)
    decreases |steps|
  {
    steps == [] || (InTurn(w, steps[0]) && AllInTurn(Next(w, steps[0]), steps[1..]))
  }

  /** Only replacing the history takes messages out of it. */
  ghost predicate Orderly(w: World) {
    Booked(w) && Serial(w) && w.left == w.dropped
  }

  lemma EmptyIsOrderly()
    ensures Orderly(EMPTY)
  {
  }

  /** A commit of an orderly world extends what is stored at its end. */
  lemma CommitExtends(w: World)
    requires Orderly(w) && w.work.Admitting? && w.history == w.work.admission.base
    ensures var a := w.work.admission;
            var added := Fresh(w.work.rows, a.captured, Ids(a.base));
            && w.stored <= a.base + added
            && Ids(w.stored) == Ids(w.history) && Ids(w.stored) <= Ids(a.base + added)
            && forall id | id in NewIds(added, Ids(w.stored)) :: id in w.entered <==> id in w.dropped
  {
    hide RowIds, Ids, Unique, UniqueRows, Fresh, RemainingRows, NewIds, NoRepeat, WorkOk;
    var a := w.work.admission;
    var added := Fresh(w.work.rows, a.captured, Ids(a.base));
    CommitEnters(w);
    PrefixIds(w.stored, w.history);
    PrefixIds(w.stored, a.base + added);
  }

  /** While admissions take turns the stored history grows at its end, except where it is replaced by something else. */
  lemma StepExtendsExactly(w: World, s: Step)
    requires Orderly(w) && Enabled(w, s) && InTurn(w, s)
    ensures Serial(Next(w, s))
    ensures w.stored <= Next(w, s).stored <==> (s.Replace? ==> w.stored <= s.to)
  {
    hide Safe, Ledger, RowIds, Ids, Unique, UniqueRows, Fresh, RemainingRows, NewIds, NoRepeat;
    if s.AdmitCommit? && !s.persist.Rejected? { CommitExtends(w); }
  }

  lemma StepKeepsLeft(w: World, s: Step)
    requires Orderly(w) && Enabled(w, s) && InTurn(w, s)
    ensures Next(w, s).left == Next(w, s).dropped
  {
    hide Ledger, RowIds, Ids, Unique, UniqueRows, Fresh, RemainingRows, NewIds, NoRepeat, WorkOk;
    match s
    case AdmitCommit(persist) => if !persist.Rejected? { CommitExtends(w); }
    case Save => PrefixIds(w.stored, w.history);
    case Replace(to) => PrefixIds(w.stored, w.history);
    case _ =>
  }

  lemma StepKeepsOrderly(w: World, s: Step)
    requires Orderly(w) && Enabled(w, s) && InTurn(w, s)
    ensures Orderly(Next(w, s))
  {
    hide Safe, Serial, Ledger, Next, Enabled;
    StepKeepsSafe(w, s);
    StepKeepsLedger(w, s);
    StepExtendsExactly(w, s);
    StepKeepsLeft(w, s);
  }

  /** While admissions take turns an id re-enters exactly when a captured row waits that a replaced history has dropped. */
  lemma ReentersInTurn(w: World)
    requires Orderly(w) && w.work.Admitting? && w.history == w.work.admission.base
    ensures Reenters(w) <==>
              exists id :: id in RowIds(w.pending) && id in w.work.admission.captured && id !in Ids(w.history) && id in w.dropped
  {
    hide RowIds, Unique, UniqueRows, Fresh, RemainingRows, NewIds, NoRepeat, WorkOk;
    PrefixIds(w.stored, w.history);
  }

  /** Every step of the run leaves what is stored in place, and at most adds to it. */
  predicate OnlyGrows(w: World, steps: seq<Step>)
    requires Allowed(w, steps)
    decreases |steps|
  {
    steps == [] || (w.stored <= Next(w, steps[0]).stored && OnlyGrows(Next(w, steps[0]), steps[1..]))
  }

  /** Every replacement of the run extends what is stored. */
  predicate ReplacesExtend(w: World, steps: seq<Step>)
    requires Allowed(w, steps)
    decreases |steps|
  {
    steps == [] || ((steps[0].Replace? ==> w.stored <= steps[0].to) && ReplacesExtend(Next(w, steps[0]), steps[1..]))
  }

  /** While admissions take turns the stored history is only ever extended exactly when every replacement extends it. */
  lemma {:induction false} HistoryOnlyGrows(w: World, steps: seq<Step>)
    requires Orderly(w) && Allowed(w, steps) && AllInTurn(w, steps)
    ensures Orderly(Run(w, steps))
    ensures OnlyGrows(w, steps) <==> ReplacesExtend(w, steps)
    ensures OnlyGrows(w, steps) ==> w.stored <= Run(w, steps).stored
    decreases |steps|
  {
    hide Orderly, Enabled, InTurn;
    if steps != [] {
      StepExtendsExactly(w, steps[0]);
      StepKeepsOrderly(w, steps[0]);
      HistoryOnlyGrows(Next(w, steps[0]), steps[1..]);
    }
  }

  // ---- What a host can do to enter every id once --------------------------------------------------------------

  /** The ids that still wait in the queue, or are on their way into it. */
  function Wanted(w: World): set<string> {
    RowIds(w.pending) + if w.work.Saving? then {w.work.row.id} else {}
  }

  /**
    * Three rules: one admission at a time; a replaced history keeps the messages whose rows still wait; an id the
    * history has dropped is not enqueued again.
    */
  predicate Careful(w: World, s: Step) {
    match s
    case AdmitBegin(_) => !Open(w)
    case Replace(to) => Wanted(w) * Ids(w.history) <= Ids(to)
    case EnqueueLoad(row) => row.id !in w.dropped || row.id in RowIds(w.pending)
    case _ => true
  }

  predicate AllCareful(w: World, steps: seq<Step>)
    requires Allowed(w, steps)
    decreases |steps|
  {
    steps == [] || (Careful(w, steps[0]) && AllCareful(Next(w, steps[0]), steps[1..]))
  }

  /** No dropped id waits, unless its message is back. */
  predicate NoneReturns(w: World) {
    forall id | id in w.dropped && id in Wanted(w) :: id in Ids(w.stored)
  }

  lemma OneId(row: Row)
    ensures RowIds([row]) == {row.id}
  {
  }

  lemma Rows(w: World)
    requires Safe(w)
    ensures !w.work.Free? ==> w.work.rows == w.pending
  {
  }

  lemma CarefulKeeps(w: World, s: Step)
    requires Orderly(w) && NoneReturns(w) && Enabled(w, s) && Careful(w, s)
    ensures NoneReturns(Next(w, s))
  {
    hide Ledger, RowIds, Ids, Unique, UniqueRows, Fresh, RemainingRows, NewIds, NoRepeat, WorkOk;
    match s
    case EnqueueWrite(write) =>
      if write.Replaced? {
        Rows(w);
        RowIdsSplit(w.work.rows, [w.work.row]);
        OneId(w.work.row);
      }
    case AdmitCommit(persist) => if !persist.Rejected? { CommitExtends(w); }
    case AdmitRetire(write) => Rows(w); RemainingIds(w.work.rows, w.work.ids);
    case Save => PrefixIds(w.stored, w.history);
    case Replace(to) => PrefixIds(w.stored, w.history);
    case _ =>
  }

  /** On every run of a host that keeps the three rules an id enters the stored history at most once. */
  lemma {:induction false} EnteringOnce(w: World, steps: seq<Step>)
    requires Orderly(w) && NoneReturns(w) && Allowed(w, steps) && AllCareful(w, steps) && NoRepeat(w.entered)
    ensures NeverReenters(w, steps) && NoRepeat(Run(w, steps).entered)
    decreases |steps|
  {
    hide NoneReturns, Reenters, Safe, Ledger, NoRepeat, Next, Enabled;
    RepeatsExactly(w, steps);
    if steps != [] {
      CarefulNeverReenters(w, steps[0]);
      CommitRepeatsExactly(w, steps[0]);
      StepKeepsOrderly(w, steps[0]);
      CarefulKeeps(w, steps[0]);
      EnteringOnce(Next(w, steps[0]), steps[1..]);
    }
  }

  lemma CarefulNeverReenters(w: World, s: Step)
    requires Orderly(w) && NoneReturns(w) && Enabled(w, s)
    ensures !(Commits(w, s) && Reenters(w))
  {
    hide Safe, Ledger, RowIds, Ids;
  }

  /**
    * Runs from the empty queue, all of them: always safe; with admissions in turn the history grows at its end
    * exactly when every replacement extends it; with the three rules no id enters twice.
    */
  lemma RunsFromEmpty(steps: seq<Step>)
    requires Allowed(EMPTY, steps)
    ensures Safe(Run(EMPTY, steps))
    ensures AllInTurn(EMPTY, steps) ==> (OnlyGrows(EMPTY, steps) <==> ReplacesExtend(EMPTY, steps))
    ensures AllCareful(EMPTY, steps) ==> NoRepeat(Run(EMPTY, steps).entered)
  {
    hide Allowed, Run, AllInTurn, AllCareful, OnlyGrows, ReplacesExtend;
    EmptyIsSafe();
    EveryRunIsSafe(EMPTY, steps);
    EmptyIsOrderly();
    if AllInTurn(EMPTY, steps) { HistoryOnlyGrows(EMPTY, steps); }
    if AllCareful(EMPTY, steps) { EnteringOnce(EMPTY, steps); }
  }

  // ---- What goes wrong otherwise ------------------------------------------------------------------------------

  lemma {:induction false} RunTwo(w: World, a: seq<Step>, b: seq<Step>)
    requires Allowed(w, a) && Allowed(Run(w, a), b)
    ensures Allowed(w, a + b) && Run(w, a + b) == Run(Run(w, a), b)
    ensures AllCareful(w, a + b) <==> AllCareful(w, a) && AllCareful(Run(w, a), b)
    decreases |a|
  {
    hide Careful, Enabled, Next;
    if a == [] {
      assert a + b == b;
    } else {
      assert (a + b)[1..] == a[1..] + b;
      RunTwo(Next(w, a[0]), a[1..], b);
    }
  }

  lemma OneStep(w: World, s: Step, to: World)
    requires Enabled(w, s) && Next(w, s) == to
    ensures Allowed(w, [s]) && Run(w, [s]) == to
    ensures AllCareful(w, [s]) <==> Careful(w, s)
  {
    assert [s][1..] == [];
  }

  lemma ThreeSteps(w: World, s1: Step, w1: World, s2: Step, w2: World, s3: Step, to: World)
    requires Enabled(w, s1) && Next(w, s1) == w1
    requires Enabled(w1, s2) && Next(w1, s2) == w2
    requires Enabled(w2, s3) && Next(w2, s3) == to
    ensures Allowed(w, [s1, s2, s3]) && Run(w, [s1, s2, s3]) == to
    ensures AllCareful(w, [s1, s2, s3]) <==> Careful(w, s1) && Careful(w1, s2) && Careful(w2, s3)
  {
    hide Enabled, Next, Allowed, Run, Careful, AllCareful;
    OneStep(w, s1, w1);
    OneStep(w1, s2, w2);
    OneStep(w2, s3, to);
    RunTwo(w, [s1], [s2]);
    RunTwo(w, [s1] + [s2], [s3]);
    assert [s1, s2, s3] == [s1] + [s2] + [s3];
  }

  const ROW := Row("a", "note")
  const LATER := Row("b", "note")
  const TICKET := Admission({"a"}, [])

  lemma OneRow(row: Row, known: set<string>)
    requires row.id !in known
    ensures RowIds([row]) == {row.id} && Ids([Context(row)]) == {row.id}
    ensures Fresh([row], {row.id}, known) == [Context(row)]
    ensures NewIds([Context(row)], known) == [row.id]
    ensures RowIds([]) == {} && Ids([]) == {}
  {
    assert [row][..0] == [] && [Context(row)][..0] == [];
    OneId(row);
  }

  /** Row a is written, and a prompt captures it. */
  const CAPTURED := EMPTY.(pending := [ROW], durable := {"a"}, tickets := {{"a"}})

  const ENQUEUE := [EnqueueLoad(ROW), EnqueueWrite(Replaced(true)), Capture]
  const ADMIT := [AdmitBegin({"a"}), AdmitLoad(TICKET), AdmitCommit(Persisted)]

  /** Row a is enqueued and captured; the host may do this to any idle world that does not hold it. */
  lemma RowIsCaptured(w: World)
    requires w.pending == [] && w.work.Free? && !w.uncertain && "a" !in Ids(w.history)
    ensures Allowed(w, ENQUEUE)
    ensures Run(w, ENQUEUE) == w.(pending := [ROW], durable := w.durable + {"a"}, tickets := w.tickets + {{"a"}})
    ensures AllCareful(w, ENQUEUE) <==> "a" !in w.dropped
  {
    OneRow(ROW, {});
    var w1 := w.(work := Saving(ROW, []));
    var w2 := w.(pending := [ROW], durable := w.durable + {"a"});
    assert Careful(w, EnqueueLoad(ROW)) <==> "a" !in w.dropped;
    hide Allowed, Run, RowIds, AllCareful;
    ThreeSteps(w, EnqueueLoad(ROW), w1, EnqueueWrite(Replaced(true)), w2, Capture, w2.(tickets := w.tickets + {{"a"}}));
  }

  /** A commit that succeeds, from the pieces it is made of. */
  lemma CommitMakes(w: World, added: seq<Entry>, news: seq<string>, ids: set<string>, left: set<string>)
    requires w.work.Admitting? && w.history == w.work.admission.base
    requires added == Fresh(w.work.rows, w.work.admission.captured, Ids(w.history)) && news == NewIds(added, Ids(w.stored))
    requires ids == RowIds(w.work.rows) * w.work.admission.captured
    requires left == w.left + (Ids(w.stored) - Ids(w.history + added))
    ensures Enabled(w, AdmitCommit(Persisted))
    ensures Next(w, AdmitCommit(Persisted)) ==
              w.(stored := w.history + added, history := w.history + added, left := left, entered := w.entered + news,
                 work := Retiring(w.work.rows, ids, true))
  {
    hide Ids, RowIds, Fresh, NewIds;
  }

  lemma CaptureMakes(w: World)
    requires w.work.Free? && !w.uncertain && w.tickets == {}
    ensures Enabled(w, Capture) && Careful(w, Capture) && Next(w, Capture) == w.(tickets := {RowIds(w.pending)})
  {
    hide RowIds, Ids;
  }

  lemma BeginMakes(w: World, captured: set<string>)
    requires w.work.Free? && !w.uncertain && captured in w.tickets && w.begun == {}
    ensures Enabled(w, AdmitBegin(captured)) && Careful(w, AdmitBegin(captured))
    ensures Next(w, AdmitBegin(captured)) == w.(begun := {Admission(captured, w.history)})
  {
    hide RowIds, Ids;
    assert {} + {Admission(captured, w.history)} == {Admission(captured, w.history)};
  }

  /** A prompt that captured row a admits it, up to the point where its row could be retired. */
  lemma RowIsAdmitted(w: World)
    requires w.pending == [ROW] && w.stored == w.history == [] && !w.uncertain && w.work.Free? && {"a"} in w.tickets && w.begun == {}
    ensures Allowed(w, ADMIT) && AllCareful(w, ADMIT)
    ensures Run(w, ADMIT) == w.(stored := [Context(ROW)], history := [Context(ROW)], entered := w.entered + ["a"],
                                work := Retiring([ROW], {"a"}, true))
  {
    OneRow(ROW, {});
    hide Allowed, Run, RowIds, Ids, Fresh, NewIds, AllCareful, Enabled, Next, Wanted;
    var w1 := w.(begun := {TICKET});
    var w2 := w.(work := Admitting(TICKET, [ROW]));
    var w3 := w.(stored := [Context(ROW)], history := [Context(ROW)], entered := w.entered + ["a"],
                 work := Retiring([ROW], {"a"}, true));
    BeginMakes(w, {"a"});
    LoadsTicket(w1);
    assert [] + [Context(ROW)] == [Context(ROW)] && w.left + ({} - {"a"}) == w.left && {"a"} * {"a"} == {"a"};
    CommitMakes(w2, [Context(ROW)], ["a"], {"a"}, w.left);
    ThreeSteps(w, AdmitBegin({"a"}), w1, AdmitLoad(TICKET), w2, AdmitCommit(Persisted), w3);
  }

  lemma LoadsTicket(w: World)
    requires w.pending == [ROW] && w.work.Free? && w.begun == {TICKET}
    ensures Enabled(w, AdmitLoad(TICKET)) && Next(w, AdmitLoad(TICKET)) == w.(begun := {}, work := Admitting(TICKET, [ROW]))
  {
    OneRow(ROW, {});
    hide Ids, Fresh;
    assert {TICKET} - {TICKET} == {};
  }

  /** The crash that leaves row a both in the history and in the queue. */
  const CRASHED := EMPTY.(pending := [ROW], stored := [Context(ROW)], history := [Context(ROW)], durable := {"a"}, entered := ["a"])

  lemma CrashLeavesBoth()
    ensures Allowed(EMPTY, ENQUEUE + ADMIT + [Crash]) && Run(EMPTY, ENQUEUE + ADMIT + [Crash]) == CRASHED
    ensures AllCareful(EMPTY, ENQUEUE + ADMIT + [Crash])
  {
    assert Ids([]) == {};
    RowIsCaptured(EMPTY);
    assert EMPTY.durable + {"a"} == {"a"} && EMPTY.tickets + {{"a"}} == {{"a"}};
    RowIsAdmitted(CAPTURED);
    hide Allowed, Run, AllCareful;
    RunTwo(EMPTY, ENQUEUE, ADMIT);
    OneStep(Run(CAPTURED, ADMIT), Crash, CRASHED);
    RunTwo(EMPTY, ENQUEUE + ADMIT, [Crash]);
  }

  /**
    * Without the second rule: a compaction drops the message whose row still waits, and the next prompt admits the
    * row again. Every other step keeps the rules.
    */
  lemma CarelessReplaceEntersTwice()
    ensures Allowed(CRASHED, [Replace([])] + [Capture] + ADMIT)
    ensures Run(CRASHED, [Replace([])] + [Capture] + ADMIT).entered == ["a", "a"]
    ensures Enabled(CRASHED, Replace([])) && !Careful(CRASHED, Replace([]))
    ensures var w := Next(CRASHED, Replace([])); Allowed(w, [Capture] + ADMIT) && AllCareful(w, [Capture] + ADMIT)
  {
    OneRow(ROW, {});
    assert "a" in Wanted(CRASHED) * Ids(CRASHED.history) && "a" !in Ids([]);
    hide Allowed, Run, RowIds, Ids, AllCareful;
    var w1 := CRASHED.(stored := [], history := [], dropped := {"a"}, left := {"a"});
    var w2 := w1.(tickets := {{"a"}});
    OneStep(CRASHED, Replace([]), w1);
    OneStep(w1, Capture, w2);
    RunTwo(CRASHED, [Replace([])], [Capture]);
    RowIsAdmitted(w2);
    RunTwo(w1, [Capture], ADMIT);
    RunTwo(CRASHED, [Replace([])] + [Capture], ADMIT);
  }

  /** Row a was admitted and retired, and a reset has dropped its message since. */
  const DROPPED := EMPTY.(durable := {"a"}, dropped := {"a"}, left := {"a"}, entered := ["a"], tickets := {{"a"}})

  lemma RowIsDropped()
    ensures var s := ENQUEUE + ADMIT + [AdmitRetire(Replaced(true)), Replace([])];
            Allowed(EMPTY, s) && AllCareful(EMPTY, s) && Run(EMPTY, s) == DROPPED
  {
    assert Ids([]) == {};
    RowIsCaptured(EMPTY);
    assert EMPTY.durable + {"a"} == {"a"} && EMPTY.tickets + {{"a"}} == {{"a"}};
    RowIsAdmitted(CAPTURED);
    var end := [AdmitRetire(Replaced(true)), Replace([])];
    RetiredAndDropped(Run(CAPTURED, ADMIT));
    hide Allowed, Run, AllCareful;
    RunTwo(EMPTY, ENQUEUE, ADMIT);
    RunTwo(EMPTY, ENQUEUE + ADMIT, end);
  }

  lemma RetiredAndDropped(w: World)
    requires w == CAPTURED.(stored := [Context(ROW)], history := [Context(ROW)], entered := ["a"], work := Retiring([ROW], {"a"}, true))
    ensures var s := [AdmitRetire(Replaced(true)), Replace([])]; Allowed(w, s) && AllCareful(w, s) && Run(w, s) == DROPPED
  {
    OneRow(ROW, {});
    RowRetires();
    hide Allowed, Run, AllCareful, RowIds, Ids, RemainingRows;
    var w1 := w.(work := Free, pending := []);
    OneStep(w, AdmitRetire(Replaced(true)), w1);
    OneStep(w1, Replace([]), DROPPED);
    RunTwo(w, [AdmitRetire(Replaced(true))], [Replace([])]);
    assert [AdmitRetire(Replaced(true)), Replace([])] == [AdmitRetire(Replaced(true))] + [Replace([])];
  }

  lemma RowRetires()
    ensures RemainingRows([ROW], {"a"}) == []
  {
    assert [ROW][..0] == [];
  }

  /** Without the third rule: the id is enqueued again, and the next prompt admits it again. */
  lemma DroppedIdEntersAgain()
    ensures Allowed(DROPPED, ENQUEUE + ADMIT) && Run(DROPPED, ENQUEUE + ADMIT).entered == ["a", "a"]
    ensures Enabled(DROPPED, EnqueueLoad(ROW)) && !Careful(DROPPED, EnqueueLoad(ROW))
    ensures var w := Next(DROPPED, EnqueueLoad(ROW)); Allowed(w, ENQUEUE[1..] + ADMIT) && AllCareful(w, ENQUEUE[1..] + ADMIT)
  {
    assert Ids([]) == {} && RowIds([]) == {};
    RowIsCaptured(DROPPED);
    var w := Run(DROPPED, ENQUEUE);
    RowIsAdmitted(w);
    RunTwo(DROPPED, ENQUEUE, ADMIT);
    var w1 := Next(DROPPED, ENQUEUE[0]);
    assert AllCareful(w1, ENQUEUE[1..]) by { SavedAndCaptured(w1); }
    assert Run(w1, ENQUEUE[1..]) == w;
    RunTwo(w1, ENQUEUE[1..], ADMIT);
  }

  lemma SavedAndCaptured(w: World)
    requires Allowed(w, ENQUEUE[1..])
    ensures AllCareful(w, ENQUEUE[1..])
  {
    assert ENQUEUE[1..][1..] == [Capture] && [Capture][1..] == [];
  }

  /** Two rows wait, and two admissions were begun: one captured both rows, the other only the first. */
  const BOTH := Admission({"a", "b"}, [])
  const OVERLAP := EMPTY.(pending := [ROW, LATER], durable := {"a", "b"}, tickets := {{"a"}, {"a", "b"}}, begun := {TICKET, BOTH})

  lemma TwoRows()
    ensures RowIds([ROW, LATER]) == {"a", "b"}
    ensures Fresh([ROW, LATER], {"a", "b"}, {}) == [Context(ROW), Context(LATER)]
    ensures Fresh([ROW, LATER], {"a"}, {}) == [Context(ROW)]
    ensures Fresh([ROW, LATER], {"a", "b"}, {"a"}) == [Context(LATER)]
    ensures NewIds([Context(ROW), Context(LATER)], {}) == ["a", "b"]
    ensures NewIds([Context(ROW)], {"a", "b"}) == [] && NewIds([Context(LATER)], {"a"}) == ["b"]
    ensures Ids([Context(ROW), Context(LATER)]) == {"a", "b"}
  {
    OneRow(ROW, {});
    OneRow(LATER, {"a"});
    assert [ROW, LATER] == [ROW] + [LATER] && [Context(ROW), Context(LATER)] == [Context(ROW)] + [Context(LATER)];
    RowIdsSplit([ROW], [LATER]);
    IdsSplit([Context(ROW)], [Context(LATER)]);
    OneId(LATER);
    assert [ROW, LATER][..1] == [ROW] && [Context(ROW), Context(LATER)][..1] == [Context(ROW)] && [ROW][..0] == [];
    assert [Context(ROW)][..0] == [];
    assert Fresh([ROW], {"a", "b"}, {}) == [Context(ROW)] && Fresh([ROW], {"a", "b"}, {"a"}) == [];
  }

  /** The way to the overlap keeps the rules, up to the second admission. */
  const BEFORE_OVERLAP := ENQUEUE + [EnqueueLoad(LATER), EnqueueWrite(Replaced(true)), Capture] + [AdmitBegin({"a"})]

  lemma OverlapIsReached()
    ensures Allowed(EMPTY, BEFORE_OVERLAP) && AllCareful(EMPTY, BEFORE_OVERLAP)
    ensures var w := Run(EMPTY, BEFORE_OVERLAP);
            Enabled(w, AdmitBegin({"a", "b"})) && !Careful(w, AdmitBegin({"a", "b"})) && Next(w, AdmitBegin({"a", "b"})) == OVERLAP
    ensures Orderly(Run(EMPTY, BEFORE_OVERLAP)) && Booked(OVERLAP)
  {
    assert Ids([]) == {};
    RowIsCaptured(EMPTY);
    assert EMPTY.durable + {"a"} == {"a"} && EMPTY.tickets + {{"a"}} == {{"a"}};
    LaterIsCaptured();
    hide Allowed, Run, RowIds, Ids, AllCareful, Safe, Ledger, Serial;
    var second := [EnqueueLoad(LATER), EnqueueWrite(Replaced(true)), Capture];
    var w3 := CAPTURED.(pending := [ROW, LATER], durable := {"a", "b"}, tickets := {{"a"}, {"a", "b"}});
    RunTwo(EMPTY, ENQUEUE, second);
    var w4 := w3.(begun := {TICKET});
    OneStep(w3, AdmitBegin({"a"}), w4);
    RunTwo(EMPTY, ENQUEUE + second, [AdmitBegin({"a"})]);
    EmptyIsOrderly();
    CarefulInTurn(EMPTY, BEFORE_OVERLAP);
    HistoryOnlyGrows(EMPTY, BEFORE_OVERLAP);
    assert {TICKET} + {BOTH} == {TICKET, BOTH};
    StepKeepsSafe(w4, AdmitBegin({"a", "b"}));
    StepKeepsLedger(w4, AdmitBegin({"a", "b"}));
  }

  lemma {:induction false} CarefulInTurn(w: World, steps: seq<Step>)
    requires Allowed(w, steps) && AllCareful(w, steps)
    ensures AllInTurn(w, steps)
    decreases |steps|
  {
    hide Next, Enabled;
    if steps != [] { CarefulInTurn(Next(w, steps[0]), steps[1..]); }
  }

  lemma LaterIsWritten(w1: World, w2: World)
    requires w1 == CAPTURED.(work := Saving(LATER, [ROW])) && w2 == CAPTURED.(pending := [ROW, LATER], durable := {"a", "b"})
    ensures Enabled(CAPTURED, EnqueueLoad(LATER)) && Next(CAPTURED, EnqueueLoad(LATER)) == w1
    ensures Enabled(w1, EnqueueWrite(Replaced(true))) && Next(w1, EnqueueWrite(Replaced(true))) == w2
    ensures Careful(CAPTURED, EnqueueLoad(LATER)) && Careful(w1, EnqueueWrite(Replaced(true)))
  {
    OneRow(ROW, {});
    TwoRows();
    hide RowIds;
    assert {"a"} + {"b"} == {"a", "b"};
  }

  lemma BothAreCaptured(w2: World)
    requires w2 == CAPTURED.(pending := [ROW, LATER], durable := {"a", "b"})
    ensures Enabled(w2, Capture) && Next(w2, Capture) == w2.(tickets := {{"a"}, {"a", "b"}}) && Careful(w2, Capture)
  {
    TwoRows();
    hide RowIds;
    assert {{"a"}} + {{"a", "b"}} == {{"a"}, {"a", "b"}};
  }

  lemma LaterIsCaptured()
    ensures var s := [EnqueueLoad(LATER), EnqueueWrite(Replaced(true)), Capture];
            && Allowed(CAPTURED, s) && AllCareful(CAPTURED, s)
            && Run(CAPTURED, s) == CAPTURED.(pending := [ROW, LATER], durable := {"a", "b"}, tickets := {{"a"}, {"a", "b"}})
  {
    hide Allowed, Run, AllCareful, Enabled, Next, Careful;
    var w1 := CAPTURED.(work := Saving(LATER, [ROW]));
    var w2 := CAPTURED.(pending := [ROW, LATER], durable := {"a", "b"});
    LaterIsWritten(w1, w2);
    BothAreCaptured(w2);
    ThreeSteps(CAPTURED, EnqueueLoad(LATER), w1, EnqueueWrite(Replaced(true)), w2, Capture,
               w2.(tickets := {{"a"}, {"a", "b"}}));
  }

  /** The first admission fails after its write, and the second, begun before, goes on all the same. */
  const LOSE := [AdmitLoad(BOTH), AdmitCommit(Failed(true, false)), AdmitLoad(TICKET)]
  const LOST := OVERLAP.(begun := {}, stored := [Context(ROW)], history := [Context(ROW)], entered := ["a", "b"], left := {"b"},
                         uncertain := true, work := Retiring([ROW, LATER], {"a"}, true))

  /** Without the first rule: a message that was stored disappears from the stored history again. */
  lemma OverlapRewritesHistory()
    ensures Allowed(OVERLAP, LOSE) && Run(OVERLAP, LOSE).stored == [Context(ROW), Context(LATER)] && LOST.stored == [Context(ROW)]
    ensures Allowed(OVERLAP, LOSE + [AdmitCommit(Persisted)]) && Run(OVERLAP, LOSE + [AdmitCommit(Persisted)]) == LOST
    ensures AllCareful(OVERLAP, LOSE + [AdmitCommit(Persisted)])
  {
    TwoRows();
    OneRow(ROW, {});
    hide Allowed, Run, RowIds, Ids, Fresh, NewIds, AllCareful;
    var w1 := OVERLAP.(begun := {TICKET}, work := Admitting(BOTH, [ROW, LATER]));
    var w2 := OVERLAP.(begun := {TICKET}, stored := [Context(ROW), Context(LATER)], entered := ["a", "b"], uncertain := true);
    var w3 := w2.(begun := {}, work := Admitting(TICKET, [ROW, LATER]));
    BothLoads(w1);
    BothFails(w1, w2);
    TicketLoads(w2, w3);
    assert [] + [Context(ROW)] == [Context(ROW)] && ["a", "b"] + [] == ["a", "b"];
    assert {} + ({"a", "b"} - {"a"}) == {"b"} && {"a", "b"} * {"a"} == {"a"};
    CommitMakes(w3, [Context(ROW)], [], {"a"}, {"b"});
    hide Enabled, Next;
    ThreeSteps(OVERLAP, AdmitLoad(BOTH), w1, AdmitCommit(Failed(true, false)), w2, AdmitLoad(TICKET), w3);
    OneStep(w3, AdmitCommit(Persisted), LOST);
    RunTwo(OVERLAP, LOSE, [AdmitCommit(Persisted)]);
  }

  lemma BothLoads(w1: World)
    requires w1 == OVERLAP.(begun := {TICKET}, work := Admitting(BOTH, [ROW, LATER]))
    ensures Enabled(OVERLAP, AdmitLoad(BOTH)) && Next(OVERLAP, AdmitLoad(BOTH)) == w1
  {
    TwoRows();
    hide RowIds, Fresh;
    assert Ids([]) == {};
    assert {TICKET, BOTH} - {BOTH} == {TICKET} by { assert "b" in BOTH.captured && "b" !in TICKET.captured; }
  }

  /** A commit that fails after its write, from the pieces it is made of. */
  lemma FailureMakes(w: World, added: seq<Entry>, news: seq<string>, left: set<string>)
    requires w.work.Admitting? && w.history == w.work.admission.base
    requires added == Fresh(w.work.rows, w.work.admission.captured, Ids(w.history)) && news == NewIds(added, Ids(w.stored))
    requires left == w.left + (Ids(w.stored) - Ids(w.history + added))
    ensures Enabled(w, AdmitCommit(Failed(true, false)))
    ensures Next(w, AdmitCommit(Failed(true, false))) ==
              w.(stored := w.history + added, left := left, entered := w.entered + news, work := Free, uncertain := true)
  {
    hide Ids, RowIds, Fresh, NewIds;
  }

  lemma BothFails(w1: World, w2: World)
    requires w1 == OVERLAP.(begun := {TICKET}, work := Admitting(BOTH, [ROW, LATER]))
    requires w2 == OVERLAP.(begun := {TICKET}, stored := [Context(ROW), Context(LATER)], entered := ["a", "b"], uncertain := true)
    ensures Enabled(w1, AdmitCommit(Failed(true, false))) && Next(w1, AdmitCommit(Failed(true, false))) == w2
  {
    TwoRows();
    assert Ids([]) == {};
    hide RowIds, Ids, Fresh, NewIds, Next, Enabled;
    FailureMakes(w1, [Context(ROW), Context(LATER)], ["a", "b"], {});
    assert [] + [Context(ROW), Context(LATER)] == [Context(ROW), Context(LATER)] && [] + ["a", "b"] == ["a", "b"];
  }

  lemma TicketLoads(w2: World, w3: World)
    requires w2 == OVERLAP.(begun := {TICKET}, stored := [Context(ROW), Context(LATER)], entered := ["a", "b"], uncertain := true)
    requires w3 == w2.(begun := {}, work := Admitting(TICKET, [ROW, LATER]))
    ensures Enabled(w2, AdmitLoad(TICKET)) && Next(w2, AdmitLoad(TICKET)) == w3
  {
    TwoRows();
    hide RowIds, Fresh;
    assert Ids([]) == {};
    assert {TICKET} - {TICKET} == {};
  }

  const AGAIN := Admission({"a", "b"}, [Context(ROW)])

  /** After the restart both rows still wait, and a prompt captures them. */
  const WAITING := Restarted(LOST).(tickets := {{"a", "b"}})

  lemma AgainLoads()
    ensures var w := WAITING.(begun := {AGAIN});
            Enabled(w, AdmitLoad(AGAIN)) && Next(w, AdmitLoad(AGAIN)) == WAITING.(work := Admitting(AGAIN, [ROW, LATER]))
  {
    TwoRows();
    OneRow(ROW, {});
    hide RowIds, Ids, Fresh;
    assert {AGAIN} - {AGAIN} == {};
  }

  lemma CrashMakes(w: World)
    ensures Enabled(w, Crash) && Careful(w, Crash) && Next(w, Crash) == Restarted(w)
  {
    hide RowIds, Ids;
  }

  lemma AgainCaptures()
    ensures var s := [Crash, Capture, AdmitBegin({"a", "b"})];
            Allowed(LOST, s) && AllCareful(LOST, s) && Run(LOST, s) == WAITING.(begun := {AGAIN})
  {
    TwoRows();
    hide RowIds, Ids, Allowed, Run, AllCareful, Enabled, Next, Careful;
    CrashMakes(LOST);
    CaptureMakes(Restarted(LOST));
    BeginMakes(WAITING, {"a", "b"});
    ThreeSteps(LOST, Crash, Restarted(LOST), Capture, WAITING, AdmitBegin({"a", "b"}), WAITING.(begun := {AGAIN}));
  }

  lemma AgainCommits()
    ensures var w := WAITING.(work := Admitting(AGAIN, [ROW, LATER]));
            Enabled(w, AdmitCommit(Persisted)) && Next(w, AdmitCommit(Persisted)).entered == ["a", "b", "b"]
  {
    TwoRows();
    OneRow(ROW, {});
    hide RowIds, Ids, Fresh, NewIds, Enabled, Next;
    var w := WAITING.(work := Admitting(AGAIN, [ROW, LATER]));
    CommitMakes(w, [Context(LATER)], ["b"], {"a", "b"} * {"a", "b"}, w.left + (Ids(w.stored) - Ids(w.history + [Context(LATER)])));
    assert ["a", "b"] + ["b"] == ["a", "b", "b"];
  }

  /** And its row, which still waits, enters a second time. */
  lemma OverlapEntersTwice()
    ensures var s := [Crash, Capture, AdmitBegin({"a", "b"})] + [AdmitLoad(AGAIN)] + [AdmitCommit(Persisted)];
            Allowed(LOST, s) && AllCareful(LOST, s) && Run(LOST, s).entered == ["a", "b", "b"]
  {
    AgainCaptures();
    AgainLoads();
    AgainCommits();
    hide Allowed, Run, AllCareful, Enabled, Next;
    var begin := [Crash, Capture, AdmitBegin({"a", "b"})];
    var w := WAITING.(work := Admitting(AGAIN, [ROW, LATER]));
    OneStep(WAITING.(begun := {AGAIN}), AdmitLoad(AGAIN), w);
    RunTwo(LOST, begin, [AdmitLoad(AGAIN)]);
    OneStep(w, AdmitCommit(Persisted), Next(w, AdmitCommit(Persisted)));
    RunTwo(LOST, begin + [AdmitLoad(AGAIN)], [AdmitCommit(Persisted)]);
  }
}
