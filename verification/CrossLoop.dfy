/**
  * Handing a coroutine to another thread's loop and waiting for it, in interleaved atomic steps (cross_loop.py).
  * The remote loop runs what was scheduled on it; the caller's loop waits, and may be cancelled again and again.
  */
module CrossLoop {
  import opened TextCodecs

  datatype Result = Value(v: int) | Failure | Cancelled

  /** The coroutine object: not yet used, running as a task, closed unused, or at its end. */
  datatype Work = Unused | Running(cancelRequested: bool) | Closed | Ended(outcome: Result)

  /** The waiting coroutine of the caller. */
  datatype Waiter = Waiting | Joining | Returned(result: Result) | RaisedCancelled

  /**
    * `startPending` and `cancelPending`: the callback is scheduled and has not run. `donePending`: the remote side
    * still has a future to set. The last three count uses of the coroutine, settlements and requests to cancel it.
    */
  datatype State = State(
    work: Work,
    startPending: bool,
    cancelPending: bool,
    donePending: bool,
    result: Option<Result>,
    settled: bool,
    canceled: bool,
    waiter: Waiter,
    used: nat,
    settlements: nat,
    requests: nat)

  /** `submit_remote` up to its return. */
  const SUBMITTED := State(Unused, true, false, false, None, false, false, Waiting, 0, 0, 0)

  /** The first five are steps of the remote loop, the others of the caller's. */
  datatype Step = Start(created: bool) | Cancel | Finish(outcome: Result) | PublishResult | PublishSettled | Receive | CancelCaller | Join

  predicate Enabled(s: State, step: Step) {
    match step
    case Start(_) => s.startPending
    case Cancel => s.cancelPending
    case Finish(_) => s.work.Running?
    case PublishResult => s.donePending && s.result.None?
    case PublishSettled => s.donePending && s.result.Some?
    case Receive => s.waiter.Waiting? && s.result.Some?
    case CancelCaller => s.waiter.Waiting? || s.waiter.Joining?
    case Join => s.waiter.Joining? && s.settled
  }

  /** A waiter that is cancelled asks for the cancellation of the work, if that is not over, and joins. */
  function Joined(s: State): State {
    s.(canceled := true, cancelPending := s.cancelPending || !s.settled, waiter := Joining)
  }

  function Next(s: State, step: Step): State
    requires Enabled(s, step)
  {
    match step
    case Start(created) =>
      var started := s.(startPending := false, used := s.used + 1);
      if s.canceled || !created
      then started.(work := Closed, result := Some(if s.canceled then Cancelled else Failure), donePending := true)
      else started.(work := Running(false))
    case Cancel =>
      if s.work.Running? && !s.work.cancelRequested
      then s.(cancelPending := false, work := Running(true), requests := s.requests + 1) else s.(cancelPending := false)
    case Finish(outcome) => s.(work := Ended(outcome), donePending := true)
    case PublishResult => if s.work.Ended? then s.(result := Some(s.work.outcome)) else s
    case PublishSettled => s.(settled := true, donePending := false, settlements := s.settlements + 1)
    case Receive => if s.result.value.Cancelled? then Joined(s) else s.(waiter := Returned(s.result.value))
    case CancelCaller => if s.waiter.Waiting? then Joined(s) else s
    case Join => s.(waiter := RaisedCancelled)
  }

  predicate Allowed(s: State, steps: seq<Step>)
    decreases |steps|
  {
    steps == [] || (Enabled(s, steps[0]) && Allowed(Next(s, steps[0]), steps[1..]))
  }

  function Run(s: State, steps: seq<Step>): State
    requires Allowed(s, steps)
    decreases |steps|
  {
    if steps == [] then s else Run(Next(s, steps[0]), steps[1..])
  }

  // ---- What every step keeps -----------------------------------------------------------------------------

  /** Used once, settled once, and settled only when the remote side is really done. */
  predicate Consistent(s: State) {
    && (s.startPending <==> s.work.Unused?)
    && s.used == (if s.work.Unused? then 0 else 1)
    && s.settlements == (if s.settled then 1 else 0)
    && (s.settled || s.donePending <==> s.work.Closed? || s.work.Ended?)
    && !(s.settled && s.donePending)
    && (s.settled || s.work.Closed? ==> s.result.Some?)
    && (s.work.Unused? || s.work.Running? ==> s.result.None?)
    && (s.work.Ended? && s.result.Some? ==> s.result.value == s.work.outcome)
    && (s.work.Closed? ==> s.result == Some(Cancelled) || s.result == Some(Failure))
    && (s.work.Running? ==> s.requests == if s.work.cancelRequested then 1 else 0)
    && (s.work.Unused? || s.work.Closed? ==> s.requests == 0) && s.requests <= 1
    && (s.waiter.Waiting? ==> !s.canceled && !s.cancelPending && s.requests == 0)
    && (s.waiter.Returned? ==> !s.canceled && s.result == Some(s.waiter.result) && !s.waiter.result.Cancelled?)
    && (s.waiter.RaisedCancelled? ==> s.canceled && s.settled)
    && (s.waiter.Joining? ==> s.canceled)
  }

  lemma StepKeepsConsistent(s: State, step: Step)
    requires Consistent(s) && Enabled(s, step)
    ensures Consistent(Next(s, step))
  {
  }

  lemma {:induction false} RunKeepsConsistent(s: State, steps: seq<Step>)
    requires Consistent(s) && Allowed(s, steps)
    ensures Consistent(Run(s, steps))
    decreases |steps|
  {
    hide Consistent, Enabled, Next;
    if steps != [] {
      StepKeepsConsistent(s, steps[0]);
      RunKeepsConsistent(Next(s, steps[0]), steps[1..]);
    }
  }

  /** Once there, a result, a settlement and the end of a wait stay as they are; a joining waiter can only leave by its cancellation. */
  predicate Keeps(s: State, e: State) {
    && (s.result.Some? ==> e.result == s.result)
    && (s.settled ==> e.settled)
    && (s.canceled ==> e.canceled)
    && (s.waiter.Returned? || s.waiter.RaisedCancelled? ==> e.waiter == s.waiter)
    && (s.waiter.Joining? ==> e.waiter.Joining? || e.waiter.RaisedCancelled?)
    && (s.work.Closed? ==> e.work.Closed?)
    && (s.work.Running? || s.work.Ended? ==> e.work.Running? || e.work.Ended?)
  }

  lemma StepKeeps(s: State, step: Step)
    requires Consistent(s) && Enabled(s, step)
    ensures Keeps(s, Next(s, step))
  {
  }

  lemma {:induction false} RunKeeps(s: State, steps: seq<Step>)
    requires Consistent(s) && Allowed(s, steps)
    ensures Keeps(s, Run(s, steps))
    decreases |steps|
  {
    hide Consistent, Enabled, Next;
    if steps != [] {
      StepKeepsConsistent(s, steps[0]);
      StepKeeps(s, steps[0]);
      RunKeeps(Next(s, steps[0]), steps[1..]);
    }
  }

  // ---- What whole runs come to -----------------------------------------------------------------------------

  /** The first thing that happens to the waiter: the result, or a cancellation. */
  function First(steps: seq<Step>): Option<Step> {
    if steps == [] then None
    else if steps[0].Receive? || steps[0].CancelCaller? then Some(steps[0]) else First(steps[1..])
  }

  /** What the first thing makes of the wait, once the run has come to `e`. */
  predicate Decided(e: State, first: Option<Step>) {
    match first
    case None => e.waiter.Waiting?
    case Some(step) =>
      if step.CancelCaller? || e.result == Some(Cancelled) then e.canceled && (e.waiter.Joining? || e.waiter.RaisedCancelled?)
      else !e.canceled && e.result.Some? && e.waiter == Returned(e.result.value)
  }

  lemma FirstDecides(s: State, step: Step)
    requires Consistent(s) && s.waiter.Waiting? && Enabled(s, step)
    ensures step.Receive? || step.CancelCaller? ==> Decided(Next(s, step), Some(step))
    ensures step.Receive? ==> s.result.Some?
    ensures !step.Receive? && !step.CancelCaller? ==> Next(s, step).waiter.Waiting?
  {
  }

  lemma DecidedStays(s: State, e: State, step: Step)
    requires Consistent(s) && Consistent(e) && Keeps(s, e) && Decided(s, Some(step)) && (step.Receive? ==> s.result.Some?)
    ensures Decided(e, Some(step))
  {
  }

  /**
    * In every interleaving the first thing that happens to the waiter decides: a cancellation, its own or that of
    * the work, makes it raise and nothing else, and only otherwise it returns, exactly what the work came to.
    */
  lemma {:induction false} FirstWins(s: State, steps: seq<Step>)
    requires Consistent(s) && s.waiter.Waiting? && Allowed(s, steps)
    ensures Decided(Run(s, steps), First(steps))
    decreases |steps|
  {
    hide Consistent, Enabled, Next, Keeps;
    if steps != [] {
      var t := Next(s, steps[0]);
      FirstDecides(s, steps[0]);
      StepKeepsConsistent(s, steps[0]);
      if steps[0].Receive? || steps[0].CancelCaller? {
        StepKeeps(s, steps[0]);
        ResultStays(s, t);
        RunKeepsConsistent(t, steps[1..]);
        RunKeeps(t, steps[1..]);
        DecidedStays(t, Run(t, steps[1..]), steps[0]);
      } else {
        FirstWins(t, steps[1..]);
      }
    }
  }

  lemma ResultStays(s: State, t: State)
    requires Keeps(s, t)
    ensures s.result.Some? ==> t.result.Some?
  {
  }

  /** The work is started before the caller is cancelled, if it is. */
  predicate StartsFirst(steps: seq<Step>) {
    steps != [] && if steps[0].Start? then steps[0].created else !steps[0].CancelCaller? && StartsFirst(steps[1..])
  }

  predicate HasRun(s: State) {
    s.work.Running? || s.work.Ended?
  }

  /** A step before the start: only a cancellation can be in the way of it. */
  lemma BeforeStart(s: State, step: Step)
    requires Consistent(s) && s.work.Unused? && Enabled(s, step)
    ensures !s.canceled ==> (step.Start? ==> (HasRun(Next(s, step)) <==> step.created))
    ensures step.Start? ==> !Next(s, step).work.Unused? && (s.canceled ==> !HasRun(Next(s, step)))
    ensures !step.Start? ==> Next(s, step).work.Unused?
    ensures !step.Start? && !step.CancelCaller? ==> Next(s, step).canceled == s.canceled
    ensures step.CancelCaller? ==> Next(s, step).canceled
  {
  }

  /** A caller cancelled before the start: the coroutine never runs. */
  lemma {:induction false} NeverRuns(s: State, steps: seq<Step>)
    requires Consistent(s) && s.work.Unused? && s.canceled && Allowed(s, steps)
    ensures !HasRun(Run(s, steps))
    decreases |steps|
  {
    hide Consistent, Enabled, Next;
    if steps != [] {
      var t := Next(s, steps[0]);
      BeforeStart(s, steps[0]);
      StepKeepsConsistent(s, steps[0]);
      if steps[0].Start? {
        RunKeeps(t, steps[1..]);
      } else {
        StepKeeps(s, steps[0]);
        NeverRuns(t, steps[1..]);
      }
    }
  }

  /** The coroutine runs exactly when it can be started and the caller was not cancelled before that. */
  lemma {:induction false} RunsExactly(s: State, steps: seq<Step>)
    requires Consistent(s) && s.work.Unused? && !s.canceled && Allowed(s, steps)
    ensures HasRun(Run(s, steps)) <==> StartsFirst(steps)
    decreases |steps|
  {
    hide Consistent, Enabled, Next;
    if steps != [] {
      var t := Next(s, steps[0]);
      BeforeStart(s, steps[0]);
      StepKeepsConsistent(s, steps[0]);
      if steps[0].Start? {
        RunKeeps(t, steps[1..]);
      } else if steps[0].CancelCaller? {
        NeverRuns(t, steps[1..]);
      } else {
        RunsExactly(t, steps[1..]);
      }
    }
  }

  lemma SubmittedIsConsistent()
    ensures Consistent(SUBMITTED)
  {
  }

  /**
    * Every run from the submission on: the coroutine is used, settled and asked to cancel at most once; it runs
    * exactly when it is started before a cancellation of the caller; who waits gets what the first thing that
    * happens to it says; and who raises does so only when the work is over and its settlement published.
    */
  lemma EveryRun(steps: seq<Step>)
    requires Allowed(SUBMITTED, steps)
    ensures var e := Run(SUBMITTED, steps);
            && e.used <= 1 && e.settlements <= 1 && e.requests <= 1 && (e.settled ==> e.used == 1 && e.settlements == 1)
            && (HasRun(e) <==> StartsFirst(steps))
            && Decided(e, First(steps))
            && (e.waiter.RaisedCancelled? ==> e.settled && e.used == 1 && !e.donePending && (e.work.Closed? || e.work.Ended?))
            && (e.waiter.Returned? ==> !e.canceled && e.result == Some(e.waiter.result) && !e.waiter.result.Cancelled?)
            && (e.waiter.Returned? ==> e.work.Closed? || e.work == Ended(e.waiter.result))
  {
    hide Allowed, Run, StartsFirst, First;
    RunKeepsConsistent(SUBMITTED, steps);
    RunsExactly(SUBMITTED, steps);
    FirstWins(SUBMITTED, steps);
  }

  predicate OfRemote(step: Step) {
    step.Start? || step.Cancel? || step.Finish? || step.PublishResult? || step.PublishSettled?
  }

  /** From every state the remote side can settle: no step of it waits for the caller, who can then leave. */
  lemma CanSettle(s: State, created: bool, outcome: Result) returns (steps: seq<Step>)
    requires Consistent(s)
    ensures Allowed(s, steps) && forall step | step in steps :: OfRemote(step)
    ensures var e := Run(s, steps);
            && e.settled && e.waiter == s.waiter
            && (e.waiter.Waiting? ==> Enabled(e, Receive)) && (e.waiter.Joining? ==> Enabled(e, Join))
    decreases if s.startPending then 4 else if s.work.Running? then 3 else if s.result.None? then 2 else if s.settled then 0 else 1
  {
    if s.settled { return []; }
    var step := if s.startPending then Start(created) else if s.work.Running? then Finish(outcome)
                else if s.result.None? then PublishResult else PublishSettled;
    StepKeepsConsistent(s, step);
    var rest := CanSettle(Next(s, step), created, outcome);
    steps := [step] + rest;
  }

  // ---- The objects -----------------------------------------------------------------------------------------

  class Remote {
    var work: Work
    var startPending: bool
    var cancelPending: bool
    var donePending: bool
    var result: Option<Result>
    var settled: bool
    var canceled: bool
    var waiter: Waiter
    ghost var used: nat
    ghost var settlements: nat
    ghost var requests: nat

    ghost function Now(): State
      reads this
    {
      State(work, startPending, cancelPending, donePending, result, settled, canceled, waiter, used, settlements, requests)
    }

    constructor ()
      ensures Now() == SUBMITTED
    {
      work, startPending, cancelPending, donePending := Unused, true, false, false;
      result, settled, canceled, waiter := None, false, false, Waiting;
      used, settlements, requests := 0, 0, 0;
    }

    // ---- Steps of the remote loop ------------------------------------------------------------------------

    /** `start` up to the result; `created` tells whether the loop can start the coroutine. */
    method Start(created: bool)
      requires Consistent(Now()) && startPending
      modifies this
      ensures Consistent(Now()) && Now() == Next(old(Now()), Step.Start(created))
      ensures used == 1 && waiter == old(waiter) && canceled == old(canceled) && !settled
      ensures work == if canceled || !created then Closed else Running(false)
      ensures result == if canceled then Some(Cancelled) else if created then None else Some(Failure)
    {
      startPending := false;
      used := used + 1;
      if canceled || !created {
        work, donePending := Closed, true;
        result := Some(if canceled then Cancelled else Failure);
      } else {
        work := Running(false);
      }
    }

    /** The scheduled `cancel`: it asks the running coroutine once, unless it was asked before. */
    method Cancel()
      requires Consistent(Now()) && cancelPending
      modifies `cancelPending, `work, `requests
      ensures Consistent(Now()) && Now() == Next(old(Now()), Step.Cancel)
      ensures requests <= 1 && (old(work).Running? ==> work == Running(true))
    {
      cancelPending := false;
      if work.Running? && !work.cancelRequested {
        work := Running(true);
        requests := requests + 1;
      }
    }

    /** The coroutine ends; a cancelled one may still return a value or fail. */
    method Finish(outcome: Result)
      requires Consistent(Now()) && work.Running?
      modifies `work, `donePending
      ensures Consistent(Now()) && Now() == Next(old(Now()), Step.Finish(outcome))
    {
      work, donePending := Ended(outcome), true;
    }

    /** The first half of `done`: the result is there, and the caller may see it at once. */
    method PublishResult()
      requires Consistent(Now()) && donePending && result.None?
      modifies `result
      ensures Consistent(Now()) && Now() == Next(old(Now()), Step.PublishResult)
      ensures work.Ended? && result == Some(work.outcome) && !settled
    {
      result := Some(work.outcome);
    }

    /** The second half of `done`, and of a `start` that closes the coroutine. */
    method PublishSettled()
      requires Consistent(Now()) && donePending && result.Some?
      modifies `settled, `settlements, `donePending
      ensures Consistent(Now()) && Now() == Next(old(Now()), Step.PublishSettled)
      ensures settled && settlements == 1
    {
      settled, donePending := true, false;
      settlements := settlements + 1;
    }

    // ---- Steps of the caller's loop ------------------------------------------------------------------------

    /**
      * The waiter resumes with the result. A remote run that ended cancelled looks like a cancellation of the
      * caller: the waiter joins the settlement before it goes on.
      */
    method Receive()
      requires Consistent(Now()) && waiter.Waiting? && result.Some?
      modifies `waiter, `canceled, `cancelPending
      ensures Consistent(Now()) && Now() == Next(old(Now()), Step.Receive)
      ensures !result.value.Cancelled? ==> waiter == Returned(result.value) && !canceled && !cancelPending
      ensures result.value.Cancelled? ==> waiter.Joining? && canceled && (cancelPending <==> !settled)
    {
      if result.value.Cancelled? {
        canceled := true;
        if !settled { cancelPending := true; }
        waiter := Joining;
      } else {
        waiter := Returned(result.value);
      }
    }

    /** The caller is cancelled; again while it joins, nothing happens. */
    method CancelCaller()
      requires Consistent(Now()) && (waiter.Waiting? || waiter.Joining?)
      modifies `canceled, `cancelPending, `waiter
      ensures Consistent(Now()) && Now() == Next(old(Now()), Step.CancelCaller)
      ensures waiter.Joining? && canceled && (old(waiter).Joining? ==> Now() == old(Now()))
    {
      if waiter.Waiting? {
        canceled := true;
        if !settled { cancelPending := true; }
        waiter := Joining;
      }
    }

    /** The joining waiter sees that the remote side has settled: the cancellation goes on, a result is dropped. */
    method Join()
      requires Consistent(Now()) && waiter.Joining? && settled
      modifies `waiter
      ensures Consistent(Now()) && Now() == Next(old(Now()), Step.Join)
      ensures waiter.RaisedCancelled? && (work.Ended? || work.Closed?) && !donePending
    {
      waiter := RaisedCancelled;
    }
  }

  /** The work ends cancelled on its own: the caller is still there when it has settled, and raises. */
  method CancelledElsewhere() returns (r: Remote)
    ensures Consistent(r.Now()) && r.settled && r.waiter.RaisedCancelled? && r.requests == 0
  {
    hide Consistent;
    SubmittedIsConsistent();
    r := new Remote();
    r.Start(true);
    r.Finish(Cancelled);
    r.PublishResult();
    r.Receive();
    r.PublishSettled();
    r.Cancel();
    r.Join();
  }

  /** Cancelled before it starts, the work is closed without having run. */
  method CancelFirst() returns (r: Remote)
    ensures Consistent(r.Now()) && r.settled && r.work.Closed? && r.waiter.RaisedCancelled? && r.result == Some(Cancelled)
  {
    hide Consistent;
    SubmittedIsConsistent();
    r := new Remote();
    r.CancelCaller();
    r.Start(true);
    r.PublishSettled();
    r.Join();
  }

  /** The same on the object: whatever state it is in, its remote side can settle without the caller. */
  method DrainRemote(r: Remote, created: bool, outcome: Result)
    requires Consistent(r.Now())
    modifies r
    ensures Consistent(r.Now()) && r.settled && r.used == 1 && r.settlements == 1 && r.waiter == old(r.waiter)
  {
    if r.startPending { r.Start(created); }
    if r.work.Running? { r.Finish(outcome); }
    if r.donePending && r.result.None? { r.PublishResult(); }
    if r.donePending { r.PublishSettled(); }
  }
}
