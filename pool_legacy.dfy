/** The older browser pool of providers/__init__.py. Its `__init__`,
    `_restart`, `schedule_restart`, `browser()`, `get`'s `put_nowait` and
    `shutdown` are the same code as in the newer pool, so their models
    (`BrowserPool.Init`, `Woken`, `Restarted`, `Acquired`, `Submitted`,
    `ShutDown`) and the invariant `BrowserPool.Valid` are shared. What
    differs is the worker loop:
    - it runs inside `run` itself, with no supervisor around it;
    - only `page.goto` breaks the loop;
    - a shut-down queue ends it without `task_done`;
    - teardown is the code after the loop, so a cancellation raised
      elsewhere in a turn skips it. */
module LegacyBrowserPool {
  import opened Common
  import opened AsyncModel
  import P = BrowserPool

  /** What a job's page does. `page.goto` has its own `try`, and a
      cancellation or Playwright error there breaks the loop. Every other
      step of a turn is under the outer `try`. */
  datatype Navigation =
    | Loaded(value: string)      // the response was ok; `page.content()` returned this
    | NotOk(statusText: string)  // the response was not ok
    | GotoRaises(error: Error)   // `page.goto` raised
    | Raises(error: Error)       // another step of the turn raised
    | AnsweredThenRaises(value: string, error: Error)
      // `set_result` took this content, then closing the page or context raised

  /** A failed launch raises under the outer `try`, before any navigation. */
  function Effective(launch: Result<nat, Error>, nav: Navigation): Navigation
  {
    if launch.Failure? then Raises(launch.error) else nav
  }

  /** The job's future after its turn: `None` when nothing is written. */
  function Answer(nav: Navigation): Option<Future>
  {
    match nav
    case Loaded(v) => Some(Resolved(v))
    case NotOk(text) => Some(Failed(ConnectionError(text)))
    case GotoRaises(CancelledError) => None
    case GotoRaises(PlaywrightError) => None
    case GotoRaises(e) => Some(Failed(e))
    case Raises(CancelledError) => None
    case Raises(e) => Some(Failed(e))
    case AnsweredThenRaises(v, _) => Some(Resolved(v))
  }

  /** Whether the turn leaves the loop, and how:
      - `Returned` is the `break` after a failed `page.goto`, which goes on
        to the teardown after the loop;
      - `Raised(CancelledError)` is a cancellation anywhere else, which is
        no `Exception` and leaves `run` without that teardown;
      - an error raised after `set_result` reaches `set_exception` on the
        done future, which raises `InvalidStateError`; that error leaves
        `run` past the `finally`, without the teardown too. */
  function Leaves(nav: Navigation): Option<P.Exit>
  {
    match nav
    case GotoRaises(CancelledError) => Some(P.Returned)
    case GotoRaises(PlaywrightError) => Some(P.Returned)
    case Raises(CancelledError) => Some(P.Raised(CancelledError))
    case AnsweredThenRaises(v, e) =>
      if e == CancelledError then Some(P.Raised(CancelledError))
      else Some(P.Raised(SetException(Resolved(v), e).error))
    case _ => None
  }

  /** The code after the loop of `run`: cancel the timer, and close and
      clear the handle. `run` then returns. */
  function TornDown(s: P.BrowserState): P.BrowserState
    requires s.restartTask.Some? ==> s.restartTask.value < |s.timers|
  {
    s.(timers := CancelAt(s.timers, s.restartTask), handle := None, stopped := true)
  }

  /** The rest of a job's turn once a handle is acquired, or not. The
      answer, if any, is written to job `j` directly; as in the current
      pool, the job's future is still pending here (`Valid`), so this is the
      single write `WriteOnce` allows. The `finally` counts the
      request and calls `task_done`. A `break` then reaches the teardown;
      a cancellation leaves `run` as it is. */
  function Finished(t: P.BrowserState, j: nat, seen: Navigation): P.Turn
    requires j < |t.jobs| && t.unfinished > 0
    requires t.restartTask.Some? ==> t.restartTask.value < |t.timers|
  {
    var answer := Answer(seen);
    var done := t.(jobs := if answer.Some? then t.jobs[j := t.jobs[j].(future := answer.value)] else t.jobs,
                   requests := t.requests + 1, unfinished := t.unfinished - 1);
    match Leaves(seen)
    case None => P.Turn(done, P.Served(j))
    case Some(reason) =>
      if reason == P.Returned then P.Turn(TornDown(done), P.Exited(Some(j), reason))
      else P.Turn(done.(stopped := true), P.Exited(Some(j), reason))
  }

  /** A turn that takes the job at the head of the queue: `get`, then
      `browser()`, then the job's answer. */
  function Took(s: P.BrowserState, launch: Option<Error>, nav: Navigation): P.Turn
    requires s.queue != [] && s.queue[0] < |s.jobs| && s.unfinished > 0
    requires s.restartTask.Some? ==> s.restartTask.value < |s.timers|
  {
    P.AcquiredIgnoresQueue(s, s.queue[1..], launch);
    var a := P.Acquired(s.(queue := s.queue[1..]), launch);
    Finished(a.state, s.queue[0], Effective(a.handle, nav))
  }

  /** One turn of the `while True` loop of `run`. */
  function Stepped(s: P.BrowserState, launch: Option<Error>, nav: Navigation): P.Turn
    requires P.Valid(s)
  {
    if s.stopped then P.Turn(s, P.Stopped)
    else if s.queue == [] then
      if !s.shutDown then P.Turn(s, P.Waiting)
      // `get` raises `QueueShutDown`; the loop breaks with no `task_done`.
      else P.Turn(TornDown(s), P.Exited(None, P.Returned))
    else Took(s, launch, nav)
  }

  /** Finishing a job taken off the queue is dequeuing it with its answer,
      then leaving as `Leaves` says. */
  lemma FinishedDequeued(t: P.BrowserState, seen: Navigation)
    requires t.queue != [] && t.queue[0] < |t.jobs| && t.unfinished > 0
    requires t.restartTask.Some? ==> t.restartTask.value < |t.timers|
    ensures var done := P.Dequeued(t, Answer(seen));
      Finished(t.(queue := t.queue[1..]), t.queue[0], seen) ==
        match Leaves(seen)
        case None => P.Turn(done, P.Served(t.queue[0]))
        case Some(reason) =>
          if reason == P.Returned then P.Turn(TornDown(done), P.Exited(Some(t.queue[0]), reason))
          else P.Turn(done.(stopped := true), P.Exited(Some(t.queue[0]), reason))
  {
  }

  /** The turn seen from the state before the job leaves the queue. */
  lemma {:induction false} TookDequeued(s: P.BrowserState, launch: Option<Error>, nav: Navigation)
    requires s.queue != [] && s.queue[0] < |s.jobs| && s.unfinished > 0
    requires s.restartTask.Some? ==> s.restartTask.value < |s.timers|
    ensures var a := P.Acquired(s, launch); var e := Effective(a.handle, nav);
      var done := P.Dequeued(a.state, Answer(e));
      Took(s, launch, nav) ==
        match Leaves(e)
        case None => P.Turn(done, P.Served(s.queue[0]))
        case Some(reason) =>
          if reason == P.Returned then P.Turn(TornDown(done), P.Exited(Some(s.queue[0]), reason))
          else P.Turn(done.(stopped := true), P.Exited(Some(s.queue[0]), reason))
  {
    P.AcquiredIgnoresQueue(s, s.queue[1..], launch);
    var a := P.Acquired(s, launch);
    FinishedDequeued(a.state, Effective(a.handle, nav));
  }

  /** Every answer written is final. A turn that writes nothing leaves the
      loop, and a turn that writes and leaves is one whose content was
      set and which then raised: a cancellation as it is, any other error
      as the `InvalidStateError` of writing the done future a second time.
      A `break` writes nothing. */
  lemma AnswerLeaves(nav: Navigation)
    ensures Answer(nav).None? ==> Leaves(nav).Some?
    ensures Answer(nav).Some? ==> !Answer(nav).value.Pending?
    ensures Answer(nav).Some? && Leaves(nav).Some? ==>
      && nav.AnsweredThenRaises? && Answer(nav) == Some(Resolved(nav.value))
      && Leaves(nav) == Some(P.Raised(if nav.error == CancelledError then CancelledError else InvalidStateError))
    ensures Leaves(nav) == Some(P.Returned) ==> Answer(nav).None?
    ensures Leaves(nav) == Some(P.Raised(InvalidStateError)) ==>
      nav.AnsweredThenRaises? && SetException(Answer(nav).value, nav.error) == Failure(InvalidStateError)
  {
  }

  /** Teardown keeps the invariant and leaves no timer sleeping. */
  lemma {:induction false} TornDownValid(s: P.BrowserState)
    requires P.Valid(s)
    ensures P.Valid(TornDown(s))
    ensures forall i :: 0 <= i < |s.timers| ==> TornDown(s).timers[i].state != Sleeping
  {
    CancelEffect(s.timers, s.restartTask);
  }

  lemma {:induction false} DequeuedValid(s: P.BrowserState, answer: Option<Future>)
    requires P.Valid(s) && s.queue != [] && !s.stopped
    ensures answer.Some? && !answer.value.Pending? ==> P.Valid(P.Dequeued(s, answer))
    ensures P.Valid(P.Dequeued(s, answer).(stopped := true))
    ensures P.Valid(TornDown(P.Dequeued(s, answer)))
  {
    var t := P.Dequeued(s, answer);
    assert P.Head(t) == P.Head(s) + 1;
    assert forall k :: 0 <= k < |t.queue| ==> t.queue[k] == s.queue[k + 1];
    assert P.Valid(t.(stopped := true));
    TornDownValid(t.(stopped := true));
  }

  /** A turn keeps the invariant. */
  lemma {:induction false} SteppedValid(s: P.BrowserState, launch: Option<Error>, nav: Navigation)
    requires P.Valid(s)
    ensures P.Valid(Stepped(s, launch, nav).state)
  {
    if !s.stopped {
      if s.queue == [] {
        TornDownValid(s);
      } else {
        P.AcquiredValid(s, launch);
        P.AcquiredIgnoresQueue(s, s.queue, launch);
        TookDequeued(s, launch, nav);
        var a := P.Acquired(s, launch);
        var effective := Effective(a.handle, nav);
        var done := P.Dequeued(a.state, Answer(effective));
        var r := Stepped(s, launch, nav);
        AnswerLeaves(effective);
        DequeuedValid(a.state, Answer(effective));
        if Leaves(effective).None? {
          assert r.state == done;
        } else if Leaves(effective) == Some(P.Returned) {
          assert r.state == TornDown(done);
        } else {
          assert r.state == done.(stopped := true);
        }
      }
    }
  }

  /** A turn that takes a job:
      - the job is the oldest one not yet answered, and it leaves the queue;
      - the request counter goes up by one, from zero on a newly launched
        handle, and the unfinished-task counter goes down by one;
      - no other job's future changes. */
  lemma {:induction false} SteppedServes(s: P.BrowserState, launch: Option<Error>, nav: Navigation)
    requires P.Valid(s) && !s.stopped && s.queue != []
    ensures var r := Stepped(s, launch, nav); var j := s.queue[0];
      && j == P.Head(s)
      && (forall k :: 0 <= k < j ==> !s.jobs[k].future.Pending?)
      && s.jobs[j].future.Pending?
      && r.state.queue == s.queue[1..] && r.state.unfinished == s.unfinished - 1
      && r.state.requests == (if r.state.launched > s.launched then 1 else s.requests + 1)
      && |r.state.jobs| == |s.jobs|
      && (forall k :: 0 <= k < |s.jobs| && k != j ==> r.state.jobs[k] == s.jobs[k])
  {
    var q := s.queue[1..];
    P.AcquiredCounts(s, launch);
    P.AcquiredIgnoresQueue(s, q, launch);
    var a := P.Acquired(s.(queue := q), launch);
    FinishedCounts(a.state, s.queue[0], Effective(a.handle, nav));
  }

  /** The navigation as the job sees it: a failed launch raises first. */
  function Seen(s: P.BrowserState, launch: Option<Error>, nav: Navigation): Navigation
  {
    if P.LaunchFails(s, launch) then Raises(launch.value) else nav
  }

  /** Finishing counts the request and calls `task_done`, and writes no job but
      job `j`. */
  lemma FinishedCounts(t: P.BrowserState, j: nat, seen: Navigation)
    requires j < |t.jobs| && t.unfinished > 0
    requires t.restartTask.Some? ==> t.restartTask.value < |t.timers|
    ensures var r := Finished(t, j, seen);
      && r.state.queue == t.queue && r.state.unfinished == t.unfinished - 1
      && r.state.requests == t.requests + 1 && r.state.launched == t.launched
      && |r.state.jobs| == |t.jobs|
      && (forall k :: 0 <= k < |t.jobs| && k != j ==> r.state.jobs[k] == t.jobs[k])
  {
  }

  /** Finishing writes `Answer` of what the job saw to its future, and
      leaves the loop as `Leaves` says. */
  lemma FinishedWrites(t: P.BrowserState, j: nat, seen: Navigation)
    requires j < |t.jobs| && t.unfinished > 0
    requires t.restartTask.Some? ==> t.restartTask.value < |t.timers|
    ensures var r := Finished(t, j, seen);
      && j < |r.state.jobs|
      && r.state.jobs[j].future == (if Answer(seen).Some? then Answer(seen).value else t.jobs[j].future)
      && r.outcome == (if Leaves(seen).None? then P.Served(j) else P.Exited(Some(j), Leaves(seen).value))
  {
  }

  /** A job's turn writes `Answer` of what it saw to the job's future, and
      leaves the loop as `Leaves` says. */
  lemma {:induction false} SteppedWrites(s: P.BrowserState, launch: Option<Error>, nav: Navigation)
    requires P.Valid(s) && !s.stopped && s.queue != []
    ensures var r := Stepped(s, launch, nav); var j := s.queue[0]; var seen := Seen(s, launch, nav);
      && j < |r.state.jobs|
      && r.state.jobs[j].future == (if Answer(seen).Some? then Answer(seen).value else Pending)
      && r.outcome == (if Leaves(seen).None? then P.Served(j) else P.Exited(Some(j), Leaves(seen).value))
  {
    var q := s.queue[1..];
    P.AcquiredFails(s, launch);
    P.AcquiredIgnoresQueue(s, q, launch);
    var a := P.Acquired(s.(queue := q), launch);
    assert Effective(a.handle, nav) == Seen(s, launch, nav);
    FinishedWrites(a.state, s.queue[0], Effective(a.handle, nav));
  }

  /** What a job's turn writes, and whether the loop goes on:
      - an ok response resolves the future with the page's content;
      - a non-ok one fails it with a `ConnectionError` carrying the status
        text;
      - a cancellation or Playwright error of `page.goto` writes nothing
        and breaks the loop;
      - a cancellation anywhere else writes nothing and leaves `run`;
      - any other error, the launch's included, fails the future, and the
        loop goes on;
      - an error while closing the page or context after the content was
        set keeps the content and leaves `run`, with the cancellation or
        with the `InvalidStateError` of the second write. */
  lemma {:induction false} SteppedAnswers(s: P.BrowserState, launch: Option<Error>, nav: Navigation)
    requires P.Valid(s) && !s.stopped && s.queue != []
    ensures var r := Stepped(s, launch, nav); var j := s.queue[0];
      j < |r.state.jobs| &&
      match Seen(s, launch, nav)
      case Loaded(v) => r.state.jobs[j].future == Resolved(v) && r.outcome == P.Served(j)
      case NotOk(text) => r.state.jobs[j].future == Failed(ConnectionError(text)) && r.outcome == P.Served(j)
      case GotoRaises(e) =>
        if e == CancelledError || e == PlaywrightError then
          r.state.jobs[j].future == Pending && r.outcome == P.Exited(Some(j), P.Returned)
        else r.state.jobs[j].future == Failed(e) && r.outcome == P.Served(j)
      case Raises(e) =>
        if e == CancelledError then
          r.state.jobs[j].future == Pending && r.outcome == P.Exited(Some(j), P.Raised(CancelledError))
        else r.state.jobs[j].future == Failed(e) && r.outcome == P.Served(j)
      case AnsweredThenRaises(v, e) =>
        r.state.jobs[j].future == Resolved(v)
        && r.outcome == P.Exited(Some(j), P.Raised(if e == CancelledError then CancelledError else InvalidStateError))
  {
    SteppedWrites(s, launch, nav);
  }

  /** How a job's turn leaves the loop: a `break` tears down; a
      cancellation, or the `InvalidStateError` of writing an answered
      future again, leaves the handle and the timers as they were. */
  lemma {:induction false} FinishedExits(t: P.BrowserState, j: nat, seen: Navigation)
    requires j < |t.jobs| && t.unfinished > 0
    requires t.restartTask.Some? ==> t.restartTask.value < |t.timers|
    requires forall i :: 0 <= i < |t.timers| && t.timers[i].state == Sleeping ==> t.restartTask == Some(i)
    ensures var r := Finished(t, j, seen);
      r.outcome.Exited? ==>
        && r.state.stopped
        && (r.outcome.reason == P.Returned ==>
              && r.state.handle.None?
              && forall i :: 0 <= i < |r.state.timers| ==> r.state.timers[i].state != Sleeping)
        && (r.outcome.reason != P.Returned ==>
              && (|| (r.outcome.reason == P.Raised(CancelledError) && seen == Raises(CancelledError))
                  || (seen.AnsweredThenRaises?
                      && r.outcome.reason == P.Raised(if seen.error == CancelledError then CancelledError else InvalidStateError)))
              && r.state.handle == t.handle && r.state.timers == t.timers)
  {
    CancelEffect(t.timers, t.restartTask);
  }

  /** Every exit from the loop is final, for there is no supervisor. A
      `break` (a failed `page.goto`, or a shut-down queue) tears down:
      no handle remains and no timer sleeps. A cancellation raised
      elsewhere, or the `InvalidStateError` of writing an answered future
      again, skips the teardown: the handle acquired for the turn, if
      any, and its sleeping timer are left behind. */
  lemma {:induction false} SteppedExits(s: P.BrowserState, launch: Option<Error>, nav: Navigation)
    requires P.Valid(s)
    ensures var r := Stepped(s, launch, nav);
      r.outcome.Exited? ==>
        && r.state.stopped
        && (r.outcome.reason == P.Returned ==>
              && r.state.handle.None?
              && forall i :: 0 <= i < |r.state.timers| ==> r.state.timers[i].state != Sleeping)
        && (r.outcome.reason != P.Returned ==>
              && (r.outcome.reason == P.Raised(CancelledError) || r.outcome.reason == P.Raised(InvalidStateError))
              && (!P.LaunchFails(s, launch) ==>
                    && r.state.handle.Some? && |r.state.timers| > 0
                    && r.state.timers[|r.state.timers| - 1].state == Sleeping))
  {
    if !s.stopped && s.queue != [] {
      var q := s.queue[1..];
      P.AcquiredIgnoresQueue(s, q, launch);
      P.AcquiredFails(s, launch);
      P.AcquiredSleeps(s, launch);
      var a := P.Acquired(s.(queue := q), launch);
      assert a.state.handle == P.Acquired(s, launch).state.handle;
      assert a.state.timers == P.Acquired(s, launch).state.timers;
      assert a.handle == P.Acquired(s, launch).handle;
      FinishedExits(a.state, s.queue[0], Effective(a.handle, nav));
    } else if !s.stopped && s.shutDown {
      CancelEffect(s.timers, s.restartTask);
    }
  }

  /** A turn does nothing exactly when `run` has returned, or when the
      queue is empty and still open. */
  lemma {:induction false} SteppedIdle(s: P.BrowserState, launch: Option<Error>, nav: Navigation)
    requires P.Valid(s)
    ensures var r := Stepped(s, launch, nav);
      (r.outcome == P.Stopped <==> s.stopped) && (r.outcome == P.Waiting <==> !s.stopped && s.queue == [] && !s.shutDown)
    ensures var r := Stepped(s, launch, nav);
      r.outcome == P.Stopped || r.outcome == P.Waiting ==> r.state == s
  {
    if !s.stopped && s.queue != [] {
      TookDequeued(s, launch, nav);
    }
  }

  /** Shutting the pool down stops it: on a shut-down, empty queue the loop
      breaks and tears down, `join` returns, and no later turn does
      anything. */
  lemma {:induction false} ShutDownStops(s: P.BrowserState, launch: Option<Error>, nav: Navigation, launch2: Option<Error>, nav2: Navigation)
    requires P.Valid(s) && !s.stopped && s.shutDown && s.queue == []
    ensures var r := Stepped(s, launch, nav);
      && r.outcome == P.Exited(None, P.Returned)
      && P.Valid(r.state) && r.state.stopped && P.JoinReturns(r.state) && r.state.handle.None?
      && Stepped(r.state, launch2, nav2) == P.Turn(r.state, P.Stopped)
  {
    SteppedValid(s, launch, nav);
  }

  /** Once `run` has returned without the queue being shut down, jobs are
      still accepted but no turn ever takes them: their callers wait
      forever. */
  lemma {:induction false} StoppedStarves(s: P.BrowserState, url: string, launch: Option<Error>, nav: Navigation)
    requires P.Valid(s) && s.stopped && !s.shutDown
    ensures var sub := P.Submitted(s, url);
      && sub.job == Success(|s.jobs|) && sub.state.jobs[|s.jobs|].future.Pending?
      && P.Valid(sub.state)
      && Stepped(sub.state, launch, nav) == P.Turn(sub.state, P.Stopped)
  {
    P.SubmittedProps(s, url);
  }

  /** The inputs of one turn. */
  datatype Input = Input(launch: Option<Error>, nav: Navigation)

  /** The `while True` loop of `run` fed with one input per turn: it goes on
      while its turns serve jobs. */
  function Ran(s: P.BrowserState, inputs: seq<Input>): (r: P.Run)
    requires P.Valid(s)
    ensures P.Valid(r.state)
  {
    if inputs == [] then P.Run(s, [])
    else
      var before := Ran(s, inputs[..|inputs| - 1]);
      if !P.GoesOn(before.outcomes) then before
      else
        var input := inputs[|inputs| - 1];
        SteppedValid(before.state, input.launch, input.nav);
        var turn := Stepped(before.state, input.launch, input.nav);
        P.Run(turn.state, before.outcomes + [turn.outcome])
  }

  /** One more turn of a loop that goes on. */
  lemma {:induction false} RanSnoc(s: P.BrowserState, inputs: seq<Input>, i: nat)
    requires P.Valid(s) && i < |inputs|
    requires P.GoesOn(Ran(s, inputs[..i]).outcomes)
    ensures var before := Ran(s, inputs[..i]);
      var turn := Stepped(before.state, inputs[i].launch, inputs[i].nav);
      Ran(s, inputs[..i + 1]) == P.Run(turn.state, before.outcomes + [turn.outcome])
  {
    var prefix := inputs[..i + 1];
    assert prefix[..|prefix| - 1] == inputs[..i];
    assert prefix[|prefix| - 1] == inputs[i];
  }

  /** Once the loop has stopped, further inputs are not read. */
  lemma {:induction false} RanStays(s: P.BrowserState, inputs: seq<Input>, k: nat)
    requires P.Valid(s) && k <= |inputs|
    requires !P.GoesOn(Ran(s, inputs[..k]).outcomes)
    ensures Ran(s, inputs) == Ran(s, inputs[..k])
  {
    if k < |inputs| {
      assert inputs[..|inputs| - 1][..k] == inputs[..k];
      RanStays(s, inputs[..|inputs| - 1], k);
    } else {
      assert inputs[..k] == inputs;
    }
  }

  /** A turn of a running loop takes the head of the queue, if any; a turn
      that served it goes on with the rest of the queue. */
  lemma {:induction false} SteppedTakes(s: P.BrowserState, launch: Option<Error>, nav: Navigation)
    requires P.Valid(s) && !s.stopped
    ensures var r := Stepped(s, launch, nav);
      && P.TakenJob(r.outcome) == (if s.queue == [] then None else Some(s.queue[0]))
      && (r.outcome.Served? ==> s.queue != [] && r.state.queue == s.queue[1..] && !r.state.stopped)
  {
    if s.queue != [] {
      TookDequeued(s, launch, nav);
      P.AcquiredIgnoresQueue(s, s.queue[1..], launch);
    }
  }

  lemma {:induction false} InOrderStep(s: P.BrowserState, before: P.Run, input: Input)
    requires P.Valid(before.state) && P.InOrder(s, before) && P.GoesOn(before.outcomes)
    ensures var turn := Stepped(before.state, input.launch, input.nav);
      P.InOrder(s, P.Run(turn.state, before.outcomes + [turn.outcome]))
  {
    SteppedTakes(before.state, input.launch, input.nav);
    P.InOrderSnoc(s, before, Stepped(before.state, input.launch, input.nav));
  }

  /** The loop serves the queue in order: every turn but the last serves a
      job, the jobs taken are the first ones of the queue in queue order,
      and exactly those have left it. */
  lemma {:induction false} RanInOrder(s: P.BrowserState, inputs: seq<Input>)
    requires P.Valid(s) && !s.stopped
    ensures |Ran(s, inputs).outcomes| <= |inputs|
    ensures P.InOrder(s, Ran(s, inputs))
  {
    if inputs != [] {
      var init := inputs[..|inputs| - 1];
      RanInOrder(s, init);
      var before := Ran(s, init);
      if P.GoesOn(before.outcomes) {
        InOrderStep(s, before, inputs[|inputs| - 1]);
      }
    }
  }

  /** The older `Browser`: its fields, updated in place by its event
      methods, and the jobs submitted so far. */
  class Browser {
    const maxInactivity: int
    const maxRequests: int
    var handle: Option<P.Handle>
    var launched: nat
    var requests: nat
    var timers: seq<Timer>
    var restartTask: Option<nat>
    var queue: seq<nat>
    var shutDown: bool
    var unfinished: nat
    var jobs: seq<P.Job>
    var stopped: bool

    function State(): P.BrowserState
      reads this
    {
      P.BrowserState(maxInactivity, maxRequests, handle, launched, requests, timers, restartTask,
                     queue, shutDown, unfinished, jobs, stopped)
    }

    /** `Browser.__init__`. */
    constructor (maxInactivity: Option<int>, maxRequests: Option<int>)
      ensures State() == P.Init(maxInactivity, maxRequests)
      ensures P.Valid(State())
    {
      this.maxInactivity := if maxInactivity.None? || maxInactivity.value == 0 then 30 else maxInactivity.value;
      this.maxRequests := if maxRequests.None? || maxRequests.value == 0 then 50 else maxRequests.value;
      handle := None;
      launched := 0;
      requests := 0;
      timers := [];
      restartTask := None;
      queue := [];
      shutDown := false;
      unfinished := 0;
      jobs := [];
      stopped := false;
    }

    /** `schedule_restart`. */
    method ScheduleRestart()
      modifies this
      requires restartTask.Some? ==> restartTask.value < |timers|
      ensures State() == P.Restarted(old(State()))
    {
      if restartTask.Some? {
        timers := timers[restartTask.value := Cancel(timers[restartTask.value])];
      }
      restartTask := Some(|timers|);
      timers := timers + [Timer(P.HandleId(handle), Sleeping)];
    }

    /** `browser()`. */
    method Acquire(launch: Option<Error>) returns (r: Result<nat, Error>)
      modifies this
      requires restartTask.Some? ==> restartTask.value < |timers|
      ensures P.Acquisition(State(), r) == P.Acquired(old(State()), launch)
    {
      if handle.Some? {
        if !handle.value.connected || requests >= maxRequests {
          handle := None;
        }
      }
      if handle.None? {
        if launch.Some? {
          return Failure(launch.value);
        }
        handle := Some(P.Handle(launched, true));
        launched := launched + 1;
        requests := 0;
      }
      ScheduleRestart();
      r := Success(handle.value.id);
    }

    /** The `_restart` task of timer `i` wakes up. */
    method Wake(i: nat)
      modifies this
      requires i < |timers|
      ensures State() == P.Woken(old(State()), i)
    {
      if timers[i].state == Sleeping {
        var tag := timers[i].tag;
        timers := timers[i := timers[i].(state := Fired)];
        if P.HandleId(handle) == tag {
          handle := None;
        }
      }
    }

    /** The `put_nowait` of `get`; the caller then awaits `Answered`. */
    method Get(url: string) returns (r: Result<nat, Error>)
      modifies this
      ensures P.Submission(State(), r) == P.Submitted(old(State()), url)
    {
      if shutDown {
        return Failure(QueueShutDown);
      }
      r := Success(|jobs|);
      jobs := jobs + [P.Job(url, Pending)];
      queue := queue + [|jobs| - 1];
      unfinished := unfinished + 1;
    }

    /** What `get` returns for job `j` once its future is done. */
    function Answered(j: nat): Option<Result<string, Error>>
      reads this
      requires j < |jobs|
    {
      Awaited(jobs[j].future)
    }

    /** The queue's `shutdown`; `join` returns once `JoinReturns` holds. */
    method Shutdown()
      modifies this
      ensures State() == P.ShutDown(old(State()))
    {
      shutDown := true;
    }

    /** The code after the loop of `run`. */
    method Teardown()
      modifies this
      requires restartTask.Some? ==> restartTask.value < |timers|
      ensures State() == TornDown(old(State()))
    {
      if restartTask.Some? {
        timers := timers[restartTask.value := Cancel(timers[restartTask.value])];
      }
      handle := None;
      stopped := true;
    }

    /** One turn of the loop of `run`. */
    method Step(launch: Option<Error>, nav: Navigation) returns (outcome: P.Outcome)
      modifies this
      requires P.Valid(State())
      ensures P.Turn(State(), outcome) == Stepped(old(State()), launch, nav)
      ensures P.Valid(State())
    {
      ghost var s := State();
      SteppedValid(s, launch, nav);
      if stopped {
        return P.Stopped;
      }
      if queue == [] {
        if !shutDown {
          return P.Waiting;
        }
        // `get` raises `QueueShutDown`: break.
        Teardown();
        return P.Exited(None, P.Returned);
      }
      outcome := Serve(launch, nav);
    }

    /** A turn that takes a job: dequeue it, acquire a handle, then finish
        the job. */
    method Serve(launch: Option<Error>, nav: Navigation) returns (outcome: P.Outcome)
      modifies this
      requires queue != [] && queue[0] < |jobs| && unfinished > 0
      requires restartTask.Some? ==> restartTask.value < |timers|
      ensures P.Turn(State(), outcome) == Took(old(State()), launch, nav)
    {
      P.AcquiredIgnoresQueue(State(), queue[1..], launch);
      var j := queue[0];
      queue := queue[1..];
      var got := Acquire(launch);
      var seen := if got.Failure? then Raises(got.error) else nav;
      outcome := Finish(j, seen);
    }

    /** The job's answer, the `finally` bookkeeping (`_requests += 1`,
        `task_done()`), and the teardown after a `break`. */
    method Finish(j: nat, seen: Navigation) returns (outcome: P.Outcome)
      modifies this
      requires j < |jobs| && unfinished > 0
      requires restartTask.Some? ==> restartTask.value < |timers|
      ensures P.Turn(State(), outcome) == Finished(old(State()), j, seen)
    {
      var answer := Answer(seen);
      if answer.Some? {
        jobs := jobs[j := jobs[j].(future := answer.value)];
      }
      requests := requests + 1;
      unfinished := unfinished - 1;
      var leaves := Leaves(seen);
      if leaves == Some(P.Returned) {
        Teardown();
        outcome := P.Exited(Some(j), leaves.value);
      } else if leaves.Some? {
        stopped := true;
        outcome := P.Exited(Some(j), leaves.value);
      } else {
        outcome := P.Served(j);
      }
    }

    /** The `while True` loop of `run`: turns are taken while they serve
        jobs. */
    method Run(inputs: seq<Input>) returns (outcomes: seq<P.Outcome>)
      modifies this
      requires P.Valid(State())
      ensures P.Run(State(), outcomes) == Ran(old(State()), inputs)
      ensures P.Valid(State())
    {
      outcomes := [];
      var i := 0;
      while i < |inputs| && P.GoesOn(outcomes)
        invariant 0 <= i <= |inputs|
        invariant P.Valid(State())
        invariant P.Run(State(), outcomes) == Ran(old(State()), inputs[..i])
      {
        RanSnoc(old(State()), inputs, i);
        var o := Step(inputs[i].launch, inputs[i].nav);
        outcomes := outcomes + [o];
        i := i + 1;
      }
      if i < |inputs| {
        RanStays(old(State()), inputs, i);
      } else {
        assert inputs[..i] == inputs;
      }
    }
  }
}
