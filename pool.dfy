/** The browser-handle pool of app/providers/__init__.py with its supervisor.
    Playwright and asyncio are abstracted away. What remains is a sequential
    state machine:
    - the current handle (an id, and whether it is still connected) and the
      count of requests served on it;
    - the idle-restart timer tasks created so far;
    - the job queue and its unfinished-task counter;
    - the jobs submitted so far, each with its write-once future.
    Launch and navigation outcomes and timer firings are inputs of the
    events. Holding the browser lock is modelled as one event running to
    its end. */
module BrowserPool {
  import opened Common
  import opened AsyncModel

  /** `arg or default`: a missing or zero argument takes the default. */
  function OrDefault(arg: Option<int>, default: int): int
  {
    if arg.None? || arg.value == 0 then default else arg.value
  }

  /** A launched browser: `id` stands for object identity. */
  datatype Handle = Handle(id: nat, connected: bool)

  /** A submitted job: its url and its future. */
  datatype Job = Job(url: string, future: Future)

  /** The fields of `Browser`, plus the jobs handed to it. */
  datatype BrowserState = BrowserState(
    maxInactivity: int,
    maxRequests: int,
    handle: Option<Handle>,   // `_browser`
    launched: nat,            // handles launched so far; the next one gets this id
    requests: nat,            // `_requests`
    timers: seq<Timer>,       // every `_restart` task created, oldest first
    restartTask: Option<nat>, // `_restart_task`, an index into `timers`
    queue: seq<nat>,          // `_task_queue`: indices into `jobs`
    shutDown: bool,           // the queue has been shut down
    unfinished: nat,          // the queue's unfinished-task counter
    jobs: seq<Job>,           // every job submitted, in submission order
    stopped: bool)            // the supervisor `run` has returned

  function HandleId(h: Option<Handle>): Option<nat>
  {
    if h.Some? then Some(h.value.id) else None
  }

  /** The index of the oldest job still in the queue. */
  function Head(s: BrowserState): int
  {
    |s.jobs| - |s.queue|
  }

  /** The pool's invariant:
      - handles and timers name only handles already launched;
      - at most one timer sleeps, and it is `_restart_task`;
      - the queue holds the latest submitted jobs, oldest first, and the
        unfinished-task counter is its length;
      - a queued job is pending, and a dequeued job was answered, except the
        one whose run was cancelled, which stops the supervisor. */
  ghost predicate Valid(s: BrowserState)
  {
    && (s.handle.Some? ==> s.handle.value.id < s.launched)
    && (forall i :: 0 <= i < |s.timers| && s.timers[i].tag.Some? ==> s.timers[i].tag.value < s.launched)
    && (s.restartTask.Some? ==> s.restartTask.value < |s.timers|)
    && (forall i :: 0 <= i < |s.timers| && s.timers[i].state == Sleeping ==> s.restartTask == Some(i))
    && |s.queue| <= |s.jobs|
    && (forall k :: 0 <= k < |s.queue| ==> s.queue[k] == Head(s) + k)
    && s.unfinished == |s.queue|
    && (forall j :: Head(s) <= j < |s.jobs| ==> s.jobs[j].future.Pending?)
    && (forall j :: 0 <= j < Head(s) && s.jobs[j].future.Pending? ==> s.stopped && j == Head(s) - 1)
  }

  /** `Browser.__init__`. */
  function Init(maxInactivity: Option<int>, maxRequests: Option<int>): BrowserState
  {
    BrowserState(OrDefault(maxInactivity, 30), OrDefault(maxRequests, 50),
                 None, 0, 0, [], None, [], false, 0, [], false)
  }

  /** A new pool has no handle, no timer, no job, a zero counter and the
      given limits, 30 seconds and 50 requests when an argument is missing
      or zero; it satisfies the invariant. */
  lemma InitValid(maxInactivity: Option<int>, maxRequests: Option<int>)
    ensures Valid(Init(maxInactivity, maxRequests))
    ensures Init(maxInactivity, maxRequests).handle.None? && Init(maxInactivity, maxRequests).requests == 0
    ensures maxInactivity.None? || maxInactivity == Some(0) ==> Init(maxInactivity, maxRequests).maxInactivity == 30
    ensures maxRequests.None? || maxRequests == Some(0) ==> Init(maxInactivity, maxRequests).maxRequests == 50
    ensures maxRequests.Some? && maxRequests.value != 0 ==> Init(maxInactivity, maxRequests).maxRequests == maxRequests.value
  {
  }

  /** `schedule_restart`: cancel the previous timer and start one tagged
      with the current handle. */
  function Restarted(s: BrowserState): BrowserState
    requires s.restartTask.Some? ==> s.restartTask.value < |s.timers|
  {
    s.(timers := CancelAt(s.timers, s.restartTask) + [Timer(HandleId(s.handle), Sleeping)],
       restartTask := Some(|s.timers|))
  }

  /** Scheduling a restart keeps the invariant and leaves exactly one timer
      sleeping: the new one, tagged with the current handle. */
  lemma {:induction false} RestartedProps(s: BrowserState)
    requires Valid(s)
    ensures Valid(Restarted(s))
    ensures |Restarted(s).timers| == |s.timers| + 1
    ensures Restarted(s).timers[|s.timers|] == Timer(HandleId(s.handle), Sleeping)
    ensures forall i :: 0 <= i < |s.timers| ==> Restarted(s).timers[i].state != Sleeping
  {
    CancelEffect(s.timers, s.restartTask);
    var t := Restarted(s);
    forall i | 0 <= i < |t.timers| && t.timers[i].tag.Some?
      ensures t.timers[i].tag.value < t.launched
    {
      if i < |s.timers| {
        assert t.timers[i].tag == s.timers[i].tag;
      }
    }
  }

  /** Scheduling a restart leaves only the new timer sleeping. */
  lemma RestartedSleeps(s: BrowserState)
    requires s.restartTask.Some? ==> s.restartTask.value < |s.timers|
    requires forall i :: 0 <= i < |s.timers| && s.timers[i].state == Sleeping ==> s.restartTask == Some(i)
    ensures forall i :: 0 <= i < |Restarted(s).timers| && Restarted(s).timers[i].state == Sleeping ==>
      Restarted(s).restartTask == Some(i)
    ensures |Restarted(s).timers| == |s.timers| + 1
    ensures Restarted(s).timers[|s.timers|] == Timer(HandleId(s.handle), Sleeping)
  {
    CancelEffect(s.timers, s.restartTask);
  }

  /** Whether `browser()` closes the current handle: it has disconnected or
      has served its quota. */
  predicate Stale(s: BrowserState)
  {
    s.handle.Some? && (!s.handle.value.connected || s.requests >= s.maxRequests)
  }

  datatype Acquisition = Acquisition(state: BrowserState, handle: Result<nat, Error>)

  /** `Browser.browser()`; `launch` is `None` when launching succeeds and
      the error it raises otherwise. */
  function Acquired(s: BrowserState, launch: Option<Error>): Acquisition
    requires s.restartTask.Some? ==> s.restartTask.value < |s.timers|
  {
    var kept := if Stale(s) then s.(handle := None) else s;
    if kept.handle.Some? then
      Acquisition(Restarted(kept), Success(kept.handle.value.id))
    else if launch.Some? then
      Acquisition(kept, Failure(launch.value))
    else
      var renewed := kept.(handle := Some(Handle(kept.launched, true)), launched := kept.launched + 1, requests := 0);
      Acquisition(Restarted(renewed), Success(kept.launched))
  }

  /** The invariant survives replacing the handle, counting launches and
      resetting the counter, as long as the handle is one already
      launched. */
  lemma ValidFrame(s: BrowserState, t: BrowserState)
    requires Valid(s)
    requires t == s.(handle := t.handle, launched := t.launched, requests := t.requests)
    requires t.launched >= s.launched && (t.handle.Some? ==> t.handle.value.id < t.launched)
    ensures Valid(t)
  {
  }

  /** Acquisition keeps the invariant. */
  lemma {:induction false} AcquiredValid(s: BrowserState, launch: Option<Error>)
    requires Valid(s)
    ensures Valid(Acquired(s, launch).state)
  {
    var kept := if Stale(s) then s.(handle := None) else s;
    ValidFrame(s, kept);
    if kept.handle.Some? {
      RestartedProps(kept);
      assert Acquired(s, launch).state == Restarted(kept);
    } else if launch.None? {
      var renewed := kept.(handle := Some(Handle(kept.launched, true)), launched := kept.launched + 1, requests := 0);
      ValidFrame(kept, renewed);
      RestartedProps(renewed);
      assert Acquired(s, launch).state == Restarted(renewed);
    } else {
      assert Acquired(s, launch).state == kept;
    }
  }

  /** Acquisition keeps the invariant and:
      - returns the current handle, connected, which is either the previous
        one, unchanged and under its quota, or a newly launched one with a
        zero counter; a stale handle is never returned again;
      - leaves exactly one timer sleeping, the newest, tagged with that
        handle;
      - when launching fails, leaves no handle and the timers as they were. */
  lemma {:induction false} AcquiredProps(s: BrowserState, launch: Option<Error>)
    requires Valid(s)
    ensures Valid(Acquired(s, launch).state)
    ensures var a := Acquired(s, launch);
      a.handle.Success? ==>
        && a.state.handle == Some(Handle(a.handle.value, true))
        && (|| (!Stale(s) && a.state.handle == s.handle && a.state.requests == s.requests
                && s.requests < s.maxRequests)
            || (a.handle.value == s.launched && a.state.requests == 0))
        && (Stale(s) ==> a.handle.value != s.handle.value.id)
        && (s.maxRequests > 0 ==> a.state.requests < a.state.maxRequests)
        && |a.state.timers| == |s.timers| + 1
        && a.state.timers[|s.timers|] == Timer(Some(a.handle.value), Sleeping)
        && forall i :: 0 <= i < |s.timers| ==> a.state.timers[i].state != Sleeping
    ensures var a := Acquired(s, launch);
      a.handle.Failure? ==>
        a.handle.error == launch.value && a.state.handle.None? && a.state.timers == s.timers
        && a.state.requests == s.requests
    ensures var a := Acquired(s, launch);
      a.state.queue == s.queue && a.state.jobs == s.jobs && a.state.unfinished == s.unfinished
      && a.state.shutDown == s.shutDown && a.state.stopped == s.stopped
  {
    AcquiredValid(s, launch);
    var kept := if Stale(s) then s.(handle := None) else s;
    ValidFrame(s, kept);
    if kept.handle.Some? {
      RestartedProps(kept);
    } else if launch.None? {
      var renewed := kept.(handle := Some(Handle(kept.launched, true)), launched := kept.launched + 1, requests := 0);
      ValidFrame(kept, renewed);
      RestartedProps(renewed);
    }
  }

  /** Timer `i` wakes up (`_restart`): it clears the handle only if the
      handle is still the one it was created for. A timer that was
      cancelled or has already fired does nothing. */
  function Woken(s: BrowserState, i: nat): BrowserState
    requires i < |s.timers|
  {
    if s.timers[i].state != Sleeping then s
    else
      var t := s.(timers := s.timers[i := s.timers[i].(state := Fired)]);
      if HandleId(s.handle) == s.timers[i].tag then t.(handle := None) else t
  }

  /** A firing timer keeps the invariant; it clears the handle exactly when
      it was still sleeping and the handle is the one it was tagged with,
      and otherwise the handle is unchanged; the counter and the queue are
      never touched. */
  lemma WokenProps(s: BrowserState, i: nat)
    requires Valid(s) && i < |s.timers|
    ensures Valid(Woken(s, i))
    ensures Woken(s, i).handle.None? <==>
      s.handle.None? || (s.timers[i].state == Sleeping && s.timers[i].tag == Some(s.handle.value.id))
    ensures Woken(s, i).handle.Some? ==> Woken(s, i).handle == s.handle
    ensures |Woken(s, i).timers| == |s.timers| && Woken(s, i).timers[i].state != Sleeping
    ensures forall k :: 0 <= k < |s.timers| && k != i ==> Woken(s, i).timers[k] == s.timers[k]
    ensures Woken(s, i).requests == s.requests && Woken(s, i).queue == s.queue && Woken(s, i).jobs == s.jobs
  {
  }

  /** The browser process goes away on its own. */
  function Disconnected(s: BrowserState): BrowserState
  {
    if s.handle.Some? then s.(handle := Some(s.handle.value.(connected := false))) else s
  }

  /** A disconnected handle is never handed out again: the next acquisition
      launches a new one. */
  lemma DisconnectedProps(s: BrowserState, launch: Option<Error>)
    requires Valid(s)
    ensures Valid(Disconnected(s))
    ensures s.handle.Some? ==>
      (Stale(Disconnected(s)) && Acquired(Disconnected(s), launch).handle != Success(s.handle.value.id))
  {
  }

  datatype Submission = Submission(state: BrowserState, job: Result<nat, Error>)

  /** The `put_nowait` of `execute`: a new pending job at the back of the
      queue, or `QueueShutDown` once the queue is shut down. */
  function Submitted(s: BrowserState, url: string): Submission
  {
    if s.shutDown then Submission(s, Failure(QueueShutDown))
    else Submission(s.(jobs := s.jobs + [Job(url, Pending)], queue := s.queue + [|s.jobs|],
                       unfinished := s.unfinished + 1),
                    Success(|s.jobs|))
  }

  /** Submission keeps the invariant: the job is new, pending and last in
      the queue, and nothing else changes; after shutdown it is refused
      and nothing changes at all. */
  lemma {:induction false} SubmittedProps(s: BrowserState, url: string)
    requires Valid(s)
    ensures Valid(Submitted(s, url).state)
    ensures s.shutDown <==> Submitted(s, url).job == Failure(QueueShutDown)
    ensures s.shutDown ==> Submitted(s, url).state == s
    ensures !s.shutDown ==>
      var t := Submitted(s, url).state; var j := Submitted(s, url).job.value;
      && j == |s.jobs| && t.jobs[j] == Job(url, Pending) && t.jobs[..j] == s.jobs
      && t.queue == s.queue + [j] && t.unfinished == s.unfinished + 1
      && t.handle == s.handle && t.requests == s.requests && t.timers == s.timers
  {
    if !s.shutDown {
      var t := Submitted(s, url).state;
      assert Head(t) == Head(s);
      assert t.jobs[..|s.jobs|] == s.jobs;
    }
  }

  /** `shutdown`: the queue is shut down; its `join` returns once the
      unfinished-task counter is zero. */
  function ShutDown(s: BrowserState): BrowserState
  {
    s.(shutDown := true)
  }

  predicate JoinReturns(s: BrowserState)
  {
    s.unfinished == 0
  }

  /** After shutdown no job is accepted, and `join` returns exactly when
      every accepted job has left the queue. */
  lemma ShutDownProps(s: BrowserState, url: string)
    requires Valid(s)
    ensures Valid(ShutDown(s))
    ensures Submitted(ShutDown(s), url) == Submission(ShutDown(s), Failure(QueueShutDown))
    ensures JoinReturns(ShutDown(s)) <==> s.queue == []
  {
  }

  /** How `_run` was left. */
  datatype Exit = Returned | Raised(error: Error)

  /** The supervisor restarts the worker unless it was cancelled. */
  predicate Restarts(reason: Exit)
  {
    reason != Raised(CancelledError)
  }

  /** The `finally` of the supervisor `run`: cancel the timer, close and
      clear the handle; a cancelled worker ends the supervisor. */
  function TornDown(s: BrowserState, reason: Exit): BrowserState
    requires s.restartTask.Some? ==> s.restartTask.value < |s.timers|
  {
    s.(timers := CancelAt(s.timers, s.restartTask), handle := None, stopped := !Restarts(reason))
  }

  /** What a navigation of the job's page does. */
  datatype Navigation =
    | Loaded(value: string)     // `job.execute(page)` returned this value
    | NotOk(statusText: string) // the response was not ok
    | Raises(error: Error)      // navigation or `execute` raised
    | AnsweredThenRaises(value: string, error: Error)
      // `job.result` took this value, then closing the page or context raised

  /** What one turn of the worker did. */
  datatype Outcome =
    | Stopped                          // the supervisor has returned; no worker runs
    | Waiting                          // the queue is empty and open: suspended in `get`
    | Served(job: nat)                 // a job was answered and the loop goes on
    | Exited(lastJob: Option<nat>, reason: Exit) // the worker left `_run`; the supervisor tore down

  datatype Turn = Turn(state: BrowserState, outcome: Outcome)

  /** What a job's turn raises once the handle is acquired: a failed launch
      raises its own error, before any navigation. */
  function Effective(launch: Result<nat, Error>, nav: Navigation): Navigation
  {
    if launch.Failure? then Raises(launch.error) else nav
  }

  /** The job's future after its turn: `None` when nothing is written. */
  function Answer(nav: Navigation): Option<Future>
  {
    match nav
    case Loaded(v) => Some(Resolved(v))
    case NotOk(text) => Some(Failed(ConnectionError(text)))
    case Raises(CancelledError) => None
    case Raises(e) => Some(Failed(e))
    case AnsweredThenRaises(v, _) => Some(Resolved(v))
  }

  /** Whether the turn leaves the loop, and how. An error raised after
      `job.result` was written reaches `job.exception = e`, whose
      `set_exception` on the done future raises `InvalidStateError`; that
      error leaves `_run` past the `finally`. A cancellation is no
      `Exception` and leaves as it is. */
  function Leaves(nav: Navigation): Option<Exit>
  {
    match nav
    case Raises(PlaywrightError) => Some(Returned)
    case Raises(CancelledError) => Some(Raised(CancelledError))
    case AnsweredThenRaises(v, e) =>
      if e == CancelledError then Some(Raised(CancelledError))
      else Some(Raised(SetException(Resolved(v), e).error))
    case _ => None
  }

  /** The bookkeeping of a job's turn once it is answered: the job leaves
      the queue, its future takes the answer if there is one, the request is
      counted (`_requests += 1`) and `task_done` called. The future is
      written directly: a queued job's future is pending (`Valid`), so this
      is its first terminal write, the one `WriteOnce` shows `set_result`
      and `set_exception` accept. */
  function Dequeued(s: BrowserState, answer: Option<Future>): BrowserState
    requires s.queue != [] && s.queue[0] < |s.jobs| && s.unfinished > 0
  {
    var j := s.queue[0];
    s.(queue := s.queue[1..],
       jobs := if answer.Some? then s.jobs[j := s.jobs[j].(future := answer.value)] else s.jobs,
       requests := s.requests + 1,
       unfinished := s.unfinished - 1)
  }

  lemma {:induction false} DequeuedValid(s: BrowserState, answer: Option<Future>)
    requires Valid(s) && s.queue != [] && !s.stopped
    ensures answer.Some? && !answer.value.Pending? ==> Valid(Dequeued(s, answer))
    ensures Valid(TornDown(Dequeued(s, answer), Raised(CancelledError)))
    ensures Head(Dequeued(s, answer)) == Head(s) + 1
  {
    var t := Dequeued(s, answer);
    assert Head(t) == Head(s) + 1;
    assert forall k :: 0 <= k < |t.queue| ==> t.queue[k] == s.queue[k + 1];
    CancelEffect(t.timers, t.restartTask);
  }

  /** Teardown keeps the invariant and leaves no timer sleeping. */
  lemma {:induction false} TornDownValid(s: BrowserState, reason: Exit)
    requires Valid(s) && (s.stopped ==> !Restarts(reason))
    ensures Valid(TornDown(s, reason))
    ensures forall i :: 0 <= i < |s.timers| ==> TornDown(s, reason).timers[i].state != Sleeping
  {
    CancelEffect(s.timers, s.restartTask);
  }

  /** One turn of the worker loop of `_run`, with the supervisor's teardown
      when the worker leaves: take the oldest job, acquire a handle, answer
      the job; in every case count the request and call `task_done`.
      `browser()` does not look at the queue, so the handle is acquired on
      the state before the job is taken off it. */
  function Stepped(s: BrowserState, launch: Option<Error>, nav: Navigation): Turn
    requires Valid(s)
  {
    if s.stopped then Turn(s, Stopped)
    else if s.queue == [] then
      if !s.shutDown then Turn(s, Waiting)
      else
        // `get` raises `QueueShutDown`; `task_done` then raises `ValueError`
        // since no task is unfinished, and the supervisor restarts.
        Turn(TornDown(s, Raised(ValueError)), Exited(None, Raised(ValueError)))
    else Took(s, launch, nav)
  }

  /** The rest of a job's turn once the handle is acquired (or not): the
      answer, if any, is written to job `j`; the `finally` counts the
      request and calls `task_done`; leaving the loop hands over to the
      supervisor's teardown. */
  function Finished(t: BrowserState, j: nat, seen: Navigation): Turn
    requires j < |t.jobs| && t.unfinished > 0
    requires t.restartTask.Some? ==> t.restartTask.value < |t.timers|
  {
    var answer := Answer(seen);
    var done := t.(jobs := if answer.Some? then t.jobs[j := t.jobs[j].(future := answer.value)] else t.jobs,
                   requests := t.requests + 1, unfinished := t.unfinished - 1);
    match Leaves(seen)
    case None => Turn(done, Served(j))
    case Some(reason) => Turn(TornDown(done, reason), Exited(Some(j), reason))
  }

  /** A turn that takes the job at the head of the queue: `get`, then
      `browser()`, then the job's answer. */
  function Took(s: BrowserState, launch: Option<Error>, nav: Navigation): Turn
    requires s.queue != [] && s.queue[0] < |s.jobs| && s.unfinished > 0
    requires s.restartTask.Some? ==> s.restartTask.value < |s.timers|
  {
    AcquiredIgnoresQueue(s, s.queue[1..], launch);
    var a := Acquired(s.(queue := s.queue[1..]), launch);
    Finished(a.state, s.queue[0], Effective(a.handle, nav))
  }

  /** Finishing a job taken off the queue is dequeuing it with its answer,
      then tearing down if the turn leaves. */
  lemma FinishedDequeued(t: BrowserState, seen: Navigation)
    requires t.queue != [] && t.queue[0] < |t.jobs| && t.unfinished > 0
    requires t.restartTask.Some? ==> t.restartTask.value < |t.timers|
    ensures var done := Dequeued(t, Answer(seen));
      Finished(t.(queue := t.queue[1..]), t.queue[0], seen) ==
        match Leaves(seen)
        case None => Turn(done, Served(t.queue[0]))
        case Some(reason) => Turn(TornDown(done, reason), Exited(Some(t.queue[0]), reason))
  {
  }

  /** The turn seen from the state before the job leaves the queue. */
  lemma {:induction false} TookDequeued(s: BrowserState, launch: Option<Error>, nav: Navigation)
    requires s.queue != [] && s.queue[0] < |s.jobs| && s.unfinished > 0
    requires s.restartTask.Some? ==> s.restartTask.value < |s.timers|
    ensures var a := Acquired(s, launch); var e := Effective(a.handle, nav);
      var done := Dequeued(a.state, Answer(e));
      Took(s, launch, nav) ==
        match Leaves(e)
        case None => Turn(done, Served(s.queue[0]))
        case Some(reason) => Turn(TornDown(done, reason), Exited(Some(s.queue[0]), reason))
  {
    AcquiredIgnoresQueue(s, s.queue[1..], launch);
    var a := Acquired(s, launch);
    FinishedDequeued(a.state, Effective(a.handle, nav));
  }

  /** `browser()` neither reads nor writes the queue, the jobs or the
      counters of the queue. */
  lemma AcquiredIgnoresQueue(s: BrowserState, q: seq<nat>, launch: Option<Error>)
    requires s.restartTask.Some? ==> s.restartTask.value < |s.timers|
    ensures Acquired(s.(queue := q), launch)
      == Acquisition(Acquired(s, launch).state.(queue := q), Acquired(s, launch).handle)
    ensures var t := Acquired(s, launch).state;
      t.queue == s.queue && t.jobs == s.jobs && t.unfinished == s.unfinished && t.stopped == s.stopped
      && (t.restartTask.Some? ==> t.restartTask.value < |t.timers|)
  {
  }

  /** Whether acquiring a handle for the next job fails: no usable handle,
      and the launch raises. */
  predicate LaunchFails(s: BrowserState, launch: Option<Error>)
  {
    (s.handle.None? || Stale(s)) && launch.Some?
  }

  /** Acquisition only ever launches new handles, and the counter starts
      from zero on a newly launched one and is kept otherwise. */
  lemma AcquiredCounts(s: BrowserState, launch: Option<Error>)
    requires s.restartTask.Some? ==> s.restartTask.value < |s.timers|
    ensures var a := Acquired(s, launch);
      && a.state.launched >= s.launched
      && a.state.requests == (if a.state.launched > s.launched then 0 else s.requests)
  {
  }

  /** Acquisition fails exactly when `LaunchFails` says so. */
  lemma AcquiredFails(s: BrowserState, launch: Option<Error>)
    requires s.restartTask.Some? ==> s.restartTask.value < |s.timers|
    ensures var a := Acquired(s, launch);
      && (a.handle.Failure? <==> LaunchFails(s, launch))
      && (a.state.restartTask.Some? ==> a.state.restartTask.value < |a.state.timers|)
  {
  }

  /** Acquisition leaves at most `_restart_task` sleeping; when it
      succeeds, the handle is set and its timer, the newest, sleeps. */
  lemma {:induction false} AcquiredSleeps(s: BrowserState, launch: Option<Error>)
    requires s.restartTask.Some? ==> s.restartTask.value < |s.timers|
    requires forall i :: 0 <= i < |s.timers| && s.timers[i].state == Sleeping ==> s.restartTask == Some(i)
    ensures var a := Acquired(s, launch);
      forall i :: 0 <= i < |a.state.timers| && a.state.timers[i].state == Sleeping ==> a.state.restartTask == Some(i)
    ensures var a := Acquired(s, launch);
      a.handle.Success? ==>
        && a.state.handle.Some? && |a.state.timers| > 0
        && a.state.timers[|a.state.timers| - 1].state == Sleeping
  {
    var kept := if Stale(s) then s.(handle := None) else s;
    if kept.handle.Some? {
      RestartedSleeps(kept);
    } else if launch.None? {
      RestartedSleeps(kept.(handle := Some(Handle(kept.launched, true)), launched := kept.launched + 1, requests := 0));
    }
  }

  /** The navigation as the job sees it. */
  function Seen(s: BrowserState, launch: Option<Error>, nav: Navigation): Navigation
  {
    if LaunchFails(s, launch) then Raises(launch.value) else nav
  }

  /** A turn that writes nothing is a cancellation before any answer, and
      every answer written is final. A turn that writes and leaves either
      failed the future with a `PlaywrightError` and returned, or resolved
      it and then raised: a cancellation as it is, any other error as the
      `InvalidStateError` of writing the done future a second time, after
      which the supervisor restarts the worker. */
  lemma AnswerLeaves(nav: Navigation)
    ensures Answer(nav).None? <==> nav == Raises(CancelledError)
    ensures Answer(nav).None? ==> Leaves(nav) == Some(Raised(CancelledError))
    ensures Answer(nav).Some? ==> !Answer(nav).value.Pending?
    ensures Answer(nav).Some? && Leaves(nav).Some? ==>
      || (Answer(nav) == Some(Failed(PlaywrightError)) && Leaves(nav) == Some(Returned))
      || (nav.AnsweredThenRaises? && Answer(nav) == Some(Resolved(nav.value))
          && Leaves(nav) == Some(Raised(if nav.error == CancelledError then CancelledError else InvalidStateError)))
    ensures Leaves(nav) == Some(Raised(InvalidStateError)) ==>
      nav.AnsweredThenRaises? && Restarts(Leaves(nav).value)
      && SetException(Answer(nav).value, nav.error) == Failure(InvalidStateError)
  {
  }

  /** A worker turn keeps the invariant. */
  lemma {:induction false} SteppedValid(s: BrowserState, launch: Option<Error>, nav: Navigation)
    requires Valid(s)
    ensures Valid(Stepped(s, launch, nav).state)
  {
    if !s.stopped {
      if s.queue == [] {
        TornDownValid(s, Raised(ValueError));
      } else {
        AcquiredValid(s, launch);
        AcquiredIgnoresQueue(s, s.queue, launch);
        TookDequeued(s, launch, nav);
        var a := Acquired(s, launch);
        var effective := Effective(a.handle, nav);
        var done := Dequeued(a.state, Answer(effective));
        var r := Stepped(s, launch, nav);
        AnswerLeaves(effective);
        DequeuedValid(a.state, Answer(effective));
        if Leaves(effective).None? {
          assert r.state == done;
        } else if Restarts(Leaves(effective).value) {
          TornDownValid(done, Leaves(effective).value);
        } else {
          assert r.state == TornDown(done, Raised(CancelledError));
        }
      }
    }
  }

  /** A worker turn that takes a job:
      - the job is the oldest one submitted that has not been answered (the
        queue is served first in, first out), and it leaves the queue;
      - the request counter goes up by one, from zero on a newly launched
        handle, and the unfinished-task counter goes down by one;
      - no other job's future changes. */
  lemma {:induction false} SteppedServes(s: BrowserState, launch: Option<Error>, nav: Navigation)
    requires Valid(s) && !s.stopped && s.queue != []
    ensures var r := Stepped(s, launch, nav); var j := s.queue[0];
      && j == Head(s)
      && (forall k :: 0 <= k < j ==> !s.jobs[k].future.Pending?)
      && s.jobs[j].future.Pending?
      && r.state.queue == s.queue[1..] && r.state.unfinished == s.unfinished - 1
      && r.state.requests == (if r.state.launched > s.launched then 1 else s.requests + 1)
      && |r.state.jobs| == |s.jobs|
      && (forall k :: 0 <= k < |s.jobs| && k != j ==> r.state.jobs[k] == s.jobs[k])
  {
    var q := s.queue[1..];
    AcquiredCounts(s, launch);
    AcquiredIgnoresQueue(s, q, launch);
    var a := Acquired(s.(queue := q), launch);
    FinishedCounts(a.state, s.queue[0], Effective(a.handle, nav));
  }

  /** Finishing counts the request and calls `task_done`, and writes no job but
      job `j`. */
  lemma FinishedCounts(t: BrowserState, j: nat, seen: Navigation)
    requires j < |t.jobs| && t.unfinished > 0
    requires t.restartTask.Some? ==> t.restartTask.value < |t.timers|
    ensures var r := Finished(t, j, seen);
      && r.state.queue == t.queue && r.state.unfinished == t.unfinished - 1
      && r.state.requests == t.requests + 1 && r.state.launched == t.launched
      && |r.state.jobs| == |t.jobs|
      && (forall k :: 0 <= k < |t.jobs| && k != j ==> r.state.jobs[k] == t.jobs[k])
  {
  }

  /** Finishing writes `Answer` of what the job saw to its future, and
      leaves the loop as `Leaves` says. */
  lemma FinishedWrites(t: BrowserState, j: nat, seen: Navigation)
    requires j < |t.jobs| && t.unfinished > 0
    requires t.restartTask.Some? ==> t.restartTask.value < |t.timers|
    ensures var r := Finished(t, j, seen);
      && j < |r.state.jobs|
      && r.state.jobs[j].future == (if Answer(seen).Some? then Answer(seen).value else t.jobs[j].future)
      && r.outcome == (if Leaves(seen).None? then Served(j) else Exited(Some(j), Leaves(seen).value))
  {
  }

  /** A job's turn writes `Answer` of what it saw to the job's future, and
      leaves the loop as `Leaves` says. */
  lemma {:induction false} SteppedWrites(s: BrowserState, launch: Option<Error>, nav: Navigation)
    requires Valid(s) && !s.stopped && s.queue != []
    ensures var r := Stepped(s, launch, nav); var j := s.queue[0]; var seen := Seen(s, launch, nav);
      && j < |r.state.jobs|
      && r.state.jobs[j].future == (if Answer(seen).Some? then Answer(seen).value else Pending)
      && r.outcome == (if Leaves(seen).None? then Served(j) else Exited(Some(j), Leaves(seen).value))
  {
    var q := s.queue[1..];
    AcquiredFails(s, launch);
    AcquiredIgnoresQueue(s, q, launch);
    var a := Acquired(s.(queue := q), launch);
    assert Effective(a.handle, nav) == Seen(s, launch, nav);
    FinishedWrites(a.state, s.queue[0], Effective(a.handle, nav));
  }

  /** The answer a job's turn writes: the value `execute` returned, or a
      `ConnectionError` with the status text for a non-ok response, or the
      error raised (by the launch first of all). A cancellation writes
      nothing and leaves the future pending. A `PlaywrightError` or a
      cancellation ends the worker; any other error, or a value, lets the
      loop go on. An error while closing the page or context after the value
      was written keeps the value and ends the worker with the
      `InvalidStateError` of the second write, or with the cancellation. */
  lemma SteppedAnswers(s: BrowserState, launch: Option<Error>, nav: Navigation)
    requires Valid(s) && !s.stopped && s.queue != []
    ensures var r := Stepped(s, launch, nav); var j := s.queue[0];
      j < |r.state.jobs| &&
      match Seen(s, launch, nav)
      case Loaded(v) => r.state.jobs[j].future == Resolved(v) && r.outcome == Served(j)
      case NotOk(text) => r.state.jobs[j].future == Failed(ConnectionError(text)) && r.outcome == Served(j)
      case Raises(PlaywrightError) =>
        r.state.jobs[j].future == Failed(PlaywrightError) && r.outcome == Exited(Some(j), Returned)
      case Raises(CancelledError) =>
        r.state.jobs[j].future == Pending && r.outcome == Exited(Some(j), Raised(CancelledError))
      case Raises(e) => r.state.jobs[j].future == Failed(e) && r.outcome == Served(j)
      case AnsweredThenRaises(v, e) =>
        r.state.jobs[j].future == Resolved(v)
        && r.outcome == Exited(Some(j), Raised(if e == CancelledError then CancelledError else InvalidStateError))
  {
    SteppedWrites(s, launch, nav);
  }

  /** A worker that leaves `_run` is torn down by the supervisor: no handle
      remains, no timer sleeps, and the supervisor runs the worker again
      unless it was cancelled. */
  lemma {:induction false} SteppedExits(s: BrowserState, launch: Option<Error>, nav: Navigation)
    requires Valid(s)
    ensures var r := Stepped(s, launch, nav);
      r.outcome.Exited? ==>
        && r.state.handle.None?
        && (forall i :: 0 <= i < |r.state.timers| ==> r.state.timers[i].state != Sleeping)
        && (r.state.stopped <==> !Restarts(r.outcome.reason))
    ensures var r := Stepped(s, launch, nav);
      (r.outcome == Stopped <==> s.stopped) && (r.outcome == Waiting <==> !s.stopped && s.queue == [] && !s.shutDown)
    ensures var r := Stepped(s, launch, nav);
      r.outcome == Stopped || r.outcome == Waiting ==> r.state == s
  {
    SteppedValid(s, launch, nav);
    if !s.stopped && s.queue != [] {
      AcquiredProps(s, launch);
      TookDequeued(s, launch, nav);
      var a := Acquired(s, launch);
      CancelEffect(a.state.timers, a.state.restartTask);
    } else {
      CancelEffect(s.timers, s.restartTask);
    }
  }

  /** Shutting the pool down does not stop it: on a shut-down, empty queue
      the worker's `task_done` raises `ValueError`, which the supervisor
      swallows, and the next turn finds the same state again, so the
      supervisor restarts forever even though `join` has returned. */
  lemma {:induction false} ShutDownRestartsForever(s: BrowserState, launch: Option<Error>, nav: Navigation)
    requires Valid(s) && !s.stopped && s.shutDown && s.queue == []
    ensures var r := Stepped(s, launch, nav);
      && r.outcome == Exited(None, Raised(ValueError)) && Restarts(r.outcome.reason)
      && Valid(r.state) && !r.state.stopped && r.state.shutDown && r.state.queue == []
      && JoinReturns(r.state) && r.state.handle.None?
  {
    SteppedValid(s, launch, nav);
  }

  /** The inputs of one worker turn. */
  datatype Input = Input(launch: Option<Error>, nav: Navigation)

  datatype Run = Run(state: BrowserState, outcomes: seq<Outcome>)

  /** Whether the worker loop goes on after these turns. */
  predicate GoesOn(outcomes: seq<Outcome>)
  {
    outcomes == [] || outcomes[|outcomes| - 1].Served?
  }

  /** The `while True` loop of `_run` fed with one input per turn: it goes on
      while its turns serve jobs. */
  function Ran(s: BrowserState, inputs: seq<Input>): (r: Run)
    requires Valid(s)
    ensures Valid(r.state)
  {
    if inputs == [] then Run(s, [])
    else
      var before := Ran(s, inputs[..|inputs| - 1]);
      if !GoesOn(before.outcomes) then before
      else
        var input := inputs[|inputs| - 1];
        SteppedValid(before.state, input.launch, input.nav);
        var turn := Stepped(before.state, input.launch, input.nav);
        Run(turn.state, before.outcomes + [turn.outcome])
  }

  /** One more turn of a loop that goes on. */
  lemma {:induction false} RanSnoc(s: BrowserState, inputs: seq<Input>, i: nat)
    requires Valid(s) && i < |inputs|
    requires GoesOn(Ran(s, inputs[..i]).outcomes)
    ensures var before := Ran(s, inputs[..i]);
      var turn := Stepped(before.state, inputs[i].launch, inputs[i].nav);
      Ran(s, inputs[..i + 1]) == Run(turn.state, before.outcomes + [turn.outcome])
  {
    var prefix := inputs[..i + 1];
    assert prefix[..|prefix| - 1] == inputs[..i];
    assert prefix[|prefix| - 1] == inputs[i];
  }

  /** Once the loop has stopped, further inputs are not read. */
  lemma {:induction false} RanStays(s: BrowserState, inputs: seq<Input>, k: nat)
    requires Valid(s) && k <= |inputs|
    requires !GoesOn(Ran(s, inputs[..k]).outcomes)
    ensures Ran(s, inputs) == Ran(s, inputs[..k])
  {
    if k < |inputs| {
      assert inputs[..|inputs| - 1][..k] == inputs[..k];
      RanStays(s, inputs[..|inputs| - 1], k);
    } else {
      assert inputs[..k] == inputs;
    }
  }

  /** The job a turn took, if any. */
  function TakenJob(o: Outcome): Option<nat>
  {
    match o
    case Served(j) => Some(j)
    case Exited(j, _) => j
    case _ => None
  }

  /** The outcomes of a run of the loop from `s` served the queue of `s`
      in order: every turn but the last served a job, the jobs taken are
      the first ones of the queue, and exactly those have left it. */
  ghost predicate InOrder(s: BrowserState, r: Run)
  {
    && (forall k :: 0 <= k < |r.outcomes| - 1 ==> r.outcomes[k].Served?)
    && (forall k :: 0 <= k < |r.outcomes| && TakenJob(r.outcomes[k]).Some? ==>
          k < |s.queue| && TakenJob(r.outcomes[k]) == Some(s.queue[k]))
    && (GoesOn(r.outcomes) ==> |r.outcomes| <= |s.queue| && r.state.queue == s.queue[|r.outcomes|..])
    && (GoesOn(r.outcomes) ==> !r.state.stopped)
  }

  /** A turn of a running worker takes the head of the queue, if any; a
      turn that served it goes on with the rest of the queue. */
  lemma {:induction false} SteppedTakes(s: BrowserState, launch: Option<Error>, nav: Navigation)
    requires Valid(s) && !s.stopped
    ensures var r := Stepped(s, launch, nav);
      && TakenJob(r.outcome) == (if s.queue == [] then None else Some(s.queue[0]))
      && (r.outcome.Served? ==> s.queue != [] && r.state.queue == s.queue[1..] && !r.state.stopped)
  {
    if s.queue != [] {
      TookDequeued(s, launch, nav);
      AcquiredIgnoresQueue(s, s.queue[1..], launch);
    }
  }

  /** A turn that takes the head of the queue, if any, and that goes on
      only with the rest of the queue, extends a run in order. */
  lemma {:induction false} InOrderSnoc(s: BrowserState, before: Run, turn: Turn)
    requires InOrder(s, before) && GoesOn(before.outcomes)
    requires TakenJob(turn.outcome) == (if before.state.queue == [] then None else Some(before.state.queue[0]))
    requires turn.outcome.Served? ==>
      before.state.queue != [] && turn.state.queue == before.state.queue[1..] && !turn.state.stopped
    ensures InOrder(s, Run(turn.state, before.outcomes + [turn.outcome]))
  {
    var t := before.state;
    var n := |before.outcomes|;
    var outs := before.outcomes + [turn.outcome];
    if t.queue != [] {
      assert t.queue[0] == s.queue[n];
      assert s.queue[n..][1..] == s.queue[n + 1..];
    }
    assert forall k :: 0 <= k < n ==> outs[k] == before.outcomes[k];
  }

  lemma {:induction false} InOrderStep(s: BrowserState, before: Run, input: Input)
    requires Valid(before.state) && InOrder(s, before) && GoesOn(before.outcomes)
    ensures var turn := Stepped(before.state, input.launch, input.nav);
      InOrder(s, Run(turn.state, before.outcomes + [turn.outcome]))
  {
    SteppedTakes(before.state, input.launch, input.nav);
    InOrderSnoc(s, before, Stepped(before.state, input.launch, input.nav));
  }

  /** The worker loop serves the queue in order: every turn but the last
      serves a job, the jobs taken are the first ones of the queue in queue
      order, and exactly those have left it. */
  lemma {:induction false} RanInOrder(s: BrowserState, inputs: seq<Input>)
    requires Valid(s) && !s.stopped
    ensures |Ran(s, inputs).outcomes| <= |inputs|
    ensures InOrder(s, Ran(s, inputs))
  {
    if inputs != [] {
      var init := inputs[..|inputs| - 1];
      RanInOrder(s, init);
      var before := Ran(s, init);
      if GoesOn(before.outcomes) {
        InOrderStep(s, before, inputs[|inputs| - 1]);
      }
    }
  }

  /** `Browser`: its fields, updated in place by its event methods. The jobs
      submitted so far are kept beside them, indexed by submission order. */
  class Browser {
    const maxInactivity: int
    const maxRequests: int
    var handle: Option<Handle>
    var launched: nat
    var requests: nat
    var timers: seq<Timer>
    var restartTask: Option<nat>
    var queue: seq<nat>
    var shutDown: bool
    var unfinished: nat
    var jobs: seq<Job>
    var stopped: bool

    function State(): BrowserState
      reads this
    {
      BrowserState(maxInactivity, maxRequests, handle, launched, requests, timers, restartTask,
                   queue, shutDown, unfinished, jobs, stopped)
    }

    /** `Browser.__init__`. */
    constructor (maxInactivity: Option<int>, maxRequests: Option<int>)
      ensures State() == Init(maxInactivity, maxRequests)
      ensures Valid(State())
    {
      this.maxInactivity := if maxInactivity.None? || maxInactivity.value == 0 then 30 else maxInactivity.value;
      this.maxRequests := if maxRequests.None? || maxRequests.value == 0 then 50 else maxRequests.value;
      handle := None;
      launched := 0;
      requests := 0;
      timers := [];
      restartTask := None;
      queue := [];
      shutDown := false;
      unfinished := 0;
      jobs := [];
      stopped := false;
    }

    /** `schedule_restart`. */
    method ScheduleRestart()
      modifies this
      requires restartTask.Some? ==> restartTask.value < |timers|
      ensures State() == Restarted(old(State()))
    {
      if restartTask.Some? {
        timers := timers[restartTask.value := Cancel(timers[restartTask.value])];
      }
      restartTask := Some(|timers|);
      timers := timers + [Timer(HandleId(handle), Sleeping)];
    }

    /** `browser()`: recycle a stale handle, launch one if there is none,
        then reschedule the idle restart. */
    method Acquire(launch: Option<Error>) returns (r: Result<nat, Error>)
      modifies this
      requires restartTask.Some? ==> restartTask.value < |timers|
      ensures Acquisition(State(), r) == Acquired(old(State()), launch)
    {
      if handle.Some? {
        if !handle.value.connected || requests >= maxRequests {
          handle := None;
        }
      }
      if handle.None? {
        if launch.Some? {
          return Failure(launch.value);
        }
        handle := Some(Handle(launched, true));
        launched := launched + 1;
        requests := 0;
      }
      ScheduleRestart();
      r := Success(handle.value.id);
    }

    /** The `_restart` task of timer `i` wakes up. */
    method Wake(i: nat)
      modifies this
      requires i < |timers|
      ensures State() == Woken(old(State()), i)
    {
      if timers[i].state == Sleeping {
        var tag := timers[i].tag;
        timers := timers[i := timers[i].(state := Fired)];
        if HandleId(handle) == tag {
          handle := None;
        }
      }
    }

    /** The browser process goes away on its own. */
    method Disconnect()
      modifies this
      ensures State() == Disconnected(old(State()))
    {
      if handle.Some? {
        handle := Some(handle.value.(connected := false));
      }
    }

    /** The `put_nowait` of `execute`; the caller then awaits `Answered`. */
    method Execute(url: string) returns (r: Result<nat, Error>)
      modifies this
      ensures Submission(State(), r) == Submitted(old(State()), url)
    {
      if shutDown {
        return Failure(QueueShutDown);
      }
      r := Success(|jobs|);
      jobs := jobs + [Job(url, Pending)];
      queue := queue + [|jobs| - 1];
      unfinished := unfinished + 1;
    }

    /** What `execute` returns for job `j` once its future is done. */
    function Answered(j: nat): Option<Result<string, Error>>
      reads this
      requires j < |jobs|
    {
      Awaited(jobs[j].future)
    }

    /** The queue's `shutdown`; `join` returns once `JoinReturns` holds. */
    method Shutdown()
      modifies this
      ensures State() == ShutDown(old(State()))
    {
      shutDown := true;
    }

    /** The `finally` of the supervisor. */
    method Teardown(reason: Exit)
      modifies this
      requires restartTask.Some? ==> restartTask.value < |timers|
      ensures State() == TornDown(old(State()), reason)
    {
      if restartTask.Some? {
        timers := timers[restartTask.value := Cancel(timers[restartTask.value])];
      }
      handle := None;
      stopped := reason == Raised(CancelledError);
    }

    /** One turn of the worker loop of `_run`, with the supervisor's
        teardown when the worker leaves. */
    method WorkerStep(launch: Option<Error>, nav: Navigation) returns (outcome: Outcome)
      modifies this
      requires Valid(State())
      ensures Turn(State(), outcome) == Stepped(old(State()), launch, nav)
      ensures Valid(State())
    {
      ghost var s := State();
      SteppedValid(s, launch, nav);
      if stopped {
        return Stopped;
      }
      if queue == [] {
        if !shutDown {
          return Waiting;
        }
        // `get` raises `QueueShutDown`, then `task_done` raises `ValueError`.
        Teardown(Raised(ValueError));
        return Exited(None, Raised(ValueError));
      }
      outcome := Serve(launch, nav);
    }

    /** A turn that takes a job: dequeue it, acquire a handle, then finish
        the job. */
    method Serve(launch: Option<Error>, nav: Navigation) returns (outcome: Outcome)
      modifies this
      requires queue != [] && queue[0] < |jobs| && unfinished > 0
      requires restartTask.Some? ==> restartTask.value < |timers|
      ensures Turn(State(), outcome) == Took(old(State()), launch, nav)
    {
      AcquiredIgnoresQueue(State(), queue[1..], launch);
      var j := queue[0];
      queue := queue[1..];
      var got := Acquire(launch);
      var seen := if got.Failure? then Raises(got.error) else nav;
      outcome := Finish(j, seen);
    }

    /** The job's answer, the `finally` bookkeeping (`_requests += 1`,
        `task_done()`), and the supervisor's teardown when the worker
        leaves. */
    method Finish(j: nat, seen: Navigation) returns (outcome: Outcome)
      modifies this
      requires j < |jobs| && unfinished > 0
      requires restartTask.Some? ==> restartTask.value < |timers|
      ensures Turn(State(), outcome) == Finished(old(State()), j, seen)
    {
      var answer := Answer(seen);
      if answer.Some? {
        jobs := jobs[j := jobs[j].(future := answer.value)];
      }
      requests := requests + 1;
      unfinished := unfinished - 1;
      var leaves := Leaves(seen);
      if leaves.Some? {
        Teardown(leaves.value);
        outcome := Exited(Some(j), leaves.value);
      } else {
        outcome := Served(j);
      }
    }

    /** The `while True` loop of `_run`: turns are taken while they serve
        jobs. */
    method RunWorker(inputs: seq<Input>) returns (outcomes: seq<Outcome>)
      modifies this
      requires Valid(State())
      ensures Run(State(), outcomes) == Ran(old(State()), inputs)
      ensures Valid(State())
    {
      outcomes := [];
      var i := 0;
      while i < |inputs| && GoesOn(outcomes)
        invariant 0 <= i <= |inputs|
        invariant Valid(State())
        invariant Run(State(), outcomes) == Ran(old(State()), inputs[..i])
      {
        RanSnoc(old(State()), inputs, i);
        var o := WorkerStep(inputs[i].launch, inputs[i].nav);
        outcomes := outcomes + [o];
        i := i + 1;
      }
      if i < |inputs| {
        RanStays(old(State()), inputs, i);
      } else {
        assert inputs[..i] == inputs;
      }
    }
  }
}
