/** The two pieces of asyncio the browser pools rely on, reduced to values:
    a job's future, which accepts exactly one terminal write, and an idle
    timer task, created sleeping and then either cancelled or fired. */
module AsyncModel {
  import opened Common

  /** An `asyncio.Future` holding a page-derived value. */
  datatype Future = Pending | Resolved(value: string) | Failed(error: Error)

  /** `Future.set_result`: `InvalidStateError` once the future is done. */
  function SetResult(f: Future, v: string): Result<Future, Error>
  {
    if f.Pending? then Success(Resolved(v)) else Failure(InvalidStateError)
  }

  /** `Future.set_exception`. */
  function SetException(f: Future, e: Error): Result<Future, Error>
  {
    if f.Pending? then Success(Failed(e)) else Failure(InvalidStateError)
  }

  /** What awaiting the future and then reading its result gives:
      `None` while it is pending (the awaiting caller is still suspended),
      otherwise the value or the exception it was completed with. */
  function Awaited(f: Future): Option<Result<string, Error>>
  {
    match f
    case Pending => None
    case Resolved(v) => Some(Success(v))
    case Failed(e) => Some(Failure(e))
  }

  /** A future accepts one terminal write: on a pending future either write
      succeeds and the awaiting caller then sees exactly what was written;
      on a done future every write fails with `InvalidStateError`. */
  lemma WriteOnce(f: Future, v: string, e: Error)
    ensures f.Pending? ==>
      SetResult(f, v).Success? && Awaited(SetResult(f, v).value) == Some(Success(v))
      && SetException(f, e).Success? && Awaited(SetException(f, e).value) == Some(Failure(e))
    ensures !f.Pending? ==>
      SetResult(f, v) == Failure(InvalidStateError) && SetException(f, e) == Failure(InvalidStateError)
    ensures Awaited(f).None? <==> f.Pending?
  {
  }

  datatype TimerState = Sleeping | Cancelled | Fired

  /** The `_restart` task: the handle it was created for, and how far it got. */
  datatype Timer = Timer(tag: Option<nat>, state: TimerState)

  /** `Task.cancel`: a sleeping timer is cancelled; one that is already
      finished is left as it is. */
  function Cancel(t: Timer): Timer
  {
    if t.state == Sleeping then t.(state := Cancelled) else t
  }

  function CancelAt(timers: seq<Timer>, task: Option<nat>): (r: seq<Timer>)
    requires task.Some? ==> task.value < |timers|
    ensures |r| == |timers|
  {
    if task.Some? then timers[task.value := Cancel(timers[task.value])] else timers
  }

  /** Cancelling a task leaves it not sleeping, keeps its tag, and touches
      no other task. */
  lemma CancelEffect(timers: seq<Timer>, task: Option<nat>)
    requires task.Some? ==> task.value < |timers|
    ensures task.Some? ==> CancelAt(timers, task)[task.value].state != Sleeping
    ensures forall i :: 0 <= i < |timers| ==> CancelAt(timers, task)[i].tag == timers[i].tag
    ensures forall i :: 0 <= i < |timers| && Some(i) != task ==> CancelAt(timers, task)[i] == timers[i]
    ensures forall i :: 0 <= i < |timers| && timers[i].state != Sleeping ==> CancelAt(timers, task)[i] == timers[i]
  {
  }
}
