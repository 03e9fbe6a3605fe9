# eSvitlo outage schedules and browser pool, modelled in Dafny

This project models the core of the eSvitlo calendar service. It covers
two things, each in its current version (`app/providers/…`) and its older
version (`providers/…`).

- **Outage-schedule normalisers.** They turn a provider's answer into
  ordered lists of outage intervals, one list per subscriber group.
  - **Yasno**: each day carries a date, a status and slots given as minute
    offsets from that date. `Day.get_slots` (current) or `Day.update_dt`
    (older) stamps the slots with the date. A status policy then keeps,
    drops or replaces the day's slots. `planned_outages` walks each
    group's days in the fixed `DayName` order. At every day boundary it
    merges the group's last slot with the day's first slot when they touch.
  - **DTEK**: hour states (`no` / `first` / `second`, anything else
    skipped) become 60- or 30-minute intervals. `_join_slots` folds
    touching intervals together, and provider codes go through the closed
    `GROUP_MAP`. In the current version an emergency page gives every
    group a single two-day interval.
- **Browser pool.** This is the state machine that recycles the browser
  handle. Its state is the handle, the request counter, the idle-restart
  timers, the job queue with its unfinished-task counter, and each job's
  write-once future. Its events are acquiring a handle (with recycling
  when the handle is disconnected or has served its quota), a worker turn
  over the oldest job, a timer firing, shutdown and teardown. The current
  pool runs its worker under a supervisor that restarts it; the older pool
  has no supervisor.

Units: Yasno dates and instants are integer minutes. DTEK instants are
integer seconds since the epoch. An exception the source raises becomes a
`Failure` carrying the exception kind.

Files and modules:

| file | module | models |
|---|---|---|
| common.dfy | `Common` | `Option`/`Result`, exception kinds, the `Group` enumeration |
| async.dfy | `AsyncModel` | a write-once `Future`; restart timer tasks and their cancellation |
| dtek.dfy | `Dtek` | app/providers/dtek.py. `_parse_group` and `_join_slots` are the same code in providers/dtek.py:61-98, so they are modelled once, here. |
| dtek_legacy.dfy | `DtekLegacy` | providers/dtek.py `planned_outages` |
| yasno.dfy | `Yasno` | app/providers/yasno.py |
| yasno_legacy.dfy | `YasnoLegacy` | providers/yasno.py |
| pool.dfy | `BrowserPool` | app/providers/__init__.py `Browser`, with a `Browser` class whose methods are its events |
| pool_legacy.dfy | `LegacyBrowserPool` | providers/__init__.py `Browser`, reusing the state, the invariant and the shared operations of `BrowserPool` |

Every imperative operation is a method, with loops where the source has
loops. Each method is proved against a specification function: its
`ensures` ties its result or its new state to that function. The
properties the source promises are then proved about the functions, as
lemmas.

## Model

| member | source | states |
|---|---|---|
| Common.GroupOf | app/providers/__init__.py:22-34 | `Group(code)` succeeds exactly on the twelve values and returns the group whose value is the code. Any other code is rejected, which stands for the `ValueError`. |
| Common.GroupsClosed | app/providers/__init__.py:22-34 | The enumeration has exactly twelve members, and iterating over it yields every group. |
| AsyncModel.WriteOnce | app/providers/__init__.py:51-71 | A pending future accepts either terminal write, and its awaiter then sees exactly what was written. A finished future refuses both writes with `InvalidStateError`. An awaiter is suspended exactly while the future is pending. |
| AsyncModel.CancelAt | app/providers/__init__.py:96-99 | Cancelling a task keeps the list of tasks the same length. |
| AsyncModel.CancelEffect | app/providers/__init__.py:96-99 | The cancelled task is no longer sleeping. Every tag is kept, no other task changes, and an already finished task is left as it is. |
| Dtek.GroupMap | app/providers/dtek.py:15-28 | A code maps to group g exactly when it is "GPV" followed by g's value. Every other code is the lookup's `KeyError`. |
| Dtek.HourSlot | app/providers/dtek.py:84-98 | An hour state yields a slot exactly for `no`/`first`/`second`: `no` is the whole 1-based hour, `first` its first half, `second` its second half. The slot lies inside the hour and carries the scheduled title. Any other state, `yes` included, is skipped. |
| Dtek.ParseGroup | app/providers/dtek.py:80-100 | The loop yields the recognised hours' slots in input order. Every slot has start < end and lasts 30 or 60 minutes. |
| Dtek.HourSlotsShape | app/providers/dtek.py:84-100 | There is at most one slot per hour key, and every slot is non-empty, 30 or 60 minutes long and scheduled. |
| Dtek.HourSlotsAppend | app/providers/dtek.py:84-100 | Parsing distributes over concatenation: output order is input order, and no slot depends on a neighbouring hour. |
| Dtek.Join | app/providers/dtek.py:102-117 | The joined list is empty exactly when the input is, and it is never longer. It starts at the input's first start and ends at the input's last end. No two consecutive slots touch. |
| Dtek.JoinSlots | app/providers/dtek.py:102-117 | The overwrite-last-or-append loop computes `Join`. |
| Dtek.JoinPreservesDuration | app/providers/dtek.py:107-117 | Joining preserves the summed duration of the slots. |
| Dtek.JoinSeparated | app/providers/dtek.py:107-117 | A list with no touching neighbours is returned unchanged. |
| Dtek.JoinIdempotent | app/providers/dtek.py:102-117 | `_join_slots` is idempotent. |
| Dtek.JoinConcat | app/providers/dtek.py:107-117 | Joining a concatenation is extending the joined first part slot by slot with the second. |
| Dtek.JoinRejoin | app/providers/dtek.py:141-143 | Re-joining the already-joined slots together with new ones gives the join of the whole concatenation. |
| Dtek.GroupSlotsAbsent | app/providers/dtek.py:136-145 | A group not mentioned by the entries has no slots. |
| Dtek.CollectStep | app/providers/dtek.py:139-143 | One inner iteration keeps the accumulation exact. The mapping's keys are the groups seen so far, and each maps to the join of all its parsed slots in data order. |
| Dtek.CollectRow | app/providers/dtek.py:139-143 | The inner loop over one timestamp either extends the accumulation by the whole row, or raises `KeyError` because one of the row's codes is unknown. |
| Dtek.CollectGroups | app/providers/dtek.py:136-145 | The accumulation fails, with `KeyError`, exactly when some code is unknown, so there is no partial result. Otherwise the keys are exactly the groups mentioned, and each maps to `_join_slots` of all its parsed slots in data order. |
| Dtek.ExecuteDecision | app/providers/dtek.py:53-66 | The emergency phrase wins over any fact. A schedule is returned only from a truthy fact that has "data", and a falsy fact is a `ValueError`, not an empty schedule. |
| Dtek.PlannedOutages | app/providers/dtek.py:119-145 | An emergency gives all twelve groups the single slot from today's midnight to two days later. A failed job propagates its error, and empty data gives no groups. Otherwise the result is that of `CollectGroups`. |
| DtekLegacy.PlannedOutages | providers/dtek.py:100-112 | No regex match or empty data gives `{}`, and a matched object without "data" raises `KeyError` (providers/dtek.py:55-59). Otherwise an unknown code raises `KeyError`, and each mentioned group maps to the join of its slots in data order. |
| Yasno.TitleByStatus | app/providers/yasno.py:72-80 | Two slots have the same title exactly when they have the same status, and a slot has a title exactly when it has a status. |
| Yasno.StampedInstants | app/providers/yasno.py:64-70 | A stamped slot's absolute start and end are the day's date plus its offsets. The emergency slot spans minutes 0 to 1440 of its date. |
| Yasno.StampAll | app/providers/yasno.py:90-93 | Stamping keeps the number and order of slots, and stamps each slot with the day's date and status. |
| Yasno.FilterStamped | app/providers/yasno.py:90-108 | For a scheduled day the filter keeps exactly the definite slots, in order. For a waiting day it keeps nothing. |
| Yasno.DayPolicy | app/providers/yasno.py:88-108 | A scheduled day yields its definite slots in order, stamped, and a waiting day yields nothing. An emergency day yields exactly one definite whole-day slot, whatever it carried. A status-less day yields its shown slots, unstamped. |
| Yasno.Day.constructor | app/providers/yasno.py:83-86 | A `Day` holds the validated slots, date and status. |
| Yasno.Day.GetSlots | app/providers/yasno.py:88-108 | The in-place stamping or replacement of `self.slots` is the status policy, and the result is the shown slots of the new list. |
| Yasno.BoundaryMerge | app/providers/yasno.py:144-161 | The merge fails with `TypeError` exactly when both lists are non-empty and an instant at the boundary is unset. When the two slots touch with equal type and status, they become one slot from the first's absolute start to the second's absolute end, and the rest of both lists is kept. Otherwise the day's slots are appended unchanged. |
| Yasno.ContributionStamped | app/providers/yasno.py:88-108 | A day with a status hands over only slots whose instants can be computed: stamped ones, or the emergency whole-day slot. |
| Yasno.MergeFromStamped | app/providers/yasno.py:144-161 | Merging a group's days fails only with `TypeError`, and never when every slot on every side is stamped; the merged list is then stamped too. |
| Yasno.MergeLength | app/providers/yasno.py:143-161 | A group's output length is the length of everything it already held plus all its days' slots, minus one per merged boundary, with at most one merge per day. |
| Yasno.GroupDaysStep | app/providers/yasno.py:138-139 | One more day name is one more step of the day loop. |
| Yasno.GroupDaysFailureStays | app/providers/yasno.py:137-161 | Once a day fails, the group's loop result is that failure. |
| Yasno.OutagesFailureStays | app/providers/yasno.py:137-161 | Once a group fails, the whole call's result is that failure. |
| Yasno.WholeGroupSnoc | app/providers/yasno.py:138-161 | One more present day, seen for the group as a whole, is one more merge step. |
| Yasno.GroupDaysMeaning | app/providers/yasno.py:138-161 | The day-by-day loop, with its early exit on failure, equals the whole-group view: the group's present days, in `DayName` order, merged in one go. With no present day nothing changes, even for an unknown code. Otherwise an unknown code is a `ValueError`. |
| Yasno.UnknownGroupFails | app/providers/yasno.py:139-144 | A code outside the twelve groups fails the whole call as soon as it has a present day, and with `ValueError` when the entries before it succeeded. |
| Yasno.PresentGrows | app/providers/yasno.py:136-163 | A group present before one more entry stays present. |
| Yasno.PresentBounded | app/providers/yasno.py:136-163 | One more entry adds at most its own group. |
| Yasno.PresentSnoc | app/providers/yasno.py:136-163 | The present groups after one more entry are the earlier ones plus that entry's group, if it is known and has a present day. |
| Yasno.OutagesSnoc | app/providers/yasno.py:137-161 | The call on one more entry is the call on the earlier entries followed by that entry's whole-group step. |
| Yasno.OutagesMeaning | app/providers/yasno.py:136-163 | With distinct codes, and when the call succeeds (when it does is `OutagesFailure`), the result's keys are exactly the known groups with a present day, so a group whose days all wait appears with an empty list. Each group's list is its present days' shown slots, in `DayName` order, merged at every boundary. |
| Yasno.OutagesFailure | app/providers/yasno.py:64-163 | The call fails with `ValueError` only when a code outside the twelve groups has a present day, and with `TypeError` only when some day has no status, so that a boundary instant may be unset. When every day has a status and every code with a present day is known, the call succeeds and every gathered slot has both dates set. |
| Yasno.AddDay | app/providers/yasno.py:139-161 | One present day builds the `Day`, takes its shown slots and merges them into its group. |
| Yasno.AddGroup | app/providers/yasno.py:138-161 | The inner loop visits the day names in order, skips absent names, and stops at the first failure. |
| Yasno.PlannedOutages | app/providers/yasno.py:131-163 | The loops compute `Outages`, which `OutagesMeaning`, `OutagesFailure` and `UnknownGroupFails` characterise. |
| YasnoLegacy.Dated | providers/yasno.py:90-93 | Dating keeps the number and order of slots, and gives each slot both dates equal to the day's date. |
| YasnoLegacy.DatedInstants | providers/yasno.py:76-93 | A dated slot's absolute start and end are the day's date plus its offsets, and its type and title are kept. |
| YasnoLegacy.Day.constructor | providers/yasno.py:85-88 | A `Day` holds the validated slots, date and status. |
| YasnoLegacy.Day.UpdateDt | providers/yasno.py:90-93 | Every slot of the day is dated in place. |
| YasnoLegacy.DayPolicy | providers/yasno.py:117-138 | A scheduled day brings all its slots, dated, not-planned ones included. An emergency day brings the whole-day emergency slot exactly when its date is before now. A waiting or status-less day brings nothing. |
| YasnoLegacy.ApplyAllDated | providers/yasno.py:118-138 | Dated actions applied to a dated list never fail and keep the list dated. An emergency slot is appended as it is, never joined. |
| YasnoLegacy.EmergencyJoinsNextDay | providers/yasno.py:123-138 | An emergency day followed by a scheduled day whose first definite slot starts at midnight yields one joined slot under the default title. |
| YasnoLegacy.ActionsDated | providers/yasno.py:115-138 | Every acting day's action is dated, and none is a skip. |
| YasnoLegacy.WholeGroupSnoc | providers/yasno.py:115-138 | One more acting day, seen for the group as a whole, is one more action step. |
| YasnoLegacy.GroupDaysMeaning | providers/yasno.py:115-138 | The day-by-day loop, with its early exit on failure, equals the whole-group view: the group's acting days' actions, in `DayName` order, applied in one go. A group with no acting day is left untouched, even with an unknown code. Otherwise an unknown code is a `ValueError`. |
| YasnoLegacy.GroupDaysStep | providers/yasno.py:115-116 | One more day name is one more step of the day loop. |
| YasnoLegacy.GroupDaysFailureStays | providers/yasno.py:114-138 | Once a day fails, the group's loop result is that failure. |
| YasnoLegacy.OutagesFailureStays | providers/yasno.py:114-138 | Once a group fails, the whole call's result is that failure. |
| YasnoLegacy.UnknownGroupFails | providers/yasno.py:120-138 | An unknown code fails the call once one of its days acts, and with `ValueError` when the entries before it succeeded. |
| YasnoLegacy.OutagesFailure | providers/yasno.py:113-140 | Every list in the result is dated, and the call fails only with `ValueError`, only for an unknown code with an acting day. |
| YasnoLegacy.PresentGrows | providers/yasno.py:113-140 | A group present before one more entry stays present. |
| YasnoLegacy.PresentBounded | providers/yasno.py:113-140 | One more entry adds at most its own group. |
| YasnoLegacy.PresentSnoc | providers/yasno.py:113-140 | The present groups after one more entry are the earlier ones plus that entry's group, if it is known and acts. |
| YasnoLegacy.OutagesSnoc | providers/yasno.py:114-138 | The call on one more entry is the call on the earlier entries followed by that entry's whole-group step. |
| YasnoLegacy.OutagesMeaning | providers/yasno.py:110-140 | With distinct codes, the keys are exactly the known groups with a scheduled day or a past emergency day. Each group's list is its acting days applied in `DayName` order. |
| YasnoLegacy.AddDay | providers/yasno.py:116-138 | One present day is dated and then applied to its group by its status. |
| YasnoLegacy.AddGroup | providers/yasno.py:115-138 | The inner loop visits the day names in order, skips absent names, and stops at the first failure. |
| YasnoLegacy.PlannedOutages | providers/yasno.py:110-140 | The loops compute `Outages`, which `OutagesMeaning` and `OutagesFailure` characterise. |
| BrowserPool.InitValid | app/providers/__init__.py:78-85 | A new pool satisfies the invariant, has no handle and a zero counter. The limits are 30 and 50 when an argument is missing or 0, and a non-zero request limit is kept. |
| BrowserPool.RestartedProps | app/providers/__init__.py:96-99 | Scheduling a restart keeps the invariant. It adds one timer, tagged with the current handle, and leaves every older timer not sleeping. |
| BrowserPool.RestartedSleeps | app/providers/__init__.py:96-99 | After scheduling, only `_restart_task` can be sleeping, and the new timer is. |
| BrowserPool.ValidFrame | app/providers/__init__.py:101-127 | Replacing the handle by one already launched, and resetting the counter, keeps the invariant. |
| BrowserPool.AcquiredValid | app/providers/__init__.py:101-130 | Acquisition keeps the invariant. |
| BrowserPool.AcquiredProps | app/providers/__init__.py:101-130 | The handle returned is connected. It is either the previous one, unchanged and under its quota, or a newly launched one with a zero counter, and a stale handle is never returned. Exactly one timer sleeps, the new one tagged with that handle. A failed launch leaves no handle. The queue is untouched. |
| BrowserPool.WokenProps | app/providers/__init__.py:87-94 | A firing timer clears the handle exactly when it was still sleeping and the handle is the one it was tagged with. Otherwise the handle is unchanged, and the counter and queue are never touched. |
| BrowserPool.DisconnectedProps | app/providers/__init__.py:101-106 | After a disconnection the handle is stale and is never returned again. |
| BrowserPool.SubmittedProps | app/providers/__init__.py:201-204 | A submitted job is new, pending and last in the queue, and nothing else changes. After shutdown, submission fails with `QueueShutDown` and changes nothing. |
| BrowserPool.ShutDownProps | app/providers/__init__.py:206-208 | After shutdown no job is accepted, and `join` returns exactly when the queue is empty. |
| BrowserPool.DequeuedValid | app/providers/__init__.py:173-199 | Taking the head job off the queue with a final answer keeps the invariant. |
| BrowserPool.TornDownValid | app/providers/__init__.py:141-150 | Teardown keeps the invariant and leaves no timer sleeping. |
| BrowserPool.FinishedDequeued | app/providers/__init__.py:184-199 | Finishing the job taken off the queue writes its answer, counts the request and calls `task_done`, and tears down if the worker leaves. |
| BrowserPool.TookDequeued | app/providers/__init__.py:166-199 | A job's turn is acquisition followed by finishing the head job. |
| BrowserPool.AcquiredIgnoresQueue | app/providers/__init__.py:101-130 | `browser()` neither reads nor writes the queue, the jobs or their counters. |
| BrowserPool.AcquiredCounts | app/providers/__init__.py:108-127 | Acquisition only launches new handles. The counter restarts from zero on a new handle and is kept otherwise. |
| BrowserPool.AcquiredFails | app/providers/__init__.py:101-130 | Acquisition fails exactly when there is no usable handle and the launch raises. |
| BrowserPool.AcquiredSleeps | app/providers/__init__.py:101-130 | At most `_restart_task` sleeps after acquisition. On success the handle is set and the newest timer sleeps. |
| BrowserPool.AnswerLeaves | app/providers/__init__.py:184-195 | A turn writes nothing exactly when it is cancelled before any answer, and every write is final. A turn that writes and then leaves either failed the future with a `PlaywrightError` and returned, or resolved it and then raised while closing the page or context. In that case a cancellation leaves as it is, and any other error becomes the `InvalidStateError` that `set_exception` raises on the done future, after which the supervisor restarts. |
| BrowserPool.SteppedValid | app/providers/__init__.py:132-199 | Every worker turn, teardown included, keeps the invariant. |
| BrowserPool.SteppedServes | app/providers/__init__.py:166-199 | A turn takes the oldest unanswered job (FIFO) off the queue. The request counter rises by one, from zero on a new handle, and the unfinished-task count falls by one. No other job's future changes. |
| BrowserPool.FinishedCounts | app/providers/__init__.py:197-199 | Finishing counts exactly one request and one task, and writes no other job. |
| BrowserPool.FinishedWrites | app/providers/__init__.py:184-199 | Finishing writes the answer for what the job saw, and leaves the loop as that says. |
| BrowserPool.SteppedWrites | app/providers/__init__.py:173-199 | A job's turn writes the answer for what it saw, with a failed launch raising first. |
| BrowserPool.SteppedAnswers | app/providers/__init__.py:184-195 | A value resolves the future, and a non-ok response fails it with `ConnectionError(status_text)`; both go on. A `PlaywrightError` fails it and ends the worker. A cancellation leaves it pending and ends the worker. Any other error fails it and goes on. An error while closing the page or context after the value is written keeps the value and ends the worker with `InvalidStateError`, or with the cancellation. |
| BrowserPool.SteppedExits | app/providers/__init__.py:132-152 | A worker that leaves is torn down: no handle remains and no timer sleeps. The supervisor stops exactly on a cancellation. An idle turn changes nothing. |
| BrowserPool.ShutDownRestartsForever | app/providers/__init__.py:166-171 | On a shut-down empty queue the worker exits with `ValueError`. The supervisor restarts it into the same state, so the pool never stops although `join` has returned. |
| BrowserPool.Ran | app/providers/__init__.py:166-199 | The worker loop keeps the invariant over any inputs. |
| BrowserPool.RanSnoc | app/providers/__init__.py:166-199 | A loop that goes on takes one more turn per input. |
| BrowserPool.RanStays | app/providers/__init__.py:166-199 | Once the loop has left, further inputs are not read. |
| BrowserPool.SteppedTakes | app/providers/__init__.py:166-171 | A running worker's turn takes the head of the queue, if any, and goes on only with the rest of the queue. |
| BrowserPool.InOrderSnoc | app/providers/__init__.py:166-199 | A turn that takes the head of the queue extends an in-order run. |
| BrowserPool.InOrderStep | app/providers/__init__.py:166-199 | Each worker turn extends an in-order run. |
| BrowserPool.RanInOrder | app/providers/__init__.py:166-199 | The worker serves the queue in order. Every turn but the last serves a job, the jobs taken are the queue's first ones in order, and exactly those have left it. |
| BrowserPool.Browser.constructor | app/providers/__init__.py:78-85 | The fields start as `Init` says, and the invariant holds. |
| BrowserPool.Browser.ScheduleRestart | app/providers/__init__.py:96-99 | The fields change as `Restarted` says. |
| BrowserPool.Browser.Acquire | app/providers/__init__.py:101-130 | The fields and the returned handle are those of `Acquired`. |
| BrowserPool.Browser.Wake | app/providers/__init__.py:87-94 | The fields change as `Woken` says. |
| BrowserPool.Browser.Disconnect | app/providers/__init__.py:101-106 | The handle is marked disconnected. |
| BrowserPool.Browser.Execute | app/providers/__init__.py:201-204 | The fields and the job index are those of `Submitted`. |
| BrowserPool.Browser.Shutdown | app/providers/__init__.py:206-208 | The queue is marked shut down. |
| BrowserPool.Browser.Teardown | app/providers/__init__.py:141-150 | The fields change as `TornDown` says. |
| BrowserPool.Browser.WorkerStep | app/providers/__init__.py:166-199 | The fields and outcome are those of `Stepped`, and the invariant is kept. |
| BrowserPool.Browser.Serve | app/providers/__init__.py:168-199 | The fields and outcome are those of `Took`. |
| BrowserPool.Browser.Finish | app/providers/__init__.py:184-199 | The fields and outcome are those of `Finished`. |
| BrowserPool.Browser.RunWorker | app/providers/__init__.py:166-199 | The fields and outcomes are those of `Ran`, and the invariant is kept. |
| LegacyBrowserPool.FinishedDequeued | providers/__init__.py:116-135 | Finishing the job taken off the queue writes its answer, counts the request and calls `task_done`, and then breaks to the teardown or leaves `run`. |
| LegacyBrowserPool.TookDequeued | providers/__init__.py:104-135 | A job's turn is acquisition followed by finishing the head job. |
| LegacyBrowserPool.AnswerLeaves | providers/__init__.py:116-131 | Every write is final. A turn that writes nothing leaves the loop, and a `break` writes nothing. The only turn that writes and leaves is one whose content was set and which then raised while closing the page or context. A cancellation leaves as it is; any other error becomes the `InvalidStateError` of `set_exception` on the done future. |
| LegacyBrowserPool.TornDownValid | providers/__init__.py:137-145 | The code after the loop keeps the invariant and leaves no timer sleeping. |
| LegacyBrowserPool.DequeuedValid | providers/__init__.py:104-135 | Taking the head job off the queue keeps the invariant, whether the loop goes on, breaks or leaves. |
| LegacyBrowserPool.SteppedValid | providers/__init__.py:102-145 | Every turn keeps the invariant. |
| LegacyBrowserPool.SteppedServes | providers/__init__.py:104-135 | A turn takes the oldest unanswered job (FIFO). The counter rises by one, from zero on a new handle, and the unfinished-task count falls by one. No other job changes. |
| LegacyBrowserPool.FinishedCounts | providers/__init__.py:133-135 | Finishing counts exactly one request and one task, and writes no other job. |
| LegacyBrowserPool.FinishedWrites | providers/__init__.py:116-135 | Finishing writes the answer for what the job saw, and leaves the loop as that says. |
| LegacyBrowserPool.SteppedWrites | providers/__init__.py:108-135 | A job's turn writes the answer for what it saw, with a failed launch raising first. |
| LegacyBrowserPool.SteppedAnswers | providers/__init__.py:116-131 | Ok resolves with the content, and non-ok fails with `ConnectionError(status_text)`; both go on. A cancelled or Playwright-failed `goto` writes nothing and breaks. A cancellation elsewhere writes nothing and leaves `run`. Any other error fails the future and goes on. An error while closing the page or context after the content is set keeps the content and leaves `run` with `InvalidStateError`, or with the cancellation. |
| LegacyBrowserPool.FinishedExits | providers/__init__.py:116-145 | A `break` tears down: no handle remains and no timer sleeps. Any other exit is a cancellation that wrote nothing, or an error after the content was set, leaving as the cancellation or as `InvalidStateError`. Either way the handle and the timers stay as they were. |
| LegacyBrowserPool.SteppedExits | providers/__init__.py:102-145 | Every exit is final. A `break` tears down. A cancellation, or the `InvalidStateError` of writing an answered future again, skips the teardown and, unless the launch failed, leaves a handle and its sleeping timer behind. |
| LegacyBrowserPool.SteppedIdle | providers/__init__.py:102-106 | A turn does nothing exactly when `run` has returned, or when the queue is empty and open. |
| LegacyBrowserPool.ShutDownStops | providers/__init__.py:103-106 | On a shut-down empty queue the loop breaks and tears down, `join` returns, and no later turn does anything. |
| LegacyBrowserPool.StoppedStarves | providers/__init__.py:147-153 | After `run` has returned on an open queue, `get` still accepts jobs, but no turn takes them, so they stay pending. |
| LegacyBrowserPool.Ran | providers/__init__.py:102-135 | The loop keeps the invariant over any inputs. |
| LegacyBrowserPool.RanSnoc | providers/__init__.py:102-135 | A loop that goes on takes one more turn per input. |
| LegacyBrowserPool.RanStays | providers/__init__.py:102-135 | Once the loop has left, further inputs are not read. |
| LegacyBrowserPool.SteppedTakes | providers/__init__.py:102-106 | A running loop's turn takes the head of the queue, if any, and goes on only with the rest of the queue. |
| LegacyBrowserPool.InOrderStep | providers/__init__.py:102-135 | Each turn extends an in-order run. |
| LegacyBrowserPool.RanInOrder | providers/__init__.py:102-135 | The loop serves the queue in FIFO order, exactly as in the current pool. |
| LegacyBrowserPool.Browser.constructor | providers/__init__.py:34-41 | The fields start as `Init` says, and the invariant holds. |
| LegacyBrowserPool.Browser.ScheduleRestart | providers/__init__.py:52-55 | The fields change as `Restarted` says. |
| LegacyBrowserPool.Browser.Acquire | providers/__init__.py:57-86 | The fields and the returned handle are those of `Acquired`. |
| LegacyBrowserPool.Browser.Wake | providers/__init__.py:43-50 | The fields change as `Woken` says. |
| LegacyBrowserPool.Browser.Get | providers/__init__.py:147-153 | The fields and the job index are those of `Submitted`. |
| LegacyBrowserPool.Browser.Shutdown | providers/__init__.py:155-157 | The queue is marked shut down. |
| LegacyBrowserPool.Browser.Teardown | providers/__init__.py:137-145 | The fields change as `TornDown` says. |
| LegacyBrowserPool.Browser.Step | providers/__init__.py:102-145 | The fields and outcome are those of `Stepped`, and the invariant is kept. |
| LegacyBrowserPool.Browser.Serve | providers/__init__.py:104-135 | The fields and outcome are those of `Took`. |
| LegacyBrowserPool.Browser.Finish | providers/__init__.py:116-145 | The fields and outcome are those of `Finished`. |
| LegacyBrowserPool.Browser.Run | providers/__init__.py:102-145 | The fields and outcomes are those of `Ran`, and the invariant is kept. |

## Left out

- Playwright is left out: launching, `new_context`, request blocking, `goto`, `content`, `wait_for_function` and `evaluate`. Their outcomes are inputs. A launch failure is `Option<Error>`, and a navigation is ok with a value, non-ok with a status text, an exception kind, or a written value followed by an error from closing the page or context. Closing a handle is not modelled, because its errors are suppressed.
- Asyncio scheduling is left out. Holding the browser lock is one event run to its end. A timer's sleep is the separate `Wake` event, and it may fire whenever the environment chooses. Interleaving of callers is not modelled.
- Cancelling a caller's `execute`/`get` task while it awaits its future is not modelled, and neither are cancellations delivered to the worker other than through a turn's outcome.
- The automation runtime (`async_playwright().start()`/`stop()`, and the `async with` in the older pool) is not modelled. Neither is the `max_inactivity` sleep duration: a timer's firing is an event, not a clock.
- The network is left out: the Yasno HTTP fetch, `regions`, and the DTEK page fetch and its BeautifulSoup text. The Yasno answer is given already decoded and validated, as a sequence of `(group code, {day key: day})` entries in key order. The DTEK emergency check is a boolean input. The older DTEK regex/JSON extraction is an input with three cases: no match, no "data" key, or the data.
- Wall-clock time and time zones are left out. The older Yasno "now" and the current DTEK "today's Kyiv midnight" are parameters. DST, `zoneinfo` and `datetime` arithmetic beyond integer minutes/seconds are not modelled.
- Python dict key order is given by the input sequences, and output maps are Dafny maps, so the key order of the returned dicts is not modelled.
- Yasno regions/DSOs, `Dso.link`, `DtekNetwork.link`, `DtekShutdowns.networks`, the calendar projection, caching and logging are not part of this model.
- BrowserPool.Browser.Execute: models only the enqueue. The awaiting and the `job.result` read are the function `Answered`, over the job's future.
- BrowserPool.ShutDownRestartsForever: on a shut-down empty queue, `task_done()` is called with no unfinished task. This model takes that call to raise `ValueError`, and the supervisor then swallows it and restarts. This follows the code, not the intended drain-then-stop shutdown, and no clean shutdown of the current pool is claimed.
- YasnoLegacy.EmergencyJoinsNextDay: the older merge compares types but not titles, so an emergency slot can be joined with the next day's first slot. This is the code's behaviour, modelled as written, even though emergency windows are meant never to merge with scheduled ones.
- LegacyBrowserPool.StoppedStarves: the older pool has no supervisor. After a `break`, jobs submitted later are never answered. This is modelled as written.
- DTEK hour keys and fact timestamps are taken as already-converted integers. The `ValueError` that `int()` raises on a malformed key (app/providers/dtek.py:85 and :138, providers/dtek.py:66 and :107) is not modelled, even for an hour whose state is skipped.
- Yasno.OutagesMeaning: requires the group codes of the answer are distinct, as keys of a JSON object are.
- YasnoLegacy.OutagesMeaning: requires the group codes of the answer are distinct, as keys of a JSON object are.
