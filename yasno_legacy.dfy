/** The older Yasno schedule normaliser (providers/yasno.py). It declares the
    same enumerations as the current one (`SlotType`, `DayName`, `DayStatus`
    and the group codes, modelled once in `Yasno` and `Common`) but follows
    another policy: slots carry a title instead of a status, `Day.update_dt`
    dates every slot of a day, only a scheduled day is merged in (all its
    slots, not-planned ones included), an emergency day that has already
    begun is appended as one whole-day slot without a boundary merge, and
    every other day leaves the groups untouched. Instants are integer
    minutes; the current time `now` is a parameter. */
module YasnoLegacy {
  import opened Common
  import Y = Yasno

  const DefaultTitle := "Відсутність світла"
  const EmergencyTitle := "🚨 Екстрені відключення"

  /** The older `Slot`: offsets from dates that stay unset until a day dates
      them, a type and a title. */
  datatype Slot = Slot(
    start: int,
    end: int,
    slotType: Y.SlotType,
    title: string,
    dateStart: Option<int>,
    dateEnd: Option<int>)

  /** `Slot.dt_start`; `None` is the `TypeError` of an unset date. */
  function DtStart(s: Slot): Option<int>
  {
    match s.dateStart
    case Some(d) => Some(d + s.start)
    case None => None
  }

  /** `Slot.dt_end`. */
  function DtEnd(s: Slot): Option<int>
  {
    match s.dateEnd
    case Some(d) => Some(d + s.end)
    case None => None
  }

  predicate IsDated(s: Slot)
  {
    s.dateStart.Some? && s.dateEnd.Some?
  }

  /** A slot dated by a day of date `date`. */
  function DateSlot(s: Slot, date: int): Slot
  {
    s.(dateStart := Some(date), dateEnd := Some(date))
  }

  function Dated(slots: seq<Slot>, date: int): (r: seq<Slot>)
    ensures |r| == |slots|
    ensures forall k :: 0 <= k < |slots| ==> r[k] == DateSlot(slots[k], date)
  {
    seq(|slots|, k requires 0 <= k < |slots| => DateSlot(slots[k], date))
  }

  /** After `update_dt` every slot of the day is dated, runs from the day's
      date plus its start offset to the day's date plus its end offset, and
      keeps its type and title. */
  lemma DatedInstants(slots: seq<Slot>, date: int)
    ensures forall k :: 0 <= k < |slots| ==>
      && IsDated(Dated(slots, date)[k])
      && DtStart(Dated(slots, date)[k]) == Some(date + slots[k].start)
      && DtEnd(Dated(slots, date)[k]) == Some(date + slots[k].end)
      && Dated(slots, date)[k].slotType == slots[k].slotType
      && Dated(slots, date)[k].title == slots[k].title
  {
  }

  /** The older `Day`, whose `update_dt` dates its slots in place. */
  class Day {
    var slots: seq<Slot>
    const date: int
    const status: Option<Y.DayStatus>

    constructor (slots: seq<Slot>, date: int, status: Option<Y.DayStatus>)
      ensures this.slots == slots && this.date == date && this.status == status
    {
      this.slots := slots;
      this.date := date;
      this.status := status;
    }

    /** `Day.update_dt`: sets both dates of every slot to the day's date. */
    method UpdateDt()
      modifies this
      ensures slots == Dated(old(slots), date)
    {
      var i := 0;
      while i < |slots|
        invariant 0 <= i <= |slots| == |old(slots)|
        invariant forall k :: 0 <= k < i ==> slots[k] == DateSlot(old(slots)[k], date)
        invariant forall k :: i <= k < |slots| ==> slots[k] == old(slots)[k]
      {
        slots := slots[i := DateSlot(slots[i], date)];
        i := i + 1;
      }
    }
  }

  /** A day as the provider sends it, after validation. */
  datatype DayRecord = DayRecord(slots: seq<Slot>, date: int, status: Option<Y.DayStatus>)

  /** What a present day does to its group. */
  datatype Action =
    | MergeIn(slots: seq<Slot>)  // a scheduled day: merge its slots at the boundary
    | Append(slot: Slot)         // an emergency day already begun: append one slot
    | Skip                       // any other day: nothing, not even the group's entry

  /** The whole-day slot an emergency day is reported as. */
  function EmergencySlot(date: int): Slot
  {
    Slot(0, Y.DayMinutes, Y.Definite, EmergencyTitle, Some(date), Some(date))
  }

  /** The status policy of the older `planned_outages`. */
  function DayAction(d: DayRecord, now: int): Action
  {
    if d.status == Some(Y.ScheduleApplies) then MergeIn(Dated(d.slots, d.date))
    else if d.status == Some(Y.EmergencyShutdowns) && d.date < now then Append(EmergencySlot(d.date))
    else Skip
  }

  /** A scheduled day brings all its slots, dated, not-planned ones included;
      an emergency day brings the one whole-day emergency slot once its date
      has come and nothing before; a waiting day or a day without a status
      brings nothing. */
  lemma DayPolicy(d: DayRecord, now: int)
    ensures d.status == Some(Y.ScheduleApplies) ==>
      DayAction(d, now).MergeIn? && |DayAction(d, now).slots| == |d.slots|
      && forall k :: 0 <= k < |d.slots| ==>
           DayAction(d, now).slots[k].slotType == d.slots[k].slotType
           && DtStart(DayAction(d, now).slots[k]) == Some(d.date + d.slots[k].start)
    ensures d.status == Some(Y.EmergencyShutdowns) ==>
      (DayAction(d, now).Append? <==> d.date < now)
    ensures DayAction(d, now).Append? ==>
      DtStart(DayAction(d, now).slot) == Some(d.date)
      && DtEnd(DayAction(d, now).slot) == Some(d.date + Y.DayMinutes)
      && DayAction(d, now).slot.title == EmergencyTitle
    ensures d.status == Some(Y.WaitingForSchedule) || d.status == None ==> DayAction(d, now) == Skip
  {
  }

  /** The older merge condition: touching instants and equal types only. */
  function Touches(last: Slot, first: Slot): Option<bool>
  {
    match (DtEnd(last), DtStart(first))
    case (Some(e), Some(s)) => Some(e == s && last.slotType == first.slotType)
    case _ => None
  }

  /** The joined slot keeps the first's type and takes the default title. */
  function Joined(last: Slot, first: Slot): Slot
  {
    Slot(last.start, first.end, last.slotType, DefaultTitle, last.dateStart, first.dateEnd)
  }

  function MergeAtBoundary(acc: seq<Slot>, next: seq<Slot>): Result<seq<Slot>, Error>
  {
    if acc != [] && next != [] then
      match Touches(acc[|acc| - 1], next[0])
      case None => Failure(TypeError)
      case Some(true) => Success(acc[..|acc| - 1] + [Joined(acc[|acc| - 1], next[0])] + next[1..])
      case Some(false) => Success(acc + next)
    else
      Success(acc + next)
  }

  /** A present day's action applied to a group's list. */
  function Apply(acc: seq<Slot>, a: Action): Result<seq<Slot>, Error>
  {
    match a
    case MergeIn(slots) => MergeAtBoundary(acc, slots)
    case Append(slot) => Success(acc + [slot])
    case Skip => Success(acc)
  }

  function ApplyAll(acc: seq<Slot>, actions: seq<Action>): Result<seq<Slot>, Error>
  {
    if actions == [] then Success(acc)
    else match ApplyAll(acc, actions[..|actions| - 1])
      case Failure(e) => Failure(e)
      case Success(a) => Apply(a, actions[|actions| - 1])
  }

  predicate AllDated(slots: seq<Slot>)
  {
    forall k :: 0 <= k < |slots| ==> IsDated(slots[k])
  }

  /** An action whose slots are all dated. */
  predicate ActionDated(a: Action)
  {
    match a
    case MergeIn(slots) => AllDated(slots)
    case Append(slot) => IsDated(slot)
    case Skip => true
  }

  /** Slots reach a group only from `update_dt`, so every boundary can be
      compared: applying dated actions to a dated list never fails, and the
      list stays dated. An emergency slot is appended as it is, never joined
      with its neighbour. */
  lemma {:induction false} ApplyAllDated(acc: seq<Slot>, actions: seq<Action>)
    requires AllDated(acc)
    requires forall k :: 0 <= k < |actions| ==> ActionDated(actions[k])
    ensures ApplyAll(acc, actions).Success?
    ensures AllDated(ApplyAll(acc, actions).value)
    ensures actions != [] && actions[|actions| - 1].Append? ==>
      ApplyAll(acc, actions).value ==
        ApplyAll(acc, actions[..|actions| - 1]).value + [actions[|actions| - 1].slot]
  {
    if actions != [] {
      var init := actions[..|actions| - 1];
      ApplyAllDated(acc, init);
      var a := ApplyAll(acc, init).value;
      match actions[|actions| - 1]
      case MergeIn(slots) =>
        var r := MergeAtBoundary(a, slots).value;
        if a != [] && slots != [] && Touches(a[|a| - 1], slots[0]) == Some(true) {
          forall k | 0 <= k < |r| ensures IsDated(r[k]) {
            if k < |a| - 1 {
              assert r[k] == a[k];
            } else if k >= |a| {
              assert r[k] == slots[k - |a| + 1];
            }
          }
        } else {
          forall k | 0 <= k < |r| ensures IsDated(r[k]) {
            if k >= |a| {
              assert r[k] == slots[k - |a|];
            }
          }
        }
      case Append(slot) =>
      case Skip =>
    }
  }

  /** The older merge compares types but not titles: an emergency day
      followed by a scheduled day whose first definite slot starts at
      midnight is reported as one slot under the default title, and the
      emergency title is lost. */
  lemma {:induction false} EmergencyJoinsNextDay(date: int, s: Slot)
    requires s.start == 0 && s.slotType == Y.Definite
    ensures ApplyAll([], [Append(EmergencySlot(date)), MergeIn(Dated([s], date + Y.DayMinutes))])
      == Success([Slot(0, s.end, Y.Definite, DefaultTitle, Some(date), Some(date + Y.DayMinutes))])
  {
    var e := EmergencySlot(date);
    var next := Dated([s], date + Y.DayMinutes);
    var actions := [Append(e), MergeIn(next)];
    assert actions[..1] == [Append(e)];
    assert [Append(e)][..0] == [];
    assert [] + [e] == [e];
    assert ApplyAll([], [Append(e)]) == Apply([], Append(e)) == Success([e]);
    assert ApplyAll([], actions) == MergeAtBoundary([e], next);
    assert next[0] == DateSlot(s, date + Y.DayMinutes);
    assert Touches(e, next[0]) == Some(true);
    assert [e][..0] + [Joined(e, next[0])] + next[1..] == [Joined(e, next[0])];
  }

  /** The days of one group that act on it, in `DayName` order. */
  function Actions(days: map<string, DayRecord>, names: seq<Y.DayName>, now: int): seq<Action>
  {
    if names == [] then []
    else
      var name := names[|names| - 1];
      Actions(days, names[..|names| - 1], now) +
        if Y.Key(name) in days && DayAction(days[Y.Key(name)], now) != Skip
        then [DayAction(days[Y.Key(name)], now)] else []
  }

  lemma {:induction false} ActionsDated(days: map<string, DayRecord>, names: seq<Y.DayName>, now: int)
    ensures forall k :: 0 <= k < |Actions(days, names, now)| ==>
      ActionDated(Actions(days, names, now)[k]) && Actions(days, names, now)[k] != Skip
  {
    if names != [] {
      var init := names[..|names| - 1];
      ActionsDated(days, init, now);
      var name := names[|names| - 1];
      if Y.Key(name) in days && DayAction(days[Y.Key(name)], now).MergeIn? {
        var d := days[Y.Key(name)];
        DatedInstants(d.slots, d.date);
      }
    }
  }

  /** An acting day applied to one group: `Group(code)` fails with
      `ValueError` for an unknown code. */
  function ActStep(groups: map<Group, seq<Slot>>, code: string, a: Action): Result<map<Group, seq<Slot>>, Error>
  {
    match GroupOf(code)
    case None => Failure(ValueError)
    case Some(g) =>
      match Apply(if g in groups then groups[g] else [], a)
      case Failure(e) => Failure(e)
      case Success(slots) => Success(groups[g := slots])
  }

  /** One present day of one group; `Group(code)` is evaluated only when the
      day acts. */
  function DayStep(groups: map<Group, seq<Slot>>, code: string, d: DayRecord, now: int)
    : Result<map<Group, seq<Slot>>, Error>
  {
    if DayAction(d, now) == Skip then Success(groups) else ActStep(groups, code, DayAction(d, now))
  }

  function GroupDays(groups: map<Group, seq<Slot>>, code: string, days: map<string, DayRecord>,
                     names: seq<Y.DayName>, now: int): Result<map<Group, seq<Slot>>, Error>
  {
    if names == [] then Success(groups)
    else
      var name := names[|names| - 1];
      match GroupDays(groups, code, days, names[..|names| - 1], now)
      case Failure(e) => Failure(e)
      case Success(gs) => if Y.Key(name) in days then DayStep(gs, code, days[Y.Key(name)], now) else Success(gs)
  }

  type Response = seq<(string, map<string, DayRecord>)>

  function Outages(result: Response, now: int): Result<map<Group, seq<Slot>>, Error>
  {
    if result == [] then Success(map[])
    else match Outages(result[..|result| - 1], now)
      case Failure(e) => Failure(e)
      case Success(groups) =>
        var (code, days) := result[|result| - 1];
        GroupDays(groups, code, days, Y.DayOrder, now)
  }

  /** One group's entry seen whole: nothing unless some day acts; then an
      unknown code fails with `ValueError` and a known one has the acting
      days applied, in order, to what it already held. */
  function WholeGroup(groups: map<Group, seq<Slot>>, code: string, actions: seq<Action>)
    : Result<map<Group, seq<Slot>>, Error>
  {
    if actions == [] then Success(groups)
    else match GroupOf(code)
      case None => Failure(ValueError)
      case Some(g) =>
        match ApplyAll(if g in groups then groups[g] else [], actions)
        case Failure(e) => Failure(e)
        case Success(slots) => Success(groups[g := slots])
  }

  lemma {:induction false} WholeGroupSnoc(groups: map<Group, seq<Slot>>, code: string, c: seq<Action>, a: Action)
    ensures WholeGroup(groups, code, c + [a]) ==
      match WholeGroup(groups, code, c)
      case Failure(e) => Failure(e)
      case Success(gs) => ActStep(gs, code, a)
  {
    assert (c + [a])[..|c|] == c;
    if GroupOf(code).Some? {
      var g := GroupOf(code).value;
      var acc := if g in groups then groups[g] else [];
      if c == [] {
        assert ApplyAll(acc, [a]) == Apply(acc, a);
      } else {
        match ApplyAll(acc, c)
        case Failure(e) =>
        case Success(slots) =>
          match Apply(slots, a)
          case Failure(e) =>
          case Success(x) =>
            assert groups[g := slots][g := x] == groups[g := x];
      }
    }
  }

  /** The day-by-day inner loop agrees with the whole-group view. */
  lemma {:induction false} GroupDaysMeaning(groups: map<Group, seq<Slot>>, code: string,
                                            days: map<string, DayRecord>, names: seq<Y.DayName>, now: int)
    ensures GroupDays(groups, code, days, names, now) == WholeGroup(groups, code, Actions(days, names, now))
  {
    if names != [] {
      var init := names[..|names| - 1];
      var name := names[|names| - 1];
      GroupDaysMeaning(groups, code, days, init, now);
      var c := Actions(days, init, now);
      if Y.Key(name) in days && DayAction(days[Y.Key(name)], now) != Skip {
        var a := DayAction(days[Y.Key(name)], now);
        assert Actions(days, names, now) == c + [a];
        WholeGroupSnoc(groups, code, c, a);
      } else {
        assert Actions(days, names, now) == c;
      }
    }
  }

  lemma {:induction false} GroupDaysFailureStays(groups: map<Group, seq<Slot>>, code: string,
                                                 days: map<string, DayRecord>, names: seq<Y.DayName>,
                                                 now: int, k: nat)
    requires k <= |names|
    requires GroupDays(groups, code, days, names[..k], now).Failure?
    ensures GroupDays(groups, code, days, names, now) == GroupDays(groups, code, days, names[..k], now)
  {
    if k < |names| {
      assert names[..|names| - 1][..k] == names[..k];
      GroupDaysFailureStays(groups, code, days, names[..|names| - 1], now, k);
    } else {
      assert names[..k] == names;
    }
  }

  /** One more iteration of the inner loop. */
  lemma {:induction false} GroupDaysStep(groups: map<Group, seq<Slot>>, code: string,
                                         days: map<string, DayRecord>, names: seq<Y.DayName>, now: int, k: nat)
    requires k < |names|
    ensures GroupDays(groups, code, days, names[..k + 1], now) ==
      match GroupDays(groups, code, days, names[..k], now)
      case Failure(e) => Failure(e)
      case Success(gs) => if Y.Key(names[k]) in days then DayStep(gs, code, days[Y.Key(names[k])], now) else Success(gs)
  {
    var prefix := names[..k + 1];
    assert prefix[..k] == names[..k] && prefix[k] == names[k];
  }

  lemma {:induction false} OutagesFailureStays(result: Response, now: int, k: nat)
    requires k <= |result|
    requires Outages(result[..k], now).Failure?
    ensures Outages(result, now) == Outages(result[..k], now)
  {
    if k < |result| {
      assert result[..|result| - 1][..k] == result[..k];
      OutagesFailureStays(result[..|result| - 1], now, k);
    } else {
      assert result[..k] == result;
    }
  }

  ghost predicate DistinctCodes(result: Response)
  {
    forall i, j :: 0 <= i < j < |result| ==> result[i].0 != result[j].0
  }

  /** Whether some day of entry `i` acts on its group. */
  ghost predicate Acts(result: Response, i: int, now: int)
    requires 0 <= i < |result|
  {
    Actions(result[i].1, Y.DayOrder, now) != []
  }

  ghost predicate UnknownActing(result: Response, now: int)
  {
    exists i :: 0 <= i < |result| && GroupOf(result[i].0).None? && Acts(result, i, now)
  }

  ghost function Present(result: Response, now: int): set<Group>
  {
    set i | 0 <= i < |result| && Acts(result, i, now) && GroupOf(result[i].0).Some? :: GroupOf(result[i].0).value
  }

  /** A group code the enumeration does not know fails the whole call as
      soon as one of its days acts, with `ValueError` when nothing failed
      before it. */
  lemma {:induction false} UnknownGroupFails(result: Response, now: int, i: int)
    requires 0 <= i < |result|
    requires GroupOf(result[i].0).None? && Acts(result, i, now)
    ensures Outages(result[..i], now).Success? ==> Outages(result[..i + 1], now) == Failure(ValueError)
    ensures Outages(result, now).Failure?
  {
    var prefix := result[..i + 1];
    assert prefix[..i] == result[..i];
    assert prefix[i] == result[i];
    if Outages(result[..i], now).Success? {
      var m0 := Outages(result[..i], now).value;
      GroupDaysMeaning(m0, result[i].0, result[i].1, Y.DayOrder, now);
      assert GroupDays(m0, result[i].0, result[i].1, Y.DayOrder, now) == Failure(ValueError);
      assert Outages(prefix, now) == Failure(ValueError);
    }
    assert Outages(prefix, now).Failure?;
    OutagesFailureStays(result, now, i + 1);
  }

  /** Every group's list holds dated slots only, so no comparison of
      instants can fail: the older `planned_outages` fails only with
      `ValueError`, and only for a group code it does not know whose days
      act. */
  lemma {:induction false} OutagesFailure(result: Response, now: int)
    ensures Outages(result, now).Success? ==>
      forall g | g in Outages(result, now).value :: AllDated(Outages(result, now).value[g])
    ensures Outages(result, now).Failure? ==>
      Outages(result, now).error == ValueError && UnknownActing(result, now)
  {
    if result != [] {
      var n := |result| - 1;
      var init := result[..n];
      OutagesFailure(init, now);
      forall i | 0 <= i < n
        ensures result[i] == init[i] && (Acts(result, i, now) <==> Acts(init, i, now))
      {
      }
      var (code, days) := result[n];
      var acts := Actions(days, Y.DayOrder, now);
      if Outages(init, now).Failure? {
        var i :| 0 <= i < n && GroupOf(init[i].0).None? && Acts(init, i, now);
        assert GroupOf(result[i].0).None? && Acts(result, i, now);
      } else {
        var m0 := Outages(init, now).value;
        GroupDaysMeaning(m0, code, days, Y.DayOrder, now);
        if acts != [] {
          if GroupOf(code).None? {
            assert GroupOf(result[n].0).None? && Acts(result, n, now);
          } else {
            var g := GroupOf(code).value;
            ActionsDated(days, Y.DayOrder, now);
            ApplyAllDated(if g in m0 then m0[g] else [], acts);
          }
        }
      }
    }
  }

  /** An entry's acting days do not depend on the entries after it. */
  lemma {:induction false} ActsPrefix(result: Response, k: nat, i: nat, now: int)
    requires i < k <= |result|
    ensures result[..k][i] == result[i]
    ensures Acts(result[..k], i, now) == Acts(result, i, now)
  {
  }

  /** Every group present before one more entry is still present after it. */
  lemma {:induction false} PresentGrows(result: Response, now: int)
    requires result != []
    ensures Present(result[..|result| - 1], now) <= Present(result, now)
  {
    var n := |result| - 1;
    forall g | g in Present(result[..n], now) ensures g in Present(result, now) {
      var i :| 0 <= i < n && Acts(result[..n], i, now) && GroupOf(result[..n][i].0) == Some(g);
      ActsPrefix(result, n, i, now);
    }
  }

  /** One more entry adds at most its own group. */
  lemma {:induction false} PresentBounded(result: Response, now: int)
    requires result != []
    ensures var n := |result| - 1;
      forall g | g in Present(result, now) ::
        g in Present(result[..n], now) || (g == GroupOf(result[n].0).value && Acts(result, n, now))
  {
    var n := |result| - 1;
    forall g | g in Present(result, now)
      ensures g in Present(result[..n], now) || (g == GroupOf(result[n].0).value && Acts(result, n, now))
    {
      var i :| 0 <= i < |result| && Acts(result, i, now) && GroupOf(result[i].0) == Some(g);
      if i < n {
        ActsPrefix(result, n, i, now);
        assert g in Present(result[..n], now);
      }
    }
  }

  /** The groups present after one more entry. */
  lemma {:induction false} PresentSnoc(result: Response, now: int)
    requires result != []
    ensures var n := |result| - 1; var code := result[n].0;
      Present(result, now) == Present(result[..n], now)
        + (if Acts(result, n, now) && GroupOf(code).Some? then {GroupOf(code).value} else {})
  {
    var n := |result| - 1;
    var code := result[n].0;
    PresentGrows(result, now);
    PresentBounded(result, now);
    if Acts(result, n, now) && GroupOf(code).Some? {
      assert GroupOf(code).value in Present(result, now);
    }
  }

  /** One more entry, seen whole: the groups so far, changed as
      `WholeGroup` says by the entry's acting days. */
  lemma {:induction false} OutagesSnoc(result: Response, now: int)
    requires result != [] && Outages(result, now).Success?
    ensures var n := |result| - 1;
      Outages(result[..n], now).Success?
      && Outages(result, now)
         == WholeGroup(Outages(result[..n], now).value, result[n].0, Actions(result[n].1, Y.DayOrder, now))
  {
    var n := |result| - 1;
    var (code, days) := result[n];
    GroupDaysMeaning(Outages(result[..n], now).value, code, days, Y.DayOrder, now);
  }

  /** With distinct codes, the result's keys are the known groups with an
      acting day (a group whose days are all waiting or not yet begun is
      absent), and each group's list is its acting days applied in
      `DayName` order. */
  lemma {:induction false} OutagesMeaning(result: Response, now: int)
    requires DistinctCodes(result)
    ensures Outages(result, now).Success? ==> Outages(result, now).value.Keys == Present(result, now)
    ensures Outages(result, now).Success? ==>
      forall i :: 0 <= i < |result| && Acts(result, i, now) && GroupOf(result[i].0).Some? ==>
        ApplyAll([], Actions(result[i].1, Y.DayOrder, now))
          == Success(Outages(result, now).value[GroupOf(result[i].0).value])
  {
    if result != [] && Outages(result, now).Success? {
      var n := |result| - 1;
      var init := result[..n];
      assert DistinctCodes(init);
      OutagesMeaning(init, now);
      var m0 := Outages(init, now).value;
      var (code, days) := result[n];
      OutagesSnoc(result, now);
      PresentSnoc(result, now);
      var m := Outages(result, now).value;
      if !Acts(result, n, now) {
        assert m == m0;
      } else {
        var g := GroupOf(code).value;
        assert g !in Present(init, now);
        assert m == m0[g := ApplyAll([], Actions(days, Y.DayOrder, now)).value];
      }
      forall i | 0 <= i < |result| && Acts(result, i, now) && GroupOf(result[i].0).Some?
        ensures ApplyAll([], Actions(result[i].1, Y.DayOrder, now)) == Success(m[GroupOf(result[i].0).value])
      {
        if i < n {
          ActsPrefix(result, n, i, now);
          if Acts(result, n, now) {
            assert GroupOf(result[i].0) != GroupOf(code);
          }
        }
      }
    }
  }

  /** The body of the inner loop for a present day: build and date the
      `Day`, then apply its status policy to its group. */
  method AddDay(groups: map<Group, seq<Slot>>, groupId: string, rec: DayRecord, now: int)
    returns (r: Result<map<Group, seq<Slot>>, Error>)
    ensures r == DayStep(groups, groupId, rec, now)
  {
    var day := new Day(rec.slots, rec.date, rec.status);
    day.UpdateDt();
    assert day.slots == Dated(rec.slots, rec.date);
    if day.status == Some(Y.ScheduleApplies) {
      var slots := day.slots;
      var group := GroupOf(groupId);
      if group.None? {
        return Failure(ValueError);
      }
      var acc := if group.value in groups then groups[group.value] else [];
      if acc != [] && slots != [] {
        var lastSlot := acc[|acc| - 1];
        var nextSlot := slots[0];
        if DtEnd(lastSlot).None? || DtStart(nextSlot).None? {
          return Failure(TypeError);
        }
        if DtEnd(lastSlot) == DtStart(nextSlot) && lastSlot.slotType == nextSlot.slotType {
          var joinedSlot := Slot(lastSlot.start, nextSlot.end, lastSlot.slotType, DefaultTitle,
                                 lastSlot.dateStart, nextSlot.dateEnd);
          assert Touches(lastSlot, nextSlot) == Some(true);
          assert acc[..|acc| - 1] + ([joinedSlot] + day.slots[1..])
              == acc[..|acc| - 1] + [joinedSlot] + day.slots[1..];
          acc := acc[..|acc| - 1];
          slots := [joinedSlot] + day.slots[1..];
        } else {
          assert Touches(lastSlot, nextSlot) == Some(false);
        }
      }
      r := Success(groups[group.value := acc + slots]);
    } else if day.status == Some(Y.EmergencyShutdowns) {
      if day.date < now {
        var slot := Slot(0, 1440, Y.Definite, EmergencyTitle, None, None);
        var emergency := new Day([slot], day.date, None);
        emergency.UpdateDt();
        assert emergency.slots == [EmergencySlot(day.date)];
        var group := GroupOf(groupId);
        if group.None? {
          return Failure(ValueError);
        }
        var acc := if group.value in groups then groups[group.value] else [];
        r := Success(groups[group.value := acc + emergency.slots]);
      } else {
        r := Success(groups);
      }
    } else {
      r := Success(groups);
    }
  }

  /** The older `YasnoBlackout.planned_outages` on an already fetched answer
      and the current time. */
  method PlannedOutages(result: Response, now: int) returns (r: Result<map<Group, seq<Slot>>, Error>)
    ensures r == Outages(result, now)
  {
    var groups: map<Group, seq<Slot>> := map[];
    for i := 0 to |result|
      invariant Outages(result[..i], now) == Success(groups)
    {
      assert result[..i + 1][..i] == result[..i];
      var (groupId, dayData) := result[i];
      var step := AddGroup(groups, groupId, dayData, now);
      if step.Failure? {
        OutagesFailureStays(result, now, i + 1);
        return step;
      }
      groups := step.value;
    }
    assert result[..|result|] == result;
    return Success(groups);
  }

  /** The inner loop of `planned_outages`: one group's days in `DayName`
      order, each merged in as it comes; the first failure ends it. */
  method AddGroup(groups: map<Group, seq<Slot>>, groupId: string, dayData: map<string, DayRecord>, now: int)
    returns (r: Result<map<Group, seq<Slot>>, Error>)
    ensures r == GroupDays(groups, groupId, dayData, Y.DayOrder, now)
  {
    var acc := groups;
    for k := 0 to |Y.DayOrder|
      invariant GroupDays(groups, groupId, dayData, Y.DayOrder[..k], now) == Success(acc)
    {
      GroupDaysStep(groups, groupId, dayData, Y.DayOrder, now, k);
      var dayName := Y.DayOrder[k];
      if Y.Key(dayName) in dayData {
        var step := AddDay(acc, groupId, dayData[Y.Key(dayName)], now);
        if step.Failure? {
          GroupDaysFailureStays(groups, groupId, dayData, Y.DayOrder, now, k + 1);
          assert Y.DayOrder[..|Y.DayOrder|] == Y.DayOrder;
          return step;
        }
        acc := step.value;
      }
    }
    assert Y.DayOrder[..|Y.DayOrder|] == Y.DayOrder;
    return Success(acc);
  }
}
