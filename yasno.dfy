/** The Yasno schedule normaliser (app/providers/yasno.py). The provider answers
    `{group code: {day name: day}}`; a day carries a date and a status and its
    slots carry minute offsets from that date. `Day.get_slots` applies the
    day-status policy, and `planned_outages` walks the days of each group in a
    fixed order, merging the last slot gathered so far with the first slot of
    the next day when the two touch and share their classification. Dates and
    instants are integer minutes. */
module Yasno {
  import opened Common

  const DayMinutes := 1440

  /** `SlotType`. */
  datatype SlotType = Definite | NotPlanned

  /** `DayStatus`. */
  datatype DayStatus = ScheduleApplies | WaitingForSchedule | EmergencyShutdowns

  /** `DayName`: the keys a group's days are stored under. */
  datatype DayName = Today | Tomorrow | Monday | Tuesday | Wednesday | Thursday | Friday | Saturday | Sunday

  function Key(n: DayName): string
  {
    match n
    case Today => "today"
    case Tomorrow => "tomorrow"
    case Monday => "0"
    case Tuesday => "1"
    case Wednesday => "2"
    case Thursday => "3"
    case Friday => "4"
    case Saturday => "5"
    case Sunday => "6"
  }

  /** The order iterating over `DayName` visits the names in. */
  const DayOrder: seq<DayName> :=
    [Today, Tomorrow, Monday, Tuesday, Wednesday, Thursday, Friday, Saturday, Sunday]

  /** A `Slot`: offsets `start`/`end` in minutes from `dateStart`/`dateEnd`.
      The dates and the status are unset (`None`) until a day stamps them. */
  datatype Slot = Slot(
    start: int,
    end: int,
    slotType: SlotType,
    dateStart: Option<int>,
    dateEnd: Option<int>,
    dayStatus: Option<DayStatus>)

  /** `Slot.dt_start`; `None` is the `TypeError` of adding minutes to an
      unset date. */
  function DtStart(s: Slot): Option<int>
  {
    match s.dateStart
    case Some(d) => Some(d + s.start)
    case None => None
  }

  /** `Slot.dt_end`. */
  function DtEnd(s: Slot): Option<int>
  {
    match s.dateEnd
    case Some(d) => Some(d + s.end)
    case None => None
  }

  /** `Slot.title`; a slot without a status has no title (`None`). */
  function Title(s: Slot): Option<string>
  {
    match s.dayStatus
    case Some(ScheduleApplies) => Some("Заплановане відключення світла")
    case Some(EmergencyShutdowns) => Some("🚨 Екстрені відключення світла")
    case Some(WaitingForSchedule) => Some("Імовірне відключення світла")
    case None => None
  }

  /** The title is determined by the day status and tells the three
      statuses apart. */
  lemma {:induction false} TitleByStatus(a: Slot, b: Slot)
    ensures Title(a) == Title(b) <==> a.dayStatus == b.dayStatus
    ensures Title(a).Some? <==> a.dayStatus.Some?
  {
    var sched, emerg, prob := "Заплановане відключення світла", "🚨 Екстрені відключення світла", "Імовірне відключення світла";
    assert sched[0] != emerg[0] && emerg[0] != prob[0];
    assert sched[1] != prob[1];
  }

  /** A slot as a day stamps it: its dates become the day's date and its
      status the day's status; offsets and type are kept. */
  function Stamp(s: Slot, date: int, status: DayStatus): Slot
  {
    s.(dateStart := Some(date), dateEnd := Some(date), dayStatus := Some(status))
  }

  /** The single slot an emergency day is replaced by: the whole day. */
  function EmergencyDaySlot(date: int): Slot
  {
    Slot(0, DayMinutes, Definite, Some(date), Some(date), Some(EmergencyShutdowns))
  }

  /** A stamped slot's absolute instants are the day's date plus its offsets. */
  lemma StampedInstants(s: Slot, date: int, status: DayStatus)
    ensures DtStart(Stamp(s, date, status)) == Some(date + s.start)
    ensures DtEnd(Stamp(s, date, status)) == Some(date + s.end)
    ensures Title(Stamp(s, date, status)).Some?
    ensures DtStart(EmergencyDaySlot(date)) == Some(date)
    ensures DtEnd(EmergencyDaySlot(date)) == Some(date + DayMinutes)
  {
  }

  function StampAll(slots: seq<Slot>, date: int, status: DayStatus): (r: seq<Slot>)
    ensures |r| == |slots|
    ensures forall k :: 0 <= k < |slots| ==> r[k] == Stamp(slots[k], date, status)
  {
    seq(|slots|, k requires 0 <= k < |slots| => Stamp(slots[k], date, status))
  }

  /** The day's slots after the status policy of `get_slots`: stamped for a
      scheduled or waiting day, replaced by the whole-day slot for an
      emergency day, untouched for a day without a status. */
  function Policy(slots: seq<Slot>, date: int, status: Option<DayStatus>): seq<Slot>
  {
    match status
    case Some(EmergencyShutdowns) => [EmergencyDaySlot(date)]
    case Some(st) => StampAll(slots, date, st)
    case None => slots
  }

  /** The filter of `get_slots`: definite slots not awaiting a schedule. */
  predicate Shown(s: Slot)
  {
    s.slotType == Definite && s.dayStatus != Some(WaitingForSchedule)
  }

  function Filter(slots: seq<Slot>): seq<Slot>
  {
    if slots == [] then []
    else Filter(slots[..|slots| - 1]) + if Shown(slots[|slots| - 1]) then [slots[|slots| - 1]] else []
  }

  /** The definite slots, in order. */
  function Definites(slots: seq<Slot>): seq<Slot>
  {
    if slots == [] then []
    else Definites(slots[..|slots| - 1]) + if slots[|slots| - 1].slotType == Definite then [slots[|slots| - 1]] else []
  }

  /** A day as the provider sends it, after validation. */
  datatype DayRecord = DayRecord(slots: seq<Slot>, date: int, status: Option<DayStatus>)

  /** What `get_slots` returns for a day. */
  function Contribution(d: DayRecord): seq<Slot>
  {
    Filter(Policy(d.slots, d.date, d.status))
  }

  lemma {:induction false} FilterStamped(slots: seq<Slot>, date: int, status: DayStatus)
    ensures status == ScheduleApplies ==>
      Filter(StampAll(slots, date, status)) == StampAll(Definites(slots), date, status)
    ensures status == WaitingForSchedule ==> Filter(StampAll(slots, date, status)) == []
  {
    if slots != [] {
      var init := slots[..|slots| - 1];
      FilterStamped(init, date, status);
      assert StampAll(slots, date, status)[..|slots| - 1] == StampAll(init, date, status);
      if status == ScheduleApplies && slots[|slots| - 1].slotType == Definite {
        assert StampAll(Definites(slots), date, status)
            == StampAll(Definites(init), date, status) + [Stamp(slots[|slots| - 1], date, status)];
      }
    }
  }

  /** The day-status policy as `get_slots` applies it: a scheduled day yields
      its definite slots in order, each stamped with the day's date and
      status; a waiting day yields nothing; an emergency day yields exactly
      one definite whole-day slot of its date, whatever slots it carried; a
      day without a status yields its definite slots as they are, unless
      they already say they await a schedule. */
  lemma {:induction false} DayPolicy(d: DayRecord)
    ensures d.status == Some(ScheduleApplies) ==>
      Contribution(d) == StampAll(Definites(d.slots), d.date, ScheduleApplies)
    ensures d.status == Some(WaitingForSchedule) ==> Contribution(d) == []
    ensures d.status == Some(EmergencyShutdowns) ==> Contribution(d) == [EmergencyDaySlot(d.date)]
    ensures d.status == None ==> Contribution(d) == Filter(d.slots)
  {
    if d.status.Some? && d.status != Some(EmergencyShutdowns) {
      FilterStamped(d.slots, d.date, d.status.value);
    }
    if d.status == Some(EmergencyShutdowns) {
      var e := EmergencyDaySlot(d.date);
      assert Policy(d.slots, d.date, d.status) == [e];
      assert [e][..0] == [];
      assert Filter([e]) == Filter([]) + [e];
    }
  }

  /** `Day`: a validated day whose slots `get_slots` rewrites in place. */
  class Day {
    var slots: seq<Slot>
    const date: int
    const status: Option<DayStatus>

    constructor (slots: seq<Slot>, date: int, status: Option<DayStatus>)
      ensures this.slots == slots && this.date == date && this.status == status
    {
      this.slots := slots;
      this.date := date;
      this.status := status;
    }

    /** `Day.get_slots`: stamps every slot of a scheduled or waiting day,
        replaces an emergency day's slots by the whole-day slot, and returns
        the shown slots in order. */
    method GetSlots() returns (shown: seq<Slot>)
      modifies this
      ensures slots == Policy(old(slots), date, status)
      ensures shown == Filter(slots)
    {
      if status == Some(ScheduleApplies) || status == Some(WaitingForSchedule) {
        var i := 0;
        while i < |slots|
          invariant 0 <= i <= |slots| == |old(slots)|
          invariant forall k :: 0 <= k < i ==> slots[k] == Stamp(old(slots)[k], date, status.value)
          invariant forall k :: i <= k < |slots| ==> slots[k] == old(slots)[k]
        {
          slots := slots[i := Stamp(slots[i], date, status.value)];
          i := i + 1;
        }
      } else if status == Some(EmergencyShutdowns) {
        slots := [Slot(0, 1440, Definite, Some(date), Some(date), status)];
      }
      shown := [];
      for i := 0 to |slots|
        invariant shown == Filter(slots[..i])
      {
        assert slots[..i + 1][..i] == slots[..i];
        if slots[i].slotType == Definite && slots[i].dayStatus != Some(WaitingForSchedule) {
          shown := shown + [slots[i]];
        }
      }
      assert slots[..|slots|] == slots;
    }
  }

  /** The boundary merge condition: the gathered last slot ends exactly where
      the day's first slot starts, with equal type and status. `None` when an
      instant cannot be computed. */
  function Touches(last: Slot, first: Slot): Option<bool>
  {
    match (DtEnd(last), DtStart(first))
    case (Some(e), Some(s)) =>
      Some(e == s && last.slotType == first.slotType && last.dayStatus == first.dayStatus)
    case _ => None
  }

  /** The slot that replaces a touching pair: from the first's start to the
      second's end, definite, with the first's status. */
  function Joined(last: Slot, first: Slot): Slot
  {
    Slot(last.start, first.end, Definite, last.dateStart, first.dateEnd, last.dayStatus)
  }

  /** One boundary of `planned_outages`: add a day's slots to a group's list. */
  function MergeAtBoundary(acc: seq<Slot>, next: seq<Slot>): Result<seq<Slot>, Error>
  {
    if acc != [] && next != [] then
      match Touches(acc[|acc| - 1], next[0])
      case None => Failure(TypeError)
      case Some(true) => Success(acc[..|acc| - 1] + [Joined(acc[|acc| - 1], next[0])] + next[1..])
      case Some(false) => Success(acc + next)
    else
      Success(acc + next)
  }

  /** The merge at one boundary: when the gathered last slot and the day's
      first slot touch with equal classification, the two are replaced by one
      slot running from the first's absolute start to the second's absolute
      end, the rest of both lists staying as they were; otherwise the day's
      slots are appended unchanged. It fails only when an instant is unset. */
  lemma {:induction false} BoundaryMerge(acc: seq<Slot>, next: seq<Slot>)
    ensures MergeAtBoundary(acc, next).Failure? <==>
      acc != [] && next != [] && Touches(acc[|acc| - 1], next[0]).None?
    ensures (MergeAtBoundary(acc, next).Success? && acc != [] && next != []
             && Touches(acc[|acc| - 1], next[0]) == Some(true)) ==>
        var r := MergeAtBoundary(acc, next).value;
        && |r| == |acc| + |next| - 1
        && r[..|acc| - 1] == acc[..|acc| - 1]
        && DtStart(r[|acc| - 1]) == DtStart(acc[|acc| - 1])
        && DtEnd(r[|acc| - 1]) == DtEnd(next[0])
        && r[|acc| - 1].dayStatus == acc[|acc| - 1].dayStatus
        && r[|acc|..] == next[1..]
    ensures (MergeAtBoundary(acc, next).Success?
             && !(acc != [] && next != [] && Touches(acc[|acc| - 1], next[0]) == Some(true))) ==>
        MergeAtBoundary(acc, next).value == acc + next
  {
    if acc != [] && next != [] && Touches(acc[|acc| - 1], next[0]) == Some(true) {
      var r := MergeAtBoundary(acc, next).value;
      assert r[|acc|..] == next[1..];
    }
  }

  /** Adding the days' slot lists to `acc` one boundary at a time. */
  function MergeFrom(acc: seq<Slot>, days: seq<seq<Slot>>): Result<seq<Slot>, Error>
  {
    if days == [] then Success(acc)
    else match MergeFrom(acc, days[..|days| - 1])
      case Failure(e) => Failure(e)
      case Success(a) => MergeAtBoundary(a, days[|days| - 1])
  }

  /** Whether the boundary before day `k` merged. */
  ghost function Merges(acc: seq<Slot>, days: seq<seq<Slot>>): nat
  {
    if days == [] then 0
    else
      var n := |days| - 1;
      Merges(acc, days[..n]) +
        match MergeFrom(acc, days[..n])
        case Success(a) =>
          if a != [] && days[n] != [] && Touches(a[|a| - 1], days[n][0]) == Some(true) then 1 else 0
        case Failure(_) => 0
  }

  function TotalLength(days: seq<seq<Slot>>): nat
  {
    if days == [] then 0 else TotalLength(days[..|days| - 1]) + |days[|days| - 1]|
  }

  /** Slots within a day are never merged: a group's output is as long as
      all its days' slots together less one per merged boundary, and at most
      one merge happens per day. */
  lemma {:induction false} MergeLength(acc: seq<Slot>, days: seq<seq<Slot>>)
    requires MergeFrom(acc, days).Success?
    ensures |MergeFrom(acc, days).value| + Merges(acc, days) == |acc| + TotalLength(days)
    ensures Merges(acc, days) <= |days|
  {
    if days != [] {
      var n := |days| - 1;
      MergeLength(acc, days[..n]);
      BoundaryMerge(MergeFrom(acc, days[..n]).value, days[n]);
    }
  }

  /** Whether both instants of a slot can be computed. */
  predicate Stamped(s: Slot)
  {
    s.dateStart.Some? && s.dateEnd.Some?
  }

  ghost predicate AllStamped(slots: seq<Slot>)
  {
    forall s :: s in slots ==> Stamped(s)
  }

  /** The filter of `get_slots` only drops slots. */
  lemma {:induction false} FilterFrom(slots: seq<Slot>)
    ensures forall s :: s in Filter(slots) ==> s in slots
  {
    if slots != [] {
      FilterFrom(slots[..|slots| - 1]);
      forall s | s in slots[..|slots| - 1] ensures s in slots { }
    }
  }

  /** A day with a status hands over stamped slots only. */
  lemma {:induction false} ContributionStamped(d: DayRecord)
    requires d.status.Some?
    ensures AllStamped(Contribution(d))
  {
    var p := Policy(d.slots, d.date, d.status);
    FilterFrom(p);
    forall s | s in p ensures Stamped(s) {
      var k :| 0 <= k < |p| && p[k] == s;
    }
  }

  /** Merging fails only with `TypeError`, and never when every slot on
      both sides of every boundary is stamped; the merged list is then
      stamped too. */
  lemma {:induction false} MergeFromStamped(acc: seq<Slot>, days: seq<seq<Slot>>)
    ensures MergeFrom(acc, days).Failure? ==> MergeFrom(acc, days).error == TypeError
    ensures AllStamped(acc) && (forall k :: 0 <= k < |days| ==> AllStamped(days[k])) ==>
      MergeFrom(acc, days).Success? && AllStamped(MergeFrom(acc, days).value)
  {
    if days != [] {
      var n := |days| - 1;
      MergeFromStamped(acc, days[..n]);
      if MergeFrom(acc, days[..n]).Success? && AllStamped(acc) && (forall k :: 0 <= k < |days| ==> AllStamped(days[k])) {
        assert forall k :: 0 <= k < n ==> days[..n][k] == days[k];
        var a := MergeFrom(acc, days[..n]).value;
        var next := days[n];
        assert AllStamped(next);
        if a != [] && next != [] {
          assert a[|a| - 1] in a && next[0] in next;
          var r := MergeAtBoundary(a, next).value;
          forall s | s in r ensures Stamped(s) {
            if Touches(a[|a| - 1], next[0]) == Some(true) {
              assert r == a[..|a| - 1] + [Joined(a[|a| - 1], next[0])] + next[1..];
              if s in a[..|a| - 1] {
                var k :| 0 <= k < |a| - 1 && a[..|a| - 1][k] == s;
                assert a[k] == s;
              } else if s in next[1..] {
                var k :| 0 <= k < |next| - 1 && next[1..][k] == s;
                assert next[k + 1] == s;
              }
            }
          }
        }
      }
    }
  }

  /** Every present day of a group with a status hands over stamped slots. */
  lemma {:induction false} ContributionsStamped(days: map<string, DayRecord>, names: seq<DayName>)
    requires forall key :: key in days ==> days[key].status.Some?
    ensures forall k :: 0 <= k < |Contributions(days, names)| ==> AllStamped(Contributions(days, names)[k])
  {
    if names != [] {
      var name := names[|names| - 1];
      ContributionsStamped(days, names[..|names| - 1]);
      if Key(name) in days {
        ContributionStamped(days[Key(name)]);
      }
    }
  }

  /** The days of one group that are present, in `DayName` order, each as
      the slots `get_slots` returns for it. */
  function Contributions(days: map<string, DayRecord>, names: seq<DayName>): seq<seq<Slot>>
  {
    if names == [] then []
    else
      var name := names[|names| - 1];
      Contributions(days, names[..|names| - 1]) + if Key(name) in days then [Contribution(days[Key(name)])] else []
  }

  /** One present day of one group: `groups[Group(code)]` fails with
      `ValueError` for an unknown code, then the day's slots are merged in. */
  function DayStep(groups: map<Group, seq<Slot>>, code: string, d: DayRecord): Result<map<Group, seq<Slot>>, Error>
  {
    match GroupOf(code)
    case None => Failure(ValueError)
    case Some(g) =>
      match MergeAtBoundary(if g in groups then groups[g] else [], Contribution(d))
      case Failure(e) => Failure(e)
      case Success(merged) => Success(groups[g := merged])
  }

  /** The inner loop of `planned_outages` over the first names of `DayName`. */
  function GroupDays(groups: map<Group, seq<Slot>>, code: string, days: map<string, DayRecord>, names: seq<DayName>)
    : Result<map<Group, seq<Slot>>, Error>
  {
    if names == [] then Success(groups)
    else
      var name := names[|names| - 1];
      match GroupDays(groups, code, days, names[..|names| - 1])
      case Failure(e) => Failure(e)
      case Success(gs) => if Key(name) in days then DayStep(gs, code, days[Key(name)]) else Success(gs)
  }

  /** The provider's answer: group codes with their days, in key order. */
  type Response = seq<(string, map<string, DayRecord>)>

  /** What `planned_outages` returns for the first entries of the answer. */
  function Outages(result: Response): Result<map<Group, seq<Slot>>, Error>
  {
    if result == [] then Success(map[])
    else match Outages(result[..|result| - 1])
      case Failure(e) => Failure(e)
      case Success(groups) =>
        var (code, days) := result[|result| - 1];
        GroupDays(groups, code, days, DayOrder)
  }

  /** One more iteration of the inner loop. */
  lemma {:induction false} GroupDaysStep(groups: map<Group, seq<Slot>>, code: string,
                                         days: map<string, DayRecord>, names: seq<DayName>, k: nat)
    requires k < |names|
    ensures GroupDays(groups, code, days, names[..k + 1]) ==
      match GroupDays(groups, code, days, names[..k])
      case Failure(e) => Failure(e)
      case Success(gs) => if Key(names[k]) in days then DayStep(gs, code, days[Key(names[k])]) else Success(gs)
  {
    var prefix := names[..k + 1];
    assert prefix[..k] == names[..k] && prefix[k] == names[k];
  }

  /** Once the inner loop has failed it stays failed. */
  lemma {:induction false} GroupDaysFailureStays(groups: map<Group, seq<Slot>>, code: string,
                                                 days: map<string, DayRecord>, names: seq<DayName>, k: nat)
    requires k <= |names|
    requires GroupDays(groups, code, days, names[..k]).Failure?
    ensures GroupDays(groups, code, days, names) == GroupDays(groups, code, days, names[..k])
  {
    if k < |names| {
      assert names[..|names| - 1][..k] == names[..k];
      GroupDaysFailureStays(groups, code, days, names[..|names| - 1], k);
    } else {
      assert names[..k] == names;
    }
  }

  /** Once the outer loop has failed it stays failed. */
  lemma {:induction false} OutagesFailureStays(result: Response, k: nat)
    requires k <= |result|
    requires Outages(result[..k]).Failure?
    ensures Outages(result) == Outages(result[..k])
  {
    if k < |result| {
      assert result[..|result| - 1][..k] == result[..k];
      OutagesFailureStays(result[..|result| - 1], k);
    } else {
      assert result[..k] == result;
    }
  }

  /** What one group's entry does to the gathered groups, seen whole: with
      no present day nothing happens (an unknown code included); otherwise an
      unknown code fails with `ValueError`, and a known one has its present
      days' slots merged, in order, onto what the group already held. */
  function WholeGroup(groups: map<Group, seq<Slot>>, code: string, contributions: seq<seq<Slot>>)
    : Result<map<Group, seq<Slot>>, Error>
  {
    if contributions == [] then Success(groups)
    else match GroupOf(code)
      case None => Failure(ValueError)
      case Some(g) =>
        match MergeFrom(if g in groups then groups[g] else [], contributions)
        case Failure(e) => Failure(e)
        case Success(merged) => Success(groups[g := merged])
  }

  /** One more present day, seen whole, is one more `DayStep`. */
  lemma {:induction false} WholeGroupSnoc(groups: map<Group, seq<Slot>>, code: string, c: seq<seq<Slot>>, rec: DayRecord)
    ensures WholeGroup(groups, code, c + [Contribution(rec)]) ==
      match WholeGroup(groups, code, c)
      case Failure(e) => Failure(e)
      case Success(gs) => DayStep(gs, code, rec)
  {
    var d := Contribution(rec);
    var cd := c + [d];
    assert cd[..|cd| - 1] == c;
    assert cd[|cd| - 1] == d;
    if GroupOf(code).Some? {
      var g := GroupOf(code).value;
      var acc := if g in groups then groups[g] else [];
      if c == [] {
        assert MergeFrom(acc, c) == Success(acc);
      }
      if MergeFrom(acc, c).Success? {
        var merged := MergeFrom(acc, c).value;
        var next := MergeAtBoundary(merged, d);
        assert MergeFrom(acc, cd) == next;
        if next.Success? {
          assert groups[g := merged][g := next.value] == groups[g := next.value];
        }
      }
    }
  }

  /** The day-by-day inner loop agrees with the whole-group view. */
  lemma {:induction false} GroupDaysMeaning(groups: map<Group, seq<Slot>>, code: string,
                                            days: map<string, DayRecord>, names: seq<DayName>)
    ensures GroupDays(groups, code, days, names) == WholeGroup(groups, code, Contributions(days, names))
  {
    if names != [] {
      var init := names[..|names| - 1];
      var name := names[|names| - 1];
      GroupDaysMeaning(groups, code, days, init);
      var c := Contributions(days, init);
      if Key(name) in days {
        assert Contributions(days, names) == c + [Contribution(days[Key(name)])];
        WholeGroupSnoc(groups, code, c, days[Key(name)]);
      } else {
        assert Contributions(days, names) == c;
      }
    }
  }

  /** The codes of the answer are distinct (they are keys of a JSON object). */
  ghost predicate DistinctCodes(result: Response)
  {
    forall i, j :: 0 <= i < j < |result| ==> result[i].0 != result[j].0
  }

  /** Whether entry `i` has at least one present day. */
  ghost predicate HasDays(result: Response, i: int)
    requires 0 <= i < |result|
  {
    Contributions(result[i].1, DayOrder) != []
  }

  /** The groups named by an entry with at least one present day. */
  ghost function Present(result: Response): set<Group>
  {
    set i | 0 <= i < |result| && HasDays(result, i) && GroupOf(result[i].0).Some? :: GroupOf(result[i].0).value
  }

  /** A group code the enumeration does not know fails the whole call with
      `ValueError` as soon as that group has a present day. */
  lemma {:induction false} UnknownGroupFails(result: Response, i: int)
    requires 0 <= i < |result|
    requires GroupOf(result[i].0).None? && HasDays(result, i)
    ensures Outages(result[..i]).Success? ==> Outages(result[..i + 1]) == Failure(ValueError)
    ensures Outages(result).Failure?
  {
    var prefix := result[..i + 1];
    assert prefix[..i] == result[..i];
    assert prefix[i] == result[i];
    if Outages(result[..i]).Success? {
      var m0 := Outages(result[..i]).value;
      GroupDaysMeaning(m0, result[i].0, result[i].1, DayOrder);
      assert GroupDays(m0, result[i].0, result[i].1, DayOrder) == Failure(ValueError);
      assert Outages(prefix) == Failure(ValueError);
    }
    assert Outages(prefix).Failure?;
    OutagesFailureStays(result, i + 1);
  }

  /** An entry's present days do not depend on the entries after it. */
  lemma {:induction false} HasDaysPrefix(result: Response, k: nat, i: nat)
    requires i < k <= |result|
    ensures result[..k][i] == result[i]
    ensures HasDays(result[..k], i) == HasDays(result, i)
  {
  }

  /** Some entry whose code the enumeration does not know has a present day. */
  ghost predicate UnknownPresent(result: Response)
  {
    exists i :: 0 <= i < |result| && GroupOf(result[i].0).None? && HasDays(result, i)
  }

  /** Every day of the answer carries a status, so `get_slots` stamps
      every slot it hands over. */
  ghost predicate Statused(result: Response)
  {
    forall i, key :: 0 <= i < |result| && key in result[i].1 ==> result[i].1[key].status.Some?
  }

  /** When `planned_outages` fails, and when it cannot. It fails with
      `ValueError` only for a code the enumeration does not know that has a
      present day, and with `TypeError` only when some day has no status, so
      that an instant at a boundary may be unset. When every day has a
      status and every code with a present day is known, it succeeds, and
      every gathered slot is stamped. */
  lemma {:induction false} OutagesFailure(result: Response)
    ensures Outages(result).Failure? ==>
      || (Outages(result).error == ValueError && UnknownPresent(result))
      || (Outages(result).error == TypeError && !Statused(result))
    ensures Statused(result) && Outages(result).Success? ==>
      forall g | g in Outages(result).value :: AllStamped(Outages(result).value[g])
    ensures Statused(result) && !UnknownPresent(result) ==> Outages(result).Success?
  {
    if result != [] {
      var n := |result| - 1;
      var init := result[..n];
      OutagesFailure(init);
      forall i | 0 <= i < n ensures init[i] == result[i] && HasDays(init, i) == HasDays(result, i) {
        HasDaysPrefix(result, n, i);
      }
      assert Statused(result) ==> Statused(init);
      if UnknownPresent(init) {
        var i :| 0 <= i < n && GroupOf(init[i].0).None? && HasDays(init, i);
        assert GroupOf(result[i].0).None? && HasDays(result, i);
      }
      var (code, days) := result[n];
      if Outages(init).Success? {
        var m0 := Outages(init).value;
        GroupDaysMeaning(m0, code, days, DayOrder);
        var c := Contributions(days, DayOrder);
        if c != [] {
          if GroupOf(code).None? {
            assert GroupOf(result[n].0).None? && HasDays(result, n);
          } else {
            var g := GroupOf(code).value;
            MergeFromStamped(if g in m0 then m0[g] else [], c);
            if Statused(result) {
              ContributionsStamped(days, DayOrder);
            }
          }
        }
      }
    }
  }

  /** Every group present before one more entry is still present after it. */
  lemma {:induction false} PresentGrows(result: Response)
    requires result != []
    ensures Present(result[..|result| - 1]) <= Present(result)
  {
    var n := |result| - 1;
    forall g | g in Present(result[..n]) ensures g in Present(result) {
      var i :| 0 <= i < n && HasDays(result[..n], i) && GroupOf(result[..n][i].0) == Some(g);
      HasDaysPrefix(result, n, i);
    }
  }

  /** One more entry adds at most its own group. */
  lemma {:induction false} PresentBounded(result: Response)
    requires result != []
    ensures var n := |result| - 1;
      forall g | g in Present(result) ::
        g in Present(result[..n]) || (g == GroupOf(result[n].0).value && HasDays(result, n))
  {
    var n := |result| - 1;
    forall g | g in Present(result)
      ensures g in Present(result[..n]) || (g == GroupOf(result[n].0).value && HasDays(result, n))
    {
      var i :| 0 <= i < |result| && HasDays(result, i) && GroupOf(result[i].0) == Some(g);
      if i < n {
        HasDaysPrefix(result, n, i);
        assert g in Present(result[..n]);
      }
    }
  }

  /** The groups present after one more entry. */
  lemma {:induction false} PresentSnoc(result: Response)
    requires result != []
    ensures var n := |result| - 1; var code := result[n].0;
      Present(result) == Present(result[..n])
        + (if HasDays(result, n) && GroupOf(code).Some? then {GroupOf(code).value} else {})
  {
    var n := |result| - 1;
    var code := result[n].0;
    PresentGrows(result);
    PresentBounded(result);
    if HasDays(result, n) && GroupOf(code).Some? {
      assert GroupOf(code).value in Present(result);
    }
  }

  /** One more entry, seen whole: the groups so far, changed as
      `WholeGroup` says by the entry's present days. */
  lemma {:induction false} OutagesSnoc(result: Response)
    requires result != [] && Outages(result).Success?
    ensures var n := |result| - 1;
      Outages(result[..n]).Success?
      && Outages(result) == WholeGroup(Outages(result[..n]).value, result[n].0, Contributions(result[n].1, DayOrder))
  {
    var n := |result| - 1;
    var (code, days) := result[n];
    GroupDaysMeaning(Outages(result[..n]).value, code, days, DayOrder);
  }

  /** The result of `planned_outages`: its keys are exactly the groups with a
      present day (a group whose days are all waiting is present with an
      empty list), and each group's list is its present days' shown slots,
      in `DayName` order, merged at every boundary. */
  lemma {:induction false} OutagesMeaning(result: Response)
    requires DistinctCodes(result)
    ensures Outages(result).Success? ==> Outages(result).value.Keys == Present(result)
    ensures Outages(result).Success? ==>
      forall i :: 0 <= i < |result| && HasDays(result, i) && GroupOf(result[i].0).Some? ==>
        MergeFrom([], Contributions(result[i].1, DayOrder))
          == Success(Outages(result).value[GroupOf(result[i].0).value])
  {
    if result != [] && Outages(result).Success? {
      var n := |result| - 1;
      var init := result[..n];
      assert DistinctCodes(init);
      OutagesMeaning(init);
      var m0 := Outages(init).value;
      var (code, days) := result[n];
      OutagesSnoc(result);
      PresentSnoc(result);
      var m := Outages(result).value;
      if !HasDays(result, n) {
        assert m == m0;
      } else {
        var g := GroupOf(code).value;
        assert g !in m0;
        assert m == m0[g := MergeFrom([], Contributions(days, DayOrder)).value];
      }
      forall i | 0 <= i < |result| && HasDays(result, i) && GroupOf(result[i].0).Some?
        ensures MergeFrom([], Contributions(result[i].1, DayOrder)) == Success(m[GroupOf(result[i].0).value])
      {
        if i < n {
          HasDaysPrefix(result, n, i);
          if HasDays(result, n) {
            assert GroupOf(result[i].0) != GroupOf(code);
          }
        }
      }
    }
  }

  /** The body of the inner loop of `planned_outages` for a present day:
      build the `Day`, take its shown slots, then merge them into the group's
      list at the boundary. */
  method AddDay(groups: map<Group, seq<Slot>>, groupId: string, rec: DayRecord)
    returns (r: Result<map<Group, seq<Slot>>, Error>)
    ensures r == DayStep(groups, groupId, rec)
  {
    var day := new Day(rec.slots, rec.date, rec.status);
    var daySlots := day.GetSlots();
    var slots := daySlots;
    var group := GroupOf(groupId);
    if group.None? {
      return Failure(ValueError);
    }
    var acc := if group.value in groups then groups[group.value] else [];
    if acc != [] && slots != [] {
      var lastSlot := acc[|acc| - 1];
      var nextSlot := slots[0];
      if DtEnd(lastSlot).None? || DtStart(nextSlot).None? {
        return Failure(TypeError);
      }
      if DtEnd(lastSlot) == DtStart(nextSlot)
        && lastSlot.slotType == nextSlot.slotType
        && lastSlot.dayStatus == nextSlot.dayStatus
      {
        var joinedSlot := Slot(lastSlot.start, nextSlot.end, Definite,
                               lastSlot.dateStart, nextSlot.dateEnd, lastSlot.dayStatus);
        assert Touches(lastSlot, nextSlot) == Some(true);
        assert acc[..|acc| - 1] + ([joinedSlot] + daySlots[1..])
            == acc[..|acc| - 1] + [joinedSlot] + daySlots[1..];
        acc := acc[..|acc| - 1];
        slots := [joinedSlot] + daySlots[1..];
      } else {
        assert Touches(lastSlot, nextSlot) == Some(false);
      }
    }
    r := Success(groups[group.value := acc + slots]);
  }

  /** `YasnoBlackout.planned_outages` on an already fetched answer: for every
      group and every day name in order, take the day's shown slots and merge
      them into the group's list at the boundary. */
  method PlannedOutages(result: Response) returns (r: Result<map<Group, seq<Slot>>, Error>)
    ensures r == Outages(result)
  {
    var groups: map<Group, seq<Slot>> := map[];
    for i := 0 to |result|
      invariant Outages(result[..i]) == Success(groups)
    {
      assert result[..i + 1][..i] == result[..i];
      var (groupId, dayData) := result[i];
      var step := AddGroup(groups, groupId, dayData);
      if step.Failure? {
        OutagesFailureStays(result, i + 1);
        return step;
      }
      groups := step.value;
    }
    assert result[..|result|] == result;
    return Success(groups);
  }

  /** The inner loop of `planned_outages`: one group's days in `DayName`
      order, each merged in as it comes; the first failure ends it. */
  method AddGroup(groups: map<Group, seq<Slot>>, groupId: string, dayData: map<string, DayRecord>)
    returns (r: Result<map<Group, seq<Slot>>, Error>)
    ensures r == GroupDays(groups, groupId, dayData, DayOrder)
  {
    var acc := groups;
    for k := 0 to |DayOrder|
      invariant GroupDays(groups, groupId, dayData, DayOrder[..k]) == Success(acc)
    {
      GroupDaysStep(groups, groupId, dayData, DayOrder, k);
      var dayName := DayOrder[k];
      if Key(dayName) in dayData {
        var step := AddDay(acc, groupId, dayData[Key(dayName)]);
        if step.Failure? {
          GroupDaysFailureStays(groups, groupId, dayData, DayOrder, k + 1);
          assert DayOrder[..|DayOrder|] == DayOrder;
          return step;
        }
        acc := step.value;
      }
    }
    assert DayOrder[..|DayOrder|] == DayOrder;
    return Success(acc);
  }
}
