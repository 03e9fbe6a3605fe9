/** The DTEK schedule normaliser (app/providers/dtek.py). A DTEK page embeds a
    fact object `{timestamp: {group code: {hour: state}}}`; every hour state
    becomes a 60- or 30-minute outage interval, adjacent intervals are folded
    together, and provider group codes are translated through a closed table.
    Instants are integer seconds since the epoch, as `int(timestamp)` gives
    them. `_parse_group` and `_join_slots` are the same code in the older
    providers/dtek.py, so DtekLegacy reuses them from here. */
module Dtek {
  import opened Common

  const HourSeconds := 3600
  const HalfHourSeconds := 1800
  const DaySeconds := 86400

  /** `EventTitle`: the calendar titles an interval can carry. */
  datatype Title = Scheduled | Emergency

  function TitleText(t: Title): string
  {
    match t
    case Scheduled => "Заплановане відключення світла"
    case Emergency => "🚨 Екстрені відключення світла"
  }

  /** An outage interval `[start, end)` with its title. */
  datatype Slot = Slot(start: int, end: int, title: Title)

  /** One group's `{hour: state}` object, in its key order. */
  type HourStates = seq<(int, string)>

  /** `{group code: hour states}` for one timestamp. */
  type CodeStates = seq<(string, HourStates)>

  /** The fact's `data` object: `{timestamp: code states}` in key order. */
  type Fact = seq<(int, CodeStates)>

  /** `GROUP_MAP`: the provider's group codes, each "GPV" followed by a
      group's value; `None` is the `KeyError` a lookup of any other code
      raises. */
  function GroupMap(code: string): (g: Option<Group>)
    ensures g.Some? ==> code == "GPV" + Value(g.value)
    ensures g.None? ==> forall h: Group :: code != "GPV" + Value(h)
  {
    if |code| >= 3 && code[..3] == "GPV" then
      assert code == "GPV" + code[3..];
      GroupOf(code[3..])
    else None
  }

  /** `State`: the hour states the parser recognises, by their string value. */
  datatype State = No | Yes | First | Second

  function StateValue(s: State): string
  {
    match s
    case No => "no"
    case Yes => "yes"
    case First => "first"
    case Second => "second"
  }

  /** Start of 1-based hour `hour` of the day that begins at `dt`. */
  function HourStart(dt: int, hour: int): int
  {
    dt + (hour - 1) * HourSeconds
  }

  /** One iteration of `_parse_group`: the interval an hour state stands for.
      "no" (no power) is the whole hour, "first" and "second" its first or
      second half; every other state, "yes" included, is skipped. */
  function HourSlot(dt: int, hour: int, state: string): (r: Option<Slot>)
    ensures r.Some? <==> state in {StateValue(No), StateValue(First), StateValue(Second)}
    ensures r.Some? ==>
      && HourStart(dt, hour) <= r.value.start < r.value.end <= HourStart(dt, hour) + HourSeconds
      && r.value.title == Scheduled
    ensures state == StateValue(No) ==>
      r.Some? && r.value.start == HourStart(dt, hour) && r.value.end == HourStart(dt, hour + 1)
    ensures state == StateValue(First) ==>
      r.Some? && r.value.start == HourStart(dt, hour) && r.value.end - r.value.start == HalfHourSeconds
    ensures state == StateValue(Second) ==>
      r.Some? && r.value.end == HourStart(dt, hour + 1) && r.value.end - r.value.start == HalfHourSeconds
  {
    var hours := hour - 1;
    if state == StateValue(No) then
      Some(Slot(dt + hours * HourSeconds, dt + hours * HourSeconds + 60 * 60, Scheduled))
    else if state == StateValue(First) then
      Some(Slot(dt + hours * HourSeconds, dt + hours * HourSeconds + 30 * 60, Scheduled))
    else if state == StateValue(Second) then
      Some(Slot(dt + hours * HourSeconds + 30 * 60, dt + hours * HourSeconds + 60 * 60, Scheduled))
    else
      None
  }

  /** The slots `_parse_group(dt, data)` returns, one per recognised hour,
      in the order of the hour keys. */
  function HourSlots(dt: int, data: HourStates): seq<Slot>
  {
    if data == [] then []
    else
      var last := data[|data| - 1];
      HourSlots(dt, data[..|data| - 1])
        + match HourSlot(dt, last.0, last.1) case Some(s) => [s] case None => []
  }

  /** `_parse_group`: walks the hour states, appending an interval for each
      recognised one. */
  method ParseGroup(dt: int, data: HourStates) returns (slots: seq<Slot>)
    ensures slots == HourSlots(dt, data)
    ensures forall k :: 0 <= k < |slots| ==>
      slots[k].start < slots[k].end && slots[k].end - slots[k].start in {HalfHourSeconds, HourSeconds}
  {
    slots := [];
    for i := 0 to |data|
      invariant slots == HourSlots(dt, data[..i])
    {
      assert data[..i + 1][..i] == data[..i];
      var (hour, state) := data[i];
      var hours := hour - 1;
      if state == StateValue(No) {
        slots := slots + [Slot(dt + hours * HourSeconds, dt + hours * HourSeconds + 60 * 60, Scheduled)];
      } else if state == StateValue(First) {
        slots := slots + [Slot(dt + hours * HourSeconds, dt + hours * HourSeconds + 30 * 60, Scheduled)];
      } else if state == StateValue(Second) {
        slots := slots + [Slot(dt + hours * HourSeconds + 30 * 60, dt + hours * HourSeconds + 60 * 60, Scheduled)];
      }
    }
    assert data[..|data|] == data;
    HourSlotsShape(dt, data);
  }

  /** Every parsed interval is non-empty and lasts half an hour or an hour,
      and there is at most one interval per hour key. */
  lemma {:induction false} HourSlotsShape(dt: int, data: HourStates)
    ensures |HourSlots(dt, data)| <= |data|
    ensures forall k :: 0 <= k < |HourSlots(dt, data)| ==>
      var s := HourSlots(dt, data)[k];
      s.start < s.end && s.end - s.start in {HalfHourSeconds, HourSeconds} && s.title == Scheduled
  {
    if data != [] {
      HourSlotsShape(dt, data[..|data| - 1]);
    }
  }

  /** Parsing distributes over concatenation of hour keys: output order is
      input order, and no interval depends on a neighbouring hour. */
  lemma {:induction false} HourSlotsAppend(dt: int, a: HourStates, b: HourStates)
    ensures HourSlots(dt, a + b) == HourSlots(dt, a) + HourSlots(dt, b)
  {
    if b == [] {
      assert a + b == a;
    } else {
      assert (a + b)[..|a + b| - 1] == a + b[..|b| - 1];
      HourSlotsAppend(dt, a, b[..|b| - 1]);
    }
  }

  /** One iteration of `_join_slots`: a slot that starts where the last
      joined slot ends extends it (the extended slot gets the default
      title); any other slot is appended. The first slot is kept as it is. */
  function Extend(joined: seq<Slot>, s: Slot): seq<Slot>
  {
    if joined == [] then [s]
    else
      var prev := joined[|joined| - 1];
      if s.start == prev.end then joined[..|joined| - 1] + [Slot(prev.start, s.end, Scheduled)]
      else joined + [s]
  }

  /** No two consecutive slots touch. */
  ghost predicate Separated(slots: seq<Slot>)
  {
    forall k :: 0 <= k < |slots| - 1 ==> slots[k].end != slots[k + 1].start
  }

  /** What `_join_slots(slots)` returns. The joined list is empty exactly when
      the input is, is never longer, starts where the input starts, ends
      where the input's last slot ends, and has no touching neighbours. */
  function Join(slots: seq<Slot>): (r: seq<Slot>)
    ensures |r| <= |slots|
    ensures r == [] <==> slots == []
    ensures r != [] ==> r[0].start == slots[0].start && r[|r| - 1].end == slots[|slots| - 1].end
    ensures Separated(r)
  {
    if slots == [] then [] else Extend(Join(slots[..|slots| - 1]), slots[|slots| - 1])
  }

  /** `_join_slots`: copies the first slot, then overwrites the last joined
      slot or appends, slot by slot. */
  method JoinSlots(slots: seq<Slot>) returns (joined: seq<Slot>)
    ensures joined == Join(slots)
  {
    if slots == [] {
      return [];
    }
    joined := [slots[0]];
    assert slots[..1][..0] == [];
    for i := 1 to |slots|
      invariant joined == Join(slots[..i])
    {
      assert slots[..i + 1][..i] == slots[..i];
      var prev := joined[|joined| - 1];
      if slots[i].start == prev.end {
        joined := joined[..|joined| - 1] + [Slot(prev.start, slots[i].end, Scheduled)];
      } else {
        joined := joined + [slots[i]];
      }
    }
    assert slots[..|slots|] == slots;
  }

  /** Summed length of the intervals. */
  function Duration(slots: seq<Slot>): int
  {
    if slots == [] then 0 else Duration(slots[..|slots| - 1]) + (slots[|slots| - 1].end - slots[|slots| - 1].start)
  }

  lemma {:induction false} DurationSnoc(slots: seq<Slot>, s: Slot)
    ensures Duration(slots + [s]) == Duration(slots) + (s.end - s.start)
  {
    assert (slots + [s])[..|slots|] == slots;
  }

  /** Joining loses no outage time: the summed duration is preserved. */
  lemma {:induction false} JoinPreservesDuration(slots: seq<Slot>)
    ensures Duration(Join(slots)) == Duration(slots)
  {
    if slots != [] {
      var init, s := slots[..|slots| - 1], slots[|slots| - 1];
      JoinPreservesDuration(init);
      var j := Join(init);
      if j == [] {
        DurationSnoc([], s);
      } else if s.start == j[|j| - 1].end {
        var prev := j[|j| - 1];
        assert j == j[..|j| - 1] + [prev];
        DurationSnoc(j[..|j| - 1], prev);
        DurationSnoc(j[..|j| - 1], Slot(prev.start, s.end, Scheduled));
      } else {
        DurationSnoc(j, s);
      }
    }
  }

  /** A list with no touching neighbours is left as it is. */
  lemma {:induction false} JoinSeparated(slots: seq<Slot>)
    requires Separated(slots)
    ensures Join(slots) == slots
  {
    if slots != [] {
      var init := slots[..|slots| - 1];
      assert Separated(init);
      JoinSeparated(init);
      assert init + [slots[|slots| - 1]] == slots;
    }
  }

  /** `_join_slots` is idempotent. */
  lemma {:induction false} JoinIdempotent(slots: seq<Slot>)
    ensures Join(Join(slots)) == Join(slots)
  {
    JoinSeparated(Join(slots));
  }

  /** Extending an already-joined prefix slot by slot. */
  function ExtendAll(acc: seq<Slot>, slots: seq<Slot>): seq<Slot>
  {
    if slots == [] then acc else Extend(ExtendAll(acc, slots[..|slots| - 1]), slots[|slots| - 1])
  }

  lemma {:induction false} JoinConcat(a: seq<Slot>, b: seq<Slot>)
    ensures Join(a + b) == ExtendAll(Join(a), b)
  {
    if b == [] {
      assert a + b == a;
    } else {
      assert (a + b)[..|a + b| - 1] == a + b[..|b| - 1];
      JoinConcat(a, b[..|b| - 1]);
    }
  }

  /** Re-joining after every batch, as `planned_outages` does, gives the
      same list as joining everything once: joining already-joined slots
      with new ones equals joining the concatenation. */
  lemma {:induction false} JoinRejoin(a: seq<Slot>, b: seq<Slot>)
    ensures Join(Join(a) + b) == Join(a + b)
  {
    JoinConcat(Join(a), b);
    JoinConcat(a, b);
    JoinIdempotent(a);
  }

  /** One `(timestamp, group code, hour states)` entry of the fact. */
  type Entry = (int, string, HourStates)

  /** The entries of one timestamp, in key order. */
  function Row(timestamp: int, codes: CodeStates): (r: seq<Entry>)
    ensures |r| == |codes|
    ensures forall k :: 0 <= k < |codes| ==> r[k] == (timestamp, codes[k].0, codes[k].1)
  {
    seq(|codes|, k requires 0 <= k < |codes| => (timestamp, codes[k].0, codes[k].1))
  }

  /** All entries of the fact, in the order `planned_outages` visits them. */
  function Entries(data: Fact): seq<Entry>
  {
    if data == [] then [] else Entries(data[..|data| - 1]) + Row(data[|data| - 1].0, data[|data| - 1].1)
  }

  /** Every group code of the entries is in `GROUP_MAP`. */
  ghost predicate KnownCodes(entries: seq<Entry>)
  {
    forall e :: e in entries ==> GroupMap(e.1).Some?
  }

  /** The groups the entries mention. */
  ghost function GroupsOf(entries: seq<Entry>): set<Group>
  {
    set e | e in entries && GroupMap(e.1).Some? :: GroupMap(e.1).value
  }

  /** The intervals parsed for group `g`, all of its entries concatenated in
      data order. */
  function GroupSlots(entries: seq<Entry>, g: Group): seq<Slot>
  {
    if entries == [] then []
    else
      var e := entries[|entries| - 1];
      GroupSlots(entries[..|entries| - 1], g) + if GroupMap(e.1) == Some(g) then HourSlots(e.0, e.2) else []
  }

  /** The accumulated mapping after a prefix of the entries: exactly their
      groups, each mapped to the join of all its intervals so far. */
  ghost predicate Collected(slots: map<Group, seq<Slot>>, entries: seq<Entry>)
  {
    && KnownCodes(entries)
    && slots.Keys == GroupsOf(entries)
    && forall g :: g in slots ==> slots[g] == Join(GroupSlots(entries, g))
  }

  lemma {:induction false} GroupSlotsAbsent(entries: seq<Entry>, g: Group)
    requires g !in GroupsOf(entries)
    ensures GroupSlots(entries, g) == []
  {
    if entries != [] {
      var init := entries[..|entries| - 1];
      assert GroupsOf(init) <= GroupsOf(entries) by {
        forall e | e in init ensures e in entries { }
      }
      GroupSlotsAbsent(init, g);
    }
  }

  lemma {:induction false} GroupsOfSnoc(entries: seq<Entry>, e: Entry)
    requires GroupMap(e.1).Some?
    ensures GroupsOf(entries + [e]) == GroupsOf(entries) + {GroupMap(e.1).value}
  {
    var entries' := entries + [e];
    forall g | g in GroupsOf(entries') ensures g in GroupsOf(entries) + {GroupMap(e.1).value} {
      var e' :| e' in entries' && GroupMap(e'.1).Some? && GroupMap(e'.1).value == g;
      if e' != e { assert e' in entries; }
    }
    forall g | g in GroupsOf(entries) ensures g in GroupsOf(entries') {
      var e' :| e' in entries && GroupMap(e'.1).Some? && GroupMap(e'.1).value == g;
      assert e' in entries';
    }
    assert e in entries';
  }

  lemma {:induction false} GroupSlotsSnoc(entries: seq<Entry>, e: Entry, g: Group)
    ensures GroupSlots(entries + [e], g)
         == GroupSlots(entries, g) + if GroupMap(e.1) == Some(g) then HourSlots(e.0, e.2) else []
  {
    assert (entries + [e])[..|entries|] == entries;
  }

  lemma {:induction false} CollectStepAt(slots: map<Group, seq<Slot>>, entries: seq<Entry>, e: Entry, g: Group, h: Group)
    requires Collected(slots, entries)
    requires GroupMap(e.1) == Some(g)
    requires h in slots || h == g
    ensures var slots' := slots[g := Join((if g in slots then slots[g] else []) + HourSlots(e.0, e.2))];
      slots'[h] == Join(GroupSlots(entries + [e], h))
  {
    GroupSlotsSnoc(entries, e, h);
    var parsed := HourSlots(e.0, e.2);
    var slots' := slots[g := Join((if g in slots then slots[g] else []) + parsed)];
    if h != g {
      var prior := GroupSlots(entries, h);
      assert GroupSlots(entries + [e], h) == prior + [];
      assert prior + [] == prior;
      assert slots'[h] == slots[h] == Join(prior);
    } else if g in slots {
      JoinRejoin(GroupSlots(entries, g), parsed);
      assert slots'[h] == Join(GroupSlots(entries + [e], h));
    } else {
      GroupSlotsAbsent(entries, g);
      assert GroupSlots(entries + [e], g) == [] + parsed;
      assert slots'[h] == Join(GroupSlots(entries + [e], h));
    }
  }

  /** One inner iteration of `planned_outages` keeps the accumulation exact. */
  lemma {:induction false} CollectStep(slots: map<Group, seq<Slot>>, entries: seq<Entry>, e: Entry, g: Group)
    requires Collected(slots, entries)
    requires GroupMap(e.1) == Some(g)
    ensures Collected(
      slots[g := Join((if g in slots then slots[g] else []) + HourSlots(e.0, e.2))], entries + [e])
  {
    var entries' := entries + [e];
    var slots' := slots[g := Join((if g in slots then slots[g] else []) + HourSlots(e.0, e.2))];
    GroupsOfSnoc(entries, e);
    forall e' | e' in entries' ensures GroupMap(e'.1).Some? {
      if e' != e { assert e' in entries; }
    }
    forall h | h in slots' ensures slots'[h] == Join(GroupSlots(entries', h)) {
      CollectStepAt(slots, entries, e, g, h);
    }
  }

  lemma {:induction false} EntriesAppend(a: Fact, b: Fact)
    ensures Entries(a + b) == Entries(a) + Entries(b)
  {
    if b == [] {
      assert a + b == a;
    } else {
      assert (a + b)[..|a + b| - 1] == a + b[..|b| - 1];
      EntriesAppend(a, b[..|b| - 1]);
    }
  }

  /** The entry for code `j` of timestamp `i` is one of the fact's entries. */
  lemma {:induction false} EntryOfFact(data: Fact, i: nat, j: nat)
    requires i < |data| && j < |data[i].1|
    ensures (data[i].0, data[i].1[j].0, data[i].1[j].1) in Entries(data)
  {
    assert data == data[..i] + [data[i]] + data[i + 1..];
    EntriesAppend(data[..i] + [data[i]], data[i + 1..]);
    EntriesAppend(data[..i], [data[i]]);
    assert [data[i]][..0] == [];
    assert Entries([data[i]]) == Row(data[i].0, data[i].1);
    assert Row(data[i].0, data[i].1)[j] == (data[i].0, data[i].1[j].0, data[i].1[j].1);
  }

  /** Processing code `j` of one timestamp advances the accumulation by
      that entry. */
  lemma {:induction false} CollectAdvance(slots: map<Group, seq<Slot>>, done: seq<Entry>, dt: int, groups: CodeStates, j: nat, g: Group)
    requires j < |groups| && GroupMap(groups[j].0) == Some(g)
    requires Collected(slots, done + Row(dt, groups[..j]))
    ensures Collected(
      slots[g := Join((if g in slots then slots[g] else []) + HourSlots(dt, groups[j].1))],
      done + Row(dt, groups[..j + 1]))
  {
    var e := (dt, groups[j].0, groups[j].1);
    assert Row(dt, groups[..j + 1]) == Row(dt, groups[..j]) + [e];
    assert done + Row(dt, groups[..j + 1]) == done + Row(dt, groups[..j]) + [e];
    CollectStep(slots, done + Row(dt, groups[..j]), e, g);
  }

  /** The accumulation over the whole fact answers the question asked. */
  lemma CollectedAll(slots: map<Group, seq<Slot>>, data: Fact)
    requires Collected(slots, Entries(data))
    ensures !exists e :: e in Entries(data) && GroupMap(e.1).None?
    ensures slots.Keys == GroupsOf(Entries(data))
    ensures forall g :: g in slots ==> slots[g] == Join(GroupSlots(Entries(data), g))
  {
  }

  /** The accumulation loop of `planned_outages` (identical in both versions):
      for every timestamp and every group code, re-join the group's slots so
      far with the newly parsed ones. An unknown code raises `KeyError` and
      nothing is returned; otherwise each mentioned group maps to the join of
      all its intervals in data order, and unmentioned groups are absent. */
  method CollectGroups(data: Fact) returns (r: Result<map<Group, seq<Slot>>, Error>)
    ensures r.Failure? <==> exists e :: e in Entries(data) && GroupMap(e.1).None?
    ensures r.Failure? ==> r.error == KeyError
    ensures r.Success? ==> r.value.Keys == GroupsOf(Entries(data))
    ensures r.Success? ==> forall g :: g in r.value ==> r.value[g] == Join(GroupSlots(Entries(data), g))
  {
    var slots: map<Group, seq<Slot>> := map[];
    for i := 0 to |data|
      invariant Collected(slots, Entries(data[..i]))
    {
      var (timestamp, groups) := data[i];
      ghost var done := Entries(data[..i]);
      var row := CollectRow(slots, done, timestamp, groups);
      if row.Failure? {
        ghost var j :| 0 <= j < |groups| && GroupMap(groups[j].0).None?;
        EntryOfFact(data, i, j);
        return Failure(KeyError);
      }
      slots := row.value;
      assert data[..i + 1][..i] == data[..i];
      assert Entries(data[..i + 1]) == done + Row(timestamp, groups);
    }
    assert data[..|data|] == data;
    CollectedAll(slots, data);
    return Success(slots);
  }

  /** The inner loop of `planned_outages`, over the group codes of one
      timestamp: it raises `KeyError` at the first unknown code, and
      otherwise extends the accumulation by the timestamp's whole row. */
  method CollectRow(slots: map<Group, seq<Slot>>, ghost done: seq<Entry>, dt: int, groups: CodeStates)
    returns (r: Result<map<Group, seq<Slot>>, Error>)
    requires Collected(slots, done)
    ensures r.Success? ==> Collected(r.value, done + Row(dt, groups))
    ensures r.Failure? ==> r.error == KeyError && exists j :: 0 <= j < |groups| && GroupMap(groups[j].0).None?
  {
    var acc := slots;
    assert done + Row(dt, groups[..0]) == done;
    for j := 0 to |groups|
      invariant Collected(acc, done + Row(dt, groups[..j]))
    {
      var (g, days) := groups[j];
      var group := GroupMap(g);
      if group.None? {
        return Failure(KeyError);
      }
      var parsed := ParseGroup(dt, days);
      var prior := if group.value in acc then acc[group.value] else [];
      var joined := JoinSlots(prior + parsed);
      CollectAdvance(acc, done, dt, groups, j, group.value);
      acc := acc[group.value := joined];
    }
    assert groups[..|groups|] == groups;
    return Success(acc);
  }

  /** The value of `DisconSchedule.fact` once the page has loaded. */
  datatype PageFact =
    | NeverReady              // `wait_for_function` gave up (a Playwright timeout)
    | Falsy                   // the fact evaluated to a falsy value
    | Truthy(data: Option<Fact>)  // an object, with or without its "data" key

  /** How the browser job for a DTEK page ended, as `_get` sees it. */
  datatype Fetched =
    | EmergencyShutdown       // the job raised `EmergencyShutdown`
    | Fetched(data: Fact)     // the job returned the fact's "data"
    | FetchFailed(error: Error)

  /** `BrowserJob.execute` once the page is loaded: the emergency phrase in
      the page text is checked first and wins over any schedule; a schedule
      is returned only from a truthy fact that has "data"; a falsy fact is
      an error, never an empty schedule. */
  function ExecuteDecision(mentionsEmergency: bool, fact: PageFact): (r: Fetched)
    ensures mentionsEmergency <==> r.EmergencyShutdown?
    ensures r.Fetched? <==> !mentionsEmergency && fact.Truthy? && fact.data.Some?
    ensures r.Fetched? ==> r.data == fact.data.value
    ensures !mentionsEmergency && fact.Falsy? ==> r == FetchFailed(ValueError)
  {
    if mentionsEmergency then EmergencyShutdown
    else match fact
      case NeverReady => FetchFailed(PlaywrightError)
      case Truthy(Some(data)) => Fetched(data)
      case Truthy(None) => FetchFailed(KeyError)
      case Falsy => FetchFailed(ValueError)
  }

  /** The emergency answer: from today's Kyiv midnight to two days later. */
  function EmergencySlot(today: int): Slot
  {
    Slot(today, today + 2 * DaySeconds, Emergency)
  }

  /** `DtekShutdownBase.planned_outages` (current version). An emergency page
      gives every one of the twelve groups the same single two-day slot; a
      failed job propagates its exception; falsy data gives no groups;
      otherwise the fact is accumulated group by group. */
  method PlannedOutages(today: int, fetched: Fetched) returns (r: Result<map<Group, seq<Slot>>, Error>)
    ensures fetched.EmergencyShutdown? ==>
      r.Success? && forall g: Group :: g in r.value && r.value[g] == [EmergencySlot(today)]
    ensures fetched.FetchFailed? ==> r == Failure(fetched.error)
    ensures fetched.Fetched? && fetched.data == [] ==> r == Success(map[])
    ensures fetched.Fetched? ==>
      (r.Failure? <==> exists e :: e in Entries(fetched.data) && GroupMap(e.1).None?)
    ensures fetched.Fetched? && r.Failure? ==> r.error == KeyError
    ensures fetched.Fetched? && r.Success? ==>
      && r.value.Keys == GroupsOf(Entries(fetched.data))
      && forall g :: g in r.value ==> r.value[g] == Join(GroupSlots(Entries(fetched.data), g))
  {
    match fetched
    case EmergencyShutdown =>
      var slot := Slot(today, today + 2 * DaySeconds, Emergency);
      GroupsClosed();
      return Success(map g | g in AllGroups :: [slot]);
    case FetchFailed(e) =>
      return Failure(e);
    case Fetched(data) =>
      if data == [] {
        return Success(map[]);
      }
      r := CollectGroups(data);
  }
}
