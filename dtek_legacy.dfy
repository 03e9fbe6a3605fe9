/** The older DTEK normaliser (providers/dtek.py). It reads the fact from the
    raw page HTML with a regular expression instead of through a browser job
    and has no emergency override; the parsing, joining and accumulation are
    the same code as the current version's and are taken from module Dtek. */
module DtekLegacy {
  import opened Common
  import opened Dtek

  /** What `_get` extracts from the page: no match of `DisconSchedule.fact = {...}`
      (it then returns `{}`), a matched object without a "data" key (the
      lookup raises `KeyError`), or the fact's "data" object. */
  datatype Page = NoMatch | NoDataKey | Matched(data: Fact)

  /** `DtekShutdownBase.planned_outages` (older version): no match or falsy
      data gives no groups; otherwise the same accumulation as the current
      version, with `KeyError` for an unknown group code. */
  method PlannedOutages(page: Page) returns (r: Result<map<Group, seq<Slot>>, Error>)
    ensures page.NoMatch? ==> r == Success(map[])
    ensures page.NoDataKey? ==> r == Failure(KeyError)
    ensures page.Matched? && page.data == [] ==> r == Success(map[])
    ensures page.Matched? ==>
      (r.Failure? <==> exists e :: e in Entries(page.data) && GroupMap(e.1).None?)
    ensures r.Failure? ==> r.error == KeyError
    ensures page.Matched? && r.Success? ==>
      && r.value.Keys == GroupsOf(Entries(page.data))
      && forall g :: g in r.value ==> r.value[g] == Join(GroupSlots(Entries(page.data), g))
  {
    if page.NoDataKey? {
      return Failure(KeyError);
    }
    var data := if page.Matched? then page.data else [];
    if data == [] {
      return Success(map[]);
    }
    r := CollectGroups(data);
  }
}
