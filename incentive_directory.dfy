/** The incentive directory shared by the data context and its earlier contracts-context
    variant: the `currentIncentive` lookup and the selection made when a network appears. */
module IncentiveDirectory {
  import opened Types

  /** `i` is the index of the first incentive carrying `id`. */
  ghost predicate IsFirstWithId(incentives: seq<Incentive>, id: string, i: int)
  {
    0 <= i < |incentives| && incentives[i].id == id &&
    forall j | 0 <= j < i :: incentives[j].id != id
  }

  /** `incentives.find(incentive => incentive.id === id)`. */
  function Find(incentives: seq<Incentive>, id: string): (r: Option<Incentive>)
    ensures r.None? <==> forall i | 0 <= i < |incentives| :: incentives[i].id != id
    ensures r.Some? ==> exists i :: IsFirstWithId(incentives, id, i) && incentives[i] == r.value
  {
    if |incentives| == 0 then None
    else if incentives[0].id == id then Some(incentives[0])
    else
      var r := Find(incentives[1..], id);
      assert r.Some? ==> exists i :: IsFirstWithId(incentives[1..], id, i) && incentives[1..][i] == r.value;
      assert r.Some? ==> exists i :: IsFirstWithId(incentives, id, i) && incentives[i] == r.value by {
        if r.Some? {
          var i :| IsFirstWithId(incentives[1..], id, i) && incentives[1..][i] == r.value;
          assert IsFirstWithId(incentives, id, i + 1);
        }
      }
      r
  }

  /** What evaluating the `currentIncentive` memo gives: a value, or a throw, when the stored list is
      `undefined` and `incentives.find` is called on it. */
  datatype Memo = Evaluated(incentive: Option<Incentive>) | Crashes

  /** The `currentIncentive` memo over the stored list (`None` is `undefined`): null for a falsy id,
      else the first incentive with that id, else null; a truthy id over an undefined list throws. */
  function CurrentIncentive(stored: Option<seq<Incentive>>, currentId: Option<string>): (r: Memo)
    ensures !Truthy(currentId) ==> r == Evaluated(None)
    ensures r.Crashes? <==> Truthy(currentId) && stored.None?
    ensures r.Evaluated? && r.incentive.Some? <==>
            Truthy(currentId) && stored.Some? &&
            exists i | 0 <= i < |stored.value| :: stored.value[i].id == currentId.value
    ensures r.Evaluated? && r.incentive.Some? ==>
            exists i :: IsFirstWithId(stored.value, currentId.value, i) && stored.value[i] == r.incentive.value
  {
    if !Truthy(currentId) then Evaluated(None)
    else if stored.None? then Crashes
    else Evaluated(Find(stored.value, currentId.value))
  }

  /** `INCENTIVES[network]`: `None` is `undefined`, for a network the table has no entry for. */
  function IncentivesFor(table: map<string, seq<Incentive>>, network: string): Option<seq<Incentive>>
  {
    if network in table then Some(table[network]) else None
  }

  /** What the "load incentives" effect does: nothing without a network; otherwise it stores the
      configured list and selects its first id, and throws (after storing the list, or `undefined`)
      when there is no first entry. */
  datatype Selection =
    | Skip
    | Select(incentives: seq<Incentive>, currentId: string)
    | Throw(stored: Option<seq<Incentive>>)

  function InitialSelection(table: map<string, seq<Incentive>>, network: Option<string>): (r: Selection)
    ensures r.Skip? <==> !Truthy(network)
    ensures r.Select? ==> network.value in table && r.incentives == table[network.value] && |r.incentives| > 0 &&
                          r.currentId == r.incentives[0].id
    ensures r.Throw? <==> Truthy(network) && (network.value !in table || table[network.value] == [])
    ensures r.Throw? ==> (r.stored.None? <==> network.value !in table) && (r.stored.Some? ==> r.stored.value == [])
  {
    if !Truthy(network) then Skip
    else
      match IncentivesFor(table, network.value)
      case None => Throw(None)
      case Some(incentives) =>
        if |incentives| == 0 then Throw(Some(incentives)) else Select(incentives, incentives[0].id)
  }

  /** The selected id is always that of an incentive in the stored list, so it resolves to that incentive. */
  lemma SelectionResolves(table: map<string, seq<Incentive>>, network: Option<string>)
    requires InitialSelection(table, network).Select?
    ensures var s := InitialSelection(table, network);
            CurrentIncentive(Some(s.incentives), Some(s.currentId))
            == Evaluated(if s.currentId == "" then None else Some(s.incentives[0]))
  {
  }

  /** A network the table lacks stores `undefined`; a truthy id left from before then makes the memo throw. */
  lemma MissingNetworkCrashesMemo(table: map<string, seq<Incentive>>, network: Option<string>, oldId: Option<string>)
    requires Truthy(network) && network.value !in table && Truthy(oldId)
    ensures InitialSelection(table, network) == Throw(None)
    ensures CurrentIncentive(InitialSelection(table, network).stored, oldId) == Crashes
  {
  }
}
