/**
 The validating thread: the `errorCounts` counters and `blacklistThreshold` as fields,
 and the two phases of a round as loops over the registry's map and over the counters.
 */
module Validator {
  import opened Registry
  import opened FailureTracker
  import opened BlacklistPolicy
  import opened Rounds

  class RandomDataSourceValidateThread {
    var blacklistThreshold: int
    const selector: DataSourceSelector?
    var errorCounts: map<string, int>

    /** The class invariant: counters are never negative. */
    ghost predicate Valid()
      reads this
    {
      NonNegative(errorCounts)
    }

    constructor (selector: DataSourceSelector?)
      ensures this.selector == selector
      ensures errorCounts == map[] && blacklistThreshold == 3
      ensures Valid()
    {
      this.selector := selector;
      errorCounts := map[];
      blacklistThreshold := 3;
    }

    method SetBlacklistThreshold(threshold: int)
      modifies this`blacklistThreshold
      ensures blacklistThreshold == threshold
    {
      blacklistThreshold := threshold;
    }

    /** The probe phase: every name bound to a DruidDataSource is probed once, in whatever
        order the registry's map yields, and its counter is reset or incremented; `probe(n)`
        is this round's verdict for `n`. */
    method CheckAllDataSources(probe: string -> bool)
      requires selector != null && Valid()
      modifies this`errorCounts
      ensures Valid()
      ensures errorCounts == AfterProbes(old(errorCounts), selector.dataSourceMap, probe)
    {
      var dataSourceMap := selector.dataSourceMap;
      var todo := dataSourceMap.Keys;
      while todo != {}
        invariant todo <= dataSourceMap.Keys
        invariant errorCounts == ProbedUpTo(old(errorCounts), dataSourceMap, probe, dataSourceMap.Keys - todo)
        decreases todo
      {
        var name :| name in todo;
        ProbeStep(old(errorCounts), dataSourceMap, probe, dataSourceMap.Keys - todo, name);
        assert (dataSourceMap.Keys - todo) + {name} == dataSourceMap.Keys - (todo - {name});
        todo := todo - {name};
        if !dataSourceMap[name].druid {
          continue;
        }
        var flag := probe(name);
        if flag {
          errorCounts := errorCounts[name := 0];
        } else {
          if name !in errorCounts {
            errorCounts := errorCounts[name := 0];
          }
          var count := errorCounts[name];
          errorCounts := errorCounts[name := count + 1];
        }
      }
      ProbesKeepNonNegative(old(errorCounts), dataSourceMap, probe);
    }

    /** The maintenance phase: every tracked name, in the iteration order `order` of the
        counters, has its DataSource removed from or added to the blacklist, or left alone. */
    method MaintainBlacklist(order: seq<string>)
      requires selector != null
      requires IsEnumeration(order, errorCounts.Keys)
      modifies selector`blacklist
      ensures AllTracked(order, errorCounts)
      ensures selector.blacklist
              == Reconcile(old(selector.blacklist), order, errorCounts, selector.dataSourceMap, blacklistThreshold)
    {
      var dataSourceMap := selector.dataSourceMap;
      for i := 0 to |order|
        invariant selector.blacklist
                  == Reconcile(old(selector.blacklist), order[..i], errorCounts, dataSourceMap, blacklistThreshold)
      {
        var name := order[i];
        var count := errorCounts[name];
        if count <= 0 {
          selector.RemoveBlacklist(Lookup(dataSourceMap, name));
        } else if count >= blacklistThreshold {
          selector.AddBlacklist(Lookup(dataSourceMap, name));
        }
        assert order[..i + 1][..i] == order[..i];
      }
      assert order[..|order|] == order;
    }

    /** One round of `run`: when there is a registry, probe everything, then maintain the
        blacklist from the counters the probes just left. */
    method RunRound(probe: string -> bool, order: seq<string>)
      requires Valid()
      requires selector != null ==> IsEnumeration(order, errorCounts.Keys + ProbeableNames(selector.dataSourceMap))
      modifies this`errorCounts, selector
      ensures Valid()
      ensures selector == null ==> errorCounts == old(errorCounts)
      ensures selector != null ==>
                && selector.dataSourceMap == old(selector.dataSourceMap)
                && Tracker(errorCounts, selector.blacklist)
                   == Round(Tracker(old(errorCounts), old(selector.blacklist)), selector.dataSourceMap,
                            blacklistThreshold, probe, order)
    {
      if selector != null {
        CheckAllDataSources(probe);
        ProbeKeys(old(errorCounts), selector.dataSourceMap, probe);
        MaintainBlacklist(order);
      }
    }
  }
}
