/**
 Rounds of the validating thread as values: one round is the probe phase followed by
 blacklist maintenance over the counters that phase produced; successive rounds run
 against one registry, the tracker being iterated in one fixed order.
 */
module Rounds {
  import opened Registry
  import opened FailureTracker
  import opened BlacklistPolicy

  /** The state a round changes: the thread's counters and the registry's blacklist. */
  datatype Tracker = Tracker(counts: map<string, int>, blacklist: set<DataSource>)

  /** A thread that has not run yet, with a registry whose blacklist is empty. */
  const Fresh: Tracker := Tracker(map[], {})

  /** One round: all probes complete before maintenance starts, so maintenance sees the
      counters of this very round. `order` is the iteration order of the counters. */
  function Round(t: Tracker, sources: map<string, DataSource>, threshold: int,
                 probe: string -> bool, order: seq<string>): (r: Tracker)
    requires IsEnumeration(order, t.counts.Keys + ProbeableNames(sources))
    ensures r.counts.Keys == t.counts.Keys + ProbeableNames(sources)
    ensures NonNegative(t.counts) ==> NonNegative(r.counts)
    ensures r.blacklist - HandlesOf(order, sources) == t.blacklist - HandlesOf(order, sources)
  {
    var counts := AfterProbes(t.counts, sources, probe);
    ProbeKeys(t.counts, sources, probe);
    Tracker(counts, Reconcile(t.blacklist, order, counts, sources, threshold))
  }

  /** `|probes|` successive rounds against the registry `sources`; round `i` uses the
      verdicts `probes[i]`. The set of tracked names is the same after every round, so one
      iteration order serves them all. */
  function RunRounds(t: Tracker, sources: map<string, DataSource>, threshold: int,
                  probes: seq<string -> bool>, order: seq<string>): (r: Tracker)
    requires IsEnumeration(order, t.counts.Keys + ProbeableNames(sources))
    ensures t.counts.Keys <= r.counts.Keys
    ensures r.counts.Keys + ProbeableNames(sources) == t.counts.Keys + ProbeableNames(sources)
    ensures r.counts == ProbeRounds(t.counts, sources, probes)
    decreases |probes|
  {
    if probes == [] then t
    else Round(RunRounds(t, sources, threshold, probes[..|probes| - 1], order), sources, threshold,
               probes[|probes| - 1], order)
  }

  /** After a round in which a name's probe succeeds, its counter is 0 and (its DataSource
      being its own) that DataSource is off the blacklist, whatever its history. */
  lemma SuccessClearsSameRound(t: Tracker, sources: map<string, DataSource>, threshold: int,
                               probe: string -> bool, order: seq<string>, name: string)
    requires IsEnumeration(order, t.counts.Keys + ProbeableNames(sources))
    requires DistinctHandles(sources, t.counts.Keys + ProbeableNames(sources))
    requires name in sources && sources[name].druid && probe(name)
    ensures var r := Round(t, sources, threshold, probe, order);
            name in r.counts && r.counts[name] == 0 && sources[name] !in r.blacklist
  {
    var counts := AfterProbes(t.counts, sources, probe);
    ProbeKeys(t.counts, sources, probe);
    SuccessResets(t.counts, sources, probe, name);
    MaintenancePerName(t.blacklist, order, counts, sources, threshold, name);
  }

  /** From a fresh start, a name whose every probe fails has its DataSource on the
      blacklist after round k exactly when k has reached the threshold. */
  lemma {:induction false} FailuresReachThreshold(t: Tracker, sources: map<string, DataSource>, threshold: int,
                                                  probes: seq<string -> bool>, order: seq<string>, name: string)
    requires IsEnumeration(order, t.counts.Keys + ProbeableNames(sources))
    requires DistinctHandles(sources, t.counts.Keys + ProbeableNames(sources))
    requires name in sources && sources[name].druid
    requires name !in t.counts && sources[name] !in t.blacklist
    requires 1 <= threshold
    requires forall i :: 0 <= i < |probes| ==> !probes[i](name)
    ensures var r := RunRounds(t, sources, threshold, probes, order);
            CountOf(r.counts, name) == |probes| && (sources[name] in r.blacklist <==> |probes| >= threshold)
    decreases |probes|
  {
    ConsecutiveFailures(t.counts, sources, probes, name);
    if probes != [] {
      var prefix := probes[..|probes| - 1];
      FailuresReachThreshold(t, sources, threshold, prefix, order, name);
      var before := RunRounds(t, sources, threshold, prefix, order);
      var counts := AfterProbes(before.counts, sources, probes[|probes| - 1]);
      ProbeKeys(before.counts, sources, probes[|probes| - 1]);
      MaintenancePerName(before.blacklist, order, counts, sources, threshold, name);
    }
  }

  /** From a fresh start, over any history of successes and failures, a name's DataSource
      is on the blacklist after the last round exactly when its counter has reached the
      threshold: a failure that reaches it adds, a success resets the counter to 0 and
      removes, and the rounds in between leave membership as the previous round left it. */
  lemma {:induction false} BlacklistedIffReached(sources: map<string, DataSource>, threshold: int,
                                                 probes: seq<string -> bool>, order: seq<string>, name: string)
    requires IsEnumeration(order, ProbeableNames(sources))
    requires DistinctHandles(sources, ProbeableNames(sources))
    requires name in sources && sources[name].druid
    requires 1 <= threshold
    ensures var r := RunRounds(Fresh, sources, threshold, probes, order);
            sources[name] in r.blacklist <==> CountOf(r.counts, name) >= threshold
    decreases |probes|
  {
    assert Fresh.counts.Keys + ProbeableNames(sources) == ProbeableNames(sources);
    if probes != [] {
      var prefix := probes[..|probes| - 1];
      var probe := probes[|probes| - 1];
      BlacklistedIffReached(sources, threshold, prefix, order, name);
      var before := RunRounds(Fresh, sources, threshold, prefix, order);
      var counts := AfterProbes(before.counts, sources, probe);
      ProbeKeys(before.counts, sources, probe);
      MaintenancePerName(before.blacklist, order, counts, sources, threshold, name);
    }
  }

  /** No name of `names` that is registered is bound to a non-Druid DataSource. */
  ghost predicate OnlyDruidTracked(sources: map<string, DataSource>, names: set<string>)
  {
    forall n :: n in names && n in sources ==> sources[n].druid
  }

  /** A DataSource that is not a DruidDataSource never acquires a counter entry for its
      name and never enters the blacklist, over any number of rounds. */
  lemma {:induction false} NonDruidNeverBlacklisted(t: Tracker, sources: map<string, DataSource>, threshold: int,
                                                    probes: seq<string -> bool>, order: seq<string>, name: string)
    requires IsEnumeration(order, t.counts.Keys + ProbeableNames(sources))
    requires OnlyDruidTracked(sources, t.counts.Keys)
    requires name in sources && !sources[name].druid
    requires sources[name] !in t.blacklist
    ensures var r := RunRounds(t, sources, threshold, probes, order);
            name !in r.counts && sources[name] !in r.blacklist
    decreases |probes|
  {
    if probes != [] {
      var prefix := probes[..|probes| - 1];
      NonDruidNeverBlacklisted(t, sources, threshold, prefix, order, name);
      var before := RunRounds(t, sources, threshold, prefix, order);
      var counts := AfterProbes(before.counts, sources, probes[|probes| - 1]);
      ProbeKeys(before.counts, sources, probes[|probes| - 1]);
      var h := sources[name];
      ReconcileMembership(before.blacklist, order, counts, sources, threshold, h);
    }
  }

  /** A registry holding one Druid endpoint "E" whose probes all fail, from a fresh start:
      after k >= 1 rounds the only counter is k, and "E" is blacklisted exactly when k >= 3. */
  lemma OneFailingEndpoint(ds: DataSource, probes: seq<string -> bool>)
    requires ds.druid && |probes| >= 1
    requires forall i :: 0 <= i < |probes| ==> !probes[i]("E")
    ensures var r := RunRounds(Fresh, map["E" := ds], 3, probes, ["E"]);
            r.counts == map["E" := |probes|] && (ds in r.blacklist <==> |probes| >= 3)
  {
    var sources := map["E" := ds];
    assert ProbeableNames(sources) == {"E"};
    FailuresReachThreshold(Fresh, sources, 3, probes, ["E"], "E");
    ConsecutiveFailures(Fresh.counts, sources, probes, "E");
    var r := RunRounds(Fresh, sources, 3, probes, ["E"]);
    assert r.counts.Keys == {"E"};
  }

  /** The scenario of a threshold of 3 and an endpoint "E" failing from a fresh start:
      counters 1, 2, 3 and blacklisted after the third round, not before. */
  lemma ThreeFailuresScenario(ds: DataSource, fail: string -> bool)
    requires ds.druid && !fail("E")
    ensures var sources := map["E" := ds];
            && RunRounds(Fresh, sources, 3, [fail], ["E"]).counts == map["E" := 1]
            && ds !in RunRounds(Fresh, sources, 3, [fail], ["E"]).blacklist
            && RunRounds(Fresh, sources, 3, [fail, fail], ["E"]).counts == map["E" := 2]
            && ds !in RunRounds(Fresh, sources, 3, [fail, fail], ["E"]).blacklist
            && RunRounds(Fresh, sources, 3, [fail, fail, fail], ["E"]).counts == map["E" := 3]
            && ds in RunRounds(Fresh, sources, 3, [fail, fail, fail], ["E"]).blacklist
  {
    OneFailingEndpoint(ds, [fail]);
    OneFailingEndpoint(ds, [fail, fail]);
    OneFailingEndpoint(ds, [fail, fail, fail]);
  }

  /** The scenario of a blacklisted endpoint with counter 5 whose probe succeeds: its
      counter is reset and it leaves the blacklist in that same round. */
  lemma SuccessAfterBlacklistScenario(ds: DataSource, ok: string -> bool)
    requires ds.druid && ok("E")
    ensures var r := Round(Tracker(map["E" := 5], {ds}), map["E" := ds], 3, ok, ["E"]);
            r.counts == map["E" := 0] && r.blacklist == {}
  {
    var sources := map["E" := ds];
    var t := Tracker(map["E" := 5], {ds});
    assert ProbeableNames(sources) == {"E"};
    SuccessClearsSameRound(t, sources, 3, ok, ["E"], "E");
  }
}
