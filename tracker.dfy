/**
 The failure tracker: the per-name consecutive-failure counters (`errorCounts`) and
 the effect of one probe phase (`checkAllDataSources`) on them, as functions that the
 imperative loop in module Validator is proved against.
 */
module FailureTracker {
  import opened Registry

  /** The counter of `name`, an absent entry reading as 0. */
  function CountOf(counts: map<string, int>, name: string): int
  {
    if name in counts then counts[name] else 0
  }

  /** One more consecutive failure. Counters are unbounded integers here; the Java
      `int` counter wraps around (see module Int32Counter). */
  function Increment(count: int): int
  {
    count + 1
  }

  /** The counter of `name` after a probe of it with verdict `healthy`. */
  function ProbedCount(counts: map<string, int>, name: string, healthy: bool): (r: int)
    ensures healthy ==> r == 0
    ensures !healthy ==> r == CountOf(counts, name) + 1
    ensures CountOf(counts, name) >= 0 ==> r >= 0
  {
    if healthy then 0 else Increment(CountOf(counts, name))
  }

  /** The names of the registry that the probe phase visits: those bound to a DruidDataSource. */
  function ProbeableNames(sources: map<string, DataSource>): set<string>
  {
    set n | n in sources && sources[n].druid
  }

  /** The counters once the probe phase has visited the names in `done` (in any order):
      every probeable visited name carries its probed count, every other entry is as it was. */
  function ProbedUpTo(counts: map<string, int>, sources: map<string, DataSource>,
                      probe: string -> bool, done: set<string>): map<string, int>
  {
    var visited := ProbeableNames(sources) * done;
    map n | n in counts.Keys + visited ::
      if n in visited then ProbedCount(counts, n, probe(n)) else counts[n]
  }

  /** The counters after one whole probe phase over the registry `sources`, where
      `probe(n)` is this round's verdict for name `n`. */
  function AfterProbes(counts: map<string, int>, sources: map<string, DataSource>,
                       probe: string -> bool): (r: map<string, int>)
    ensures r.Keys == counts.Keys + ProbeableNames(sources)
    ensures forall n :: n in ProbeableNames(sources) ==> r[n] == ProbedCount(counts, n, probe(n))
    ensures forall n :: n in counts && n !in ProbeableNames(sources) ==> r[n] == counts[n]
  {
    ProbedUpTo(counts, sources, probe, sources.Keys)
  }

  /** All counters are non-negative. */
  ghost predicate NonNegative(counts: map<string, int>)
  {
    forall n :: n in counts ==> counts[n] >= 0
  }

  /** A successful probe resets the counter to exactly 0, whatever it was. */
  lemma SuccessResets(counts: map<string, int>, sources: map<string, DataSource>,
                      probe: string -> bool, name: string)
    requires name in sources && sources[name].druid && probe(name)
    ensures name in AfterProbes(counts, sources, probe)
    ensures AfterProbes(counts, sources, probe)[name] == 0
  {
  }

  /** A failed probe adds one to the counter, an absent entry counting as 0. */
  lemma FailureIncrements(counts: map<string, int>, sources: map<string, DataSource>,
                          probe: string -> bool, name: string)
    requires name in sources && sources[name].druid && !probe(name)
    ensures name in AfterProbes(counts, sources, probe)
    ensures AfterProbes(counts, sources, probe)[name] == CountOf(counts, name) + 1
    ensures name !in counts ==> AfterProbes(counts, sources, probe)[name] == 1
  {
  }

  /** A name that is not registered as a DruidDataSource is skipped: no entry is created
      for it and an existing one is left as it was. */
  lemma NonProbeableUntouched(counts: map<string, int>, sources: map<string, DataSource>,
                              probe: string -> bool, name: string)
    requires name !in ProbeableNames(sources)
    ensures name in AfterProbes(counts, sources, probe) <==> name in counts
    ensures name in counts ==> AfterProbes(counts, sources, probe)[name] == counts[name]
  {
  }

  /** The probe phase deletes no entry and creates entries only for probeable names. */
  lemma ProbeKeys(counts: map<string, int>, sources: map<string, DataSource>, probe: string -> bool)
    ensures AfterProbes(counts, sources, probe).Keys == counts.Keys + ProbeableNames(sources)
  {
  }

  /** Probing one more name changes that name's counter only: every other entry, present
      or absent, is as it was. */
  lemma ProbeStepLocal(counts: map<string, int>, sources: map<string, DataSource>, probe: string -> bool,
                       done: set<string>, name: string, other: string)
    requires other != name
    ensures var before := ProbedUpTo(counts, sources, probe, done);
            var after := ProbedUpTo(counts, sources, probe, done + {name});
            && (other in after <==> other in before)
            && (other in before ==> after[other] == before[other])
  {
  }

  /** Visiting one more name: a probeable name gets its probed count, computed from the
      counter it still has; any other name changes nothing. */
  lemma ProbeStep(counts: map<string, int>, sources: map<string, DataSource>, probe: string -> bool,
                  done: set<string>, name: string)
    requires name in sources && name !in done
    ensures var before := ProbedUpTo(counts, sources, probe, done);
            && CountOf(before, name) == CountOf(counts, name)
            && ProbedUpTo(counts, sources, probe, done + {name})
               == if sources[name].druid then before[name := ProbedCount(before, name, probe(name))] else before
  {
  }

  /** The probe phase keeps every counter non-negative. */
  lemma ProbesKeepNonNegative(counts: map<string, int>, sources: map<string, DataSource>,
                              probe: string -> bool)
    requires NonNegative(counts)
    ensures NonNegative(AfterProbes(counts, sources, probe))
  {
  }

  /** Counters of the probe phase over successive rounds against one registry. */
  function ProbeRounds(counts: map<string, int>, sources: map<string, DataSource>,
                       probes: seq<string -> bool>): map<string, int>
    decreases |probes|
  {
    if probes == [] then counts
    else AfterProbes(ProbeRounds(counts, sources, probes[..|probes| - 1]), sources, probes[|probes| - 1])
  }

  /** N consecutive failed probes of a probeable name add exactly N to its counter;
      from an absent entry (or after a success) the counter is then exactly N. */
  lemma {:induction false} ConsecutiveFailures(counts: map<string, int>, sources: map<string, DataSource>,
                                               probes: seq<string -> bool>, name: string)
    requires name in sources && sources[name].druid
    requires forall i :: 0 <= i < |probes| ==> !probes[i](name)
    ensures |probes| > 0 ==> name in ProbeRounds(counts, sources, probes)
    ensures CountOf(ProbeRounds(counts, sources, probes), name) == CountOf(counts, name) + |probes|
    decreases |probes|
  {
    if probes != [] {
      var prefix := probes[..|probes| - 1];
      ConsecutiveFailures(counts, sources, prefix, name);
      FailureIncrements(ProbeRounds(counts, sources, prefix), sources, probes[|probes| - 1], name);
    }
  }
}
