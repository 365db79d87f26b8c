/**
 Blacklist maintenance (`maintainBlacklist`): the per-name threshold decision and its
 effect on the registry's blacklist, folded over the tracker in the order the
 tracker's HashMap is iterated.
 */
module BlacklistPolicy {
  import opened Registry

  /** What maintenance does for one tracked name. */
  datatype Action = Remove | Add | Keep

  /** The decision for a name with counter `count`: remove when the count is at most 0,
      otherwise add when it has reached the threshold, otherwise leave membership alone.
      The first test wins, so with a threshold of 0 or less a zero count still removes. */
  function Decide(count: int, threshold: int): (a: Action)
    ensures a == Remove <==> count <= 0
    ensures a == Add <==> 0 < count && threshold <= count
    ensures a == Keep <==> 0 < count < threshold
  {
    if count <= 0 then Remove
    else if count >= threshold then Add
    else Keep
  }

  /** The blacklist after one decision about the handle `h` (null handles change nothing). */
  function Apply(blacklist: set<DataSource>, a: Action, h: Option<DataSource>): set<DataSource>
  {
    match (a, h)
    case (Remove, Some(ds)) => blacklist - {ds}
    case (Add, Some(ds)) => blacklist + {ds}
    case _ => blacklist
  }

  /** `order` lists every key of `keys` exactly once: one iteration order of the tracker. */
  predicate IsEnumeration(order: seq<string>, keys: set<string>)
  {
    && (forall i :: 0 <= i < |order| ==> order[i] in keys)
    && (forall k :: k in keys ==> k in order)
    && (forall i, j :: 0 <= i < j < |order| ==> order[i] != order[j])
  }

  /** Every name of `order` is tracked. */
  predicate AllTracked(order: seq<string>, counts: map<string, int>)
  {
    forall i :: 0 <= i < |order| ==> order[i] in counts
  }

  /** The DataSources the names of `order` are registered with. */
  function HandlesOf(order: seq<string>, sources: map<string, DataSource>): set<DataSource>
  {
    set i | 0 <= i < |order| && order[i] in sources :: sources[order[i]]
  }

  /** The DataSource `name` is registered with, as a set: empty for an unregistered name. */
  function BoundHandle(sources: map<string, DataSource>, name: string): set<DataSource>
  {
    if name in sources then {sources[name]} else {}
  }

  lemma HandlesOfSnoc(order: seq<string>, sources: map<string, DataSource>)
    requires order != []
    ensures HandlesOf(order, sources)
            == HandlesOf(order[..|order| - 1], sources) + BoundHandle(sources, order[|order| - 1])
  {
    var prefix := order[..|order| - 1];
    forall ds | ds in HandlesOf(order, sources)
      ensures ds in HandlesOf(prefix, sources) + BoundHandle(sources, order[|order| - 1])
    {
      var i :| 0 <= i < |order| && order[i] in sources && sources[order[i]] == ds;
      if i < |prefix| {
        assert prefix[i] == order[i];
      }
    }
    forall ds | ds in HandlesOf(prefix, sources)
      ensures ds in HandlesOf(order, sources)
    {
      var i :| 0 <= i < |prefix| && prefix[i] in sources && sources[prefix[i]] == ds;
      assert order[i] == prefix[i];
    }
  }

  /** The blacklist after maintenance has visited the names of `order`, in that order.
      Only DataSources bound to a visited name can change membership. */
  function Reconcile(blacklist: set<DataSource>, order: seq<string>, counts: map<string, int>,
                     sources: map<string, DataSource>, threshold: int): (r: set<DataSource>)
    requires AllTracked(order, counts)
    ensures r - HandlesOf(order, sources) == blacklist - HandlesOf(order, sources)
    decreases |order|
  {
    if order == [] then blacklist
    else
      var last := order[|order| - 1];
      var before := Reconcile(blacklist, order[..|order| - 1], counts, sources, threshold);
      var after := Apply(before, Decide(counts[last], threshold), Lookup(sources, last));
      HandlesOfSnoc(order, sources);
      var visited := HandlesOf(order[..|order| - 1], sources);
      assert forall ds :: ds !in visited ==> (ds in before - visited <==> ds in blacklist - visited);
      assert forall ds :: ds !in HandlesOf(order, sources) ==> ds !in visited && (ds in after <==> ds in before);
      assert after - HandlesOf(order, sources) == blacklist - HandlesOf(order, sources);
      after
  }

  /** Some name of `order` is registered with handle `h` and is decided `a`. */
  ghost predicate Decides(order: seq<string>, counts: map<string, int>, sources: map<string, DataSource>,
                          threshold: int, h: DataSource, a: Action)
    requires AllTracked(order, counts)
  {
    exists i :: 0 <= i < |order| && order[i] in sources && sources[order[i]] == h
                && Decide(counts[order[i]], threshold) == a
  }

  lemma DecidesSnoc(order: seq<string>, counts: map<string, int>, sources: map<string, DataSource>,
                    threshold: int, h: DataSource, a: Action)
    requires order != [] && AllTracked(order, counts)
    ensures AllTracked(order[..|order| - 1], counts)
    ensures Decides(order, counts, sources, threshold, h, a) <==>
            || Decides(order[..|order| - 1], counts, sources, threshold, h, a)
            || (var last := order[|order| - 1];
                last in sources && sources[last] == h && Decide(counts[last], threshold) == a)
  {
    var prefix := order[..|order| - 1];
    if Decides(order, counts, sources, threshold, h, a) {
      var i :| 0 <= i < |order| && order[i] in sources && sources[order[i]] == h
               && Decide(counts[order[i]], threshold) == a;
      if i < |prefix| {
        assert prefix[i] == order[i];
      }
    }
    if Decides(prefix, counts, sources, threshold, h, a) {
      var i :| 0 <= i < |prefix| && prefix[i] in sources && sources[prefix[i]] == h
               && Decide(counts[prefix[i]], threshold) == a;
      assert order[i] == prefix[i];
    }
  }

  /** Membership of a handle after maintenance, whatever the iteration order: it leaves
      the blacklist when some name bound to it decides Remove and none decides Add, it
      enters when some name decides Add and none Remove, and it keeps its membership when
      no name bound to it decides either. (Only when two names share one handle and
      disagree does the order matter; see OrderMattersForSharedHandle.) */
  lemma {:induction false} ReconcileMembership(blacklist: set<DataSource>, order: seq<string>,
                                               counts: map<string, int>, sources: map<string, DataSource>,
                                               threshold: int, h: DataSource)
    requires AllTracked(order, counts)
    ensures var r := Reconcile(blacklist, order, counts, sources, threshold);
            && ((Decides(order, counts, sources, threshold, h, Remove)
                 && !Decides(order, counts, sources, threshold, h, Add)) ==> h !in r)
            && ((Decides(order, counts, sources, threshold, h, Add)
                 && !Decides(order, counts, sources, threshold, h, Remove)) ==> h in r)
            && ((!Decides(order, counts, sources, threshold, h, Add)
                 && !Decides(order, counts, sources, threshold, h, Remove)) ==> (h in r <==> h in blacklist))
    decreases |order|
  {
    if order != [] {
      var prefix := order[..|order| - 1];
      DecidesSnoc(order, counts, sources, threshold, h, Add);
      DecidesSnoc(order, counts, sources, threshold, h, Remove);
      ReconcileMembership(blacklist, prefix, counts, sources, threshold, h);
    }
  }

  /** No two tracked names that are still registered share one DataSource. */
  ghost predicate DistinctHandles(sources: map<string, DataSource>, names: set<string>)
  {
    forall a, b :: a in names && b in names && a in sources && b in sources && sources[a] == sources[b] ==> a == b
  }

  /** Maintenance, name by name, when registered names have distinct DataSources: a tracked
      name with count at most 0 is off the blacklist, one whose count has reached the
      threshold is on it, and one in between keeps the membership it had. */
  lemma MaintenancePerName(blacklist: set<DataSource>, order: seq<string>, counts: map<string, int>,
                           sources: map<string, DataSource>, threshold: int, name: string)
    requires IsEnumeration(order, counts.Keys)
    requires DistinctHandles(sources, counts.Keys)
    requires name in counts && name in sources
    ensures AllTracked(order, counts)
    ensures var r := Reconcile(blacklist, order, counts, sources, threshold);
            && (counts[name] <= 0 ==> sources[name] !in r)
            && (0 < counts[name] && threshold <= counts[name] ==> sources[name] in r)
            && (0 < counts[name] < threshold ==> (sources[name] in r <==> sources[name] in blacklist))
  {
    var h := sources[name];
    var mine := Decide(counts[name], threshold);
    var k :| 0 <= k < |order| && order[k] == name;
    assert Decides(order, counts, sources, threshold, h, mine);
    ReconcileMembership(blacklist, order, counts, sources, threshold, h);
  }

  /** Membership of a handle after maintenance in general: when `j` is the last position of
      `order` whose name is bound to `h` and decides Remove or Add, that decision is the
      outcome, whatever came before it. */
  lemma {:induction false} LastDecisionWins(blacklist: set<DataSource>, order: seq<string>,
                                            counts: map<string, int>, sources: map<string, DataSource>,
                                            threshold: int, h: DataSource, j: nat)
    requires AllTracked(order, counts)
    requires j < |order| && order[j] in sources && sources[order[j]] == h
    requires Decide(counts[order[j]], threshold) != Keep
    requires forall k :: j < k < |order| && order[k] in sources && sources[order[k]] == h
                         ==> Decide(counts[order[k]], threshold) == Keep
    ensures h in Reconcile(blacklist, order, counts, sources, threshold)
            <==> Decide(counts[order[j]], threshold) == Add
    decreases |order|
  {
    var prefix := order[..|order| - 1];
    if j < |order| - 1 {
      assert prefix[j] == order[j];
      forall k | j < k < |prefix| && prefix[k] in sources && sources[prefix[k]] == h
        ensures Decide(counts[prefix[k]], threshold) == Keep
      {
        assert prefix[k] == order[k];
      }
      LastDecisionWins(blacklist, prefix, counts, sources, threshold, h, j);
    }
  }

  /** An instance of LastDecisionWins: when two tracked names share one DataSource and
      disagree, the name visited last wins, so the same counters give different blacklists
      under the two iteration orders. */
  lemma OrderMattersForSharedHandle(ds: DataSource)
    ensures var sources := map["a" := ds, "b" := ds];
            var counts := map["a" := 0, "b" := 5];
            && ds in Reconcile({}, ["a", "b"], counts, sources, 3)
            && ds !in Reconcile({ds}, ["b", "a"], counts, sources, 3)
  {
    var sources := map["a" := ds, "b" := ds];
    var counts := map["a" := 0, "b" := 5];
    assert ["a", "b"][..1] == ["a"];
    assert ["b", "a"][..1] == ["b"];
    assert ["a"][..0] == [] && ["b"][..0] == [];
  }
}
