# Druid HA data-source validation: the probe-and-blacklist state machine

This project models the health-check thread `RandomDataSourceValidateThread` of Druid's
high-availability data source. Each round it probes every `DruidDataSource` the
`RandomDataSourceSelector` has registered. It keeps one consecutive-failure counter per
name in `errorCounts`. A successful probe resets the counter to 0. A failed probe adds 1,
and a missing entry counts as 0. After the probes, it walks every counter. A name whose
counter is at most 0 is taken off the selector's blacklist. A name whose counter has
reached `blacklistThreshold` (3 by default) is put on it. A name in between is left alone.

Layout:

- `registry.dfy` (module `Registry`): a registered `DataSource` is a value. It has an
  identity and a flag saying whether it is a `DruidDataSource`. The selector is a class
  holding the name-to-DataSource map and the blacklist. It has `AddBlacklist` and
  `RemoveBlacklist`.
- `tracker.dfy` (module `FailureTracker`): the counters as a `map<string, int>`.
  `AfterProbes` is the effect of one probe phase, and the lemmas state what that phase does.
- `blacklist.dfy` (module `BlacklistPolicy`): the threshold decision and `Reconcile`. That
  function gives the blacklist after maintenance has visited the tracked names in a given
  order. The lemmas state the outcome per DataSource and per name.
- `rounds.dfy` (module `Rounds`): one round and a finite sequence of rounds as functions.
  Two scenarios are proved about them: at threshold 3, three failures blacklist an endpoint
  only after the third round; and a blacklisted endpoint with counter 5 whose probe
  succeeds is reset and removed in that same round.
- `validator.dfy` (module `Validator`): the thread as a class. `errorCounts` and
  `blacklistThreshold` are fields. The two phases are loops proved against the
  functions above.
- `probe.dfy` (module `Probe`): the shape of `check`. It gives the verdict and whether
  the connection was released.
- `int32_counter.dfy` (module `Int32Counter`): the Java `int` wrap-around of the counter
  (see Findings).

Modelling choices:

- The probe verdicts of a round are a parameter `probe: string -> bool`. The JDBC calls
  behind them are foreign I/O.
- The HashMap that `maintainBlacklist` iterates has no specified order. That order matters
  when two names share one DataSource and disagree, so `MaintainBlacklist` takes the
  order as a parameter `order`, a sequence that lists each tracked name once.
  `checkAllDataSources` gives the same result in every order, so its loop picks the next
  name nondeterministically.
- `dataSourceMap.get(name)` yields null for a name that is no longer registered. The
  selector's source is not part of this model. Its `addBlacklist` and `removeBlacklist`
  are modelled as set insertion and removal that do nothing for a null handle.
- Counters are unbounded integers. The source uses a Java `int`; see Findings.

## Model

| member | source | states |
|---|---|---|
| `Registry.Lookup` | src/main/java/com/alibaba/druid/pool/ha/selector/RandomDataSourceValidateThread.java:52 | the handle for a name is null exactly when the name is not registered, and otherwise is the DataSource it is registered with (`dataSourceMap.get`) |
| `FailureTracker.ProbedCount` | src/main/java/com/alibaba/druid/pool/ha/selector/RandomDataSourceValidateThread.java:68-75 | a success gives exactly 0; a failure gives exactly the previous counter plus 1 (missing counts as 0); a non-negative counter stays non-negative |
| `FailureTracker.AfterProbes` | src/main/java/com/alibaba/druid/pool/ha/selector/RandomDataSourceValidateThread.java:60-78 | after the probe phase the keys are the old keys plus the Druid-backed names, each Druid-backed name carries its probed count, and every other entry is unchanged |
| `BlacklistPolicy.Decide` | src/main/java/com/alibaba/druid/pool/ha/selector/RandomDataSourceValidateThread.java:51-56 | remove exactly when the count is at most 0, add exactly when 0 < count and count is at least the threshold, keep exactly when 0 < count < threshold |
| `BlacklistPolicy.Reconcile` | src/main/java/com/alibaba/druid/pool/ha/selector/RandomDataSourceValidateThread.java:48-58 | maintenance in a given order changes the membership only of DataSources bound to a visited name |
| `BlacklistPolicy.LastDecisionWins` | src/main/java/com/alibaba/druid/pool/ha/selector/RandomDataSourceValidateThread.java:50-56 | for any order, the last visited name bound to a DataSource that decides remove or add fixes its membership: on the blacklist exactly when that decision is add |
| `Rounds.Round` | src/main/java/com/alibaba/druid/pool/ha/selector/RandomDataSourceValidateThread.java:36-38 | one round tracks the old names plus the Druid-backed ones, keeps counters non-negative, and changes the membership only of DataSources bound to a tracked name |
| `Int32Counter.JavaIncrement` | src/main/java/com/alibaba/druid/pool/ha/selector/RandomDataSourceValidateThread.java:75 | the Java `count + 1` is exactly count + 1 below the largest `int`, and exactly the smallest `int` (-2147483648) at the largest |
| `FailureTracker.SuccessResets` | src/main/java/com/alibaba/druid/pool/ha/selector/RandomDataSourceValidateThread.java:68-69 | after a successful probe of a Druid-backed name its counter exists and is exactly 0, whatever it was before |
| `FailureTracker.FailureIncrements` | src/main/java/com/alibaba/druid/pool/ha/selector/RandomDataSourceValidateThread.java:70-75 | after a failed probe the counter is the previous one plus 1, a missing entry counting as 0, so a first failure gives 1 |
| `FailureTracker.NonProbeableUntouched` | src/main/java/com/alibaba/druid/pool/ha/selector/RandomDataSourceValidateThread.java:62-65 | a name not bound to a DruidDataSource gets no new entry and keeps its existing one unchanged |
| `FailureTracker.ProbeKeys` | src/main/java/com/alibaba/druid/pool/ha/selector/RandomDataSourceValidateThread.java:62-77 | the probe phase deletes no entry; the new key set is the old one plus exactly the Druid-backed names |
| `FailureTracker.ProbeStep` | src/main/java/com/alibaba/druid/pool/ha/selector/RandomDataSourceValidateThread.java:63-76 | visiting one more name gives a Druid-backed name its probed count, computed from the counter it still has, and changes nothing for any other name |
| `FailureTracker.ProbeStepLocal` | src/main/java/com/alibaba/druid/pool/ha/selector/RandomDataSourceValidateThread.java:66-76 | probing one name leaves every other name's entry (present or absent) as it was |
| `FailureTracker.ProbesKeepNonNegative` | src/main/java/com/alibaba/druid/pool/ha/selector/RandomDataSourceValidateThread.java:69-75 | counters that are all non-negative stay non-negative: they are only set to 0 or incremented |
| `FailureTracker.ConsecutiveFailures` | src/main/java/com/alibaba/druid/pool/ha/selector/RandomDataSourceValidateThread.java:70-75 | N rounds in which a Druid-backed name fails add exactly N to its counter |
| `BlacklistPolicy.ReconcileMembership` | src/main/java/com/alibaba/druid/pool/ha/selector/RandomDataSourceValidateThread.java:48-58 | in any iteration order, a DataSource leaves the blacklist when a name bound to it decides remove and none add, enters when one decides add and none remove, and keeps its membership when none decides either |
| `BlacklistPolicy.MaintenancePerName` | src/main/java/com/alibaba/druid/pool/ha/selector/RandomDataSourceValidateThread.java:50-56 | with distinct DataSources per name: count at most 0 means off the blacklist, 0 < count and count at least the threshold means on it, 0 < count < threshold means membership as before |
| `BlacklistPolicy.OrderMattersForSharedHandle` | src/main/java/com/alibaba/druid/pool/ha/selector/RandomDataSourceValidateThread.java:50-56 | two names sharing one DataSource with counts 0 and 5 leave it on or off the blacklist depending on which is visited last |
| `Rounds.RunRounds` | src/main/java/com/alibaba/druid/pool/ha/selector/RandomDataSourceValidateThread.java:35-39 | over successive rounds the tracked names only grow and stay within the initial ones plus the Druid-backed names, and the counters are those of the successive probe phases |
| `Rounds.SuccessClearsSameRound` | src/main/java/com/alibaba/druid/pool/ha/selector/RandomDataSourceValidateThread.java:36-38 | a round whose probe of a name succeeds leaves its counter 0 and its DataSource off the blacklist in that same round |
| `Rounds.FailuresReachThreshold` | src/main/java/com/alibaba/druid/pool/ha/selector/RandomDataSourceValidateThread.java:36-38 | from a fresh start, after k failing rounds the counter is k and the DataSource is blacklisted exactly when k has reached the threshold |
| `Rounds.BlacklistedIffReached` | src/main/java/com/alibaba/druid/pool/ha/selector/RandomDataSourceValidateThread.java:36-75 | from a fresh start, after any history of successes and failures, a Druid-backed name's DataSource (its own) is on the blacklist exactly when its counter has reached the threshold |
| `Rounds.NonDruidNeverBlacklisted` | src/main/java/com/alibaba/druid/pool/ha/selector/RandomDataSourceValidateThread.java:63-65 | a name bound to a non-Druid DataSource never gets a counter and its DataSource never enters the blacklist, over any number of rounds |
| `Rounds.OneFailingEndpoint` | src/main/java/com/alibaba/druid/pool/ha/selector/RandomDataSourceValidateThread.java:36-38 | one always-failing endpoint at threshold 3, from a fresh start: after k rounds its only counter is k and it is blacklisted exactly when k is at least 3 |
| `Rounds.ThreeFailuresScenario` | src/main/java/com/alibaba/druid/pool/ha/selector/RandomDataSourceValidateThread.java:36-38 | threshold 3, one endpoint failing from a fresh start: counters 1, 2, 3, and blacklisted after round 3, not before |
| `Rounds.SuccessAfterBlacklistScenario` | src/main/java/com/alibaba/druid/pool/ha/selector/RandomDataSourceValidateThread.java:68-69 | a blacklisted endpoint with counter 5 whose probe succeeds ends the round with counter 0 and an empty blacklist |
| `Registry.DataSourceSelector.AddBlacklist` | src/main/java/com/alibaba/druid/pool/ha/selector/RandomDataSourceValidateThread.java:55 | the handle passed is added to the blacklist (idempotently); a null handle changes nothing |
| `Registry.DataSourceSelector.RemoveBlacklist` | src/main/java/com/alibaba/druid/pool/ha/selector/RandomDataSourceValidateThread.java:52 | the handle passed is removed from the blacklist (idempotently); a null handle changes nothing |
| `Validator.RandomDataSourceValidateThread.constructor` | src/main/java/com/alibaba/druid/pool/ha/selector/RandomDataSourceValidateThread.java:23-31 | a new thread holds the given selector, no counters and threshold 3 |
| `Validator.RandomDataSourceValidateThread.SetBlacklistThreshold` | src/main/java/com/alibaba/druid/pool/ha/selector/RandomDataSourceValidateThread.java:111-113 | the threshold becomes the given value |
| `Validator.RandomDataSourceValidateThread.CheckAllDataSources` | src/main/java/com/alibaba/druid/pool/ha/selector/RandomDataSourceValidateThread.java:60-78 | the loop over the registry leaves `errorCounts` equal to `AfterProbes` of the old counters, in whatever order the map is walked, and keeps counters non-negative |
| `Validator.RandomDataSourceValidateThread.MaintainBlacklist` | src/main/java/com/alibaba/druid/pool/ha/selector/RandomDataSourceValidateThread.java:48-58 | the loop over the counters leaves the blacklist equal to `Reconcile` of the old one in the iteration order given |
| `Validator.RandomDataSourceValidateThread.RunRound` | src/main/java/com/alibaba/druid/pool/ha/selector/RandomDataSourceValidateThread.java:34-39 | with a selector, the probe phase and then maintenance: counters and blacklist become `Round` of the old ones; without one, nothing changes |
| `Probe.Check` | src/main/java/com/alibaba/druid/pool/ha/selector/RandomDataSourceValidateThread.java:80-105 | the verdict is healthy exactly when neither connecting nor validating threw an SQLException; the connection is released exactly when one was obtained; a failing close does not change the verdict |
| `Int32Counter.JavaIncrementAgreesBelowMax` | src/main/java/com/alibaba/druid/pool/ha/selector/RandomDataSourceValidateThread.java:74-75 | below the largest `int` the Java increment equals the unbounded one |
| `Int32Counter.WrapUnblacklistsFailingEndpoint` | src/main/java/com/alibaba/druid/pool/ha/selector/RandomDataSourceValidateThread.java:74-75 | at any threshold up to the largest `int`, the Java increment of the largest `int` is negative, flipping the decision from add to remove |
| `Int32Counter.IncrementKeepsBlacklisted` | src/main/java/com/alibaba/druid/pool/ha/selector/RandomDataSourceValidateThread.java:74-75 | with the unbounded increment a further failure raises the counter and a counter at or over the threshold stays due for the blacklist |

## Left out

- The endless `while (true)` loop of `run`, `Thread.sleep` and `sleepSeconds`, and the swallowed `InterruptedException` are thread pacing. A round and finite sequences of rounds are modelled instead.
- The JDBC calls in `check` (`driver.connect`, `validateConnection`, `conn.close`) are foreign I/O. Their outcomes are inputs of `Probe.Check`, and the thread takes each round's verdicts as `probe`.
- Exceptions other than `SQLException` are not modelled. `check` catches only `SQLException`, so a runtime exception from the driver would leave `check` and end the thread. The model treats every probe as returning a verdict.
- What `validateConnection` does with a null connection (a driver that does not accept the URL) belongs to DruidDataSource, which is not part of this model. `Probe.Check` lets the validation outcome decide the verdict.
- Logging (`LOG.warn`, `LOG.debug`, `LOG.error`) has no effect on state.
- `RandomDataSourceSelector` is not part of this model. It is reduced to a map and a set. Its handling of a null DataSource in `addBlacklist`/`removeBlacklist` is assumed to be a no-op.
- Concurrent changes to the registry or the blacklist by the selection layer are not modelled. Each phase reads the selector's state once, and nothing else writes to it during a round.
- `setSleepSeconds` is left out with the sleep it configures.
- FailureTracker.FailureIncrements holds because counters are unbounded; in the source a failure at 2147483647 yields -2147483648 (see Findings).
- FailureTracker.ConsecutiveFailures holds for any N because counters are unbounded; with the Java `int` it holds only up to 2^31 - 1 failures in a row.
- FailureTracker.ProbesKeepNonNegative holds because counters are unbounded; the Java `int` counter turns negative after 2^31 failures in a row.
- Validator.RandomDataSourceValidateThread.CheckAllDataSources keeps `Valid()` (non-negative counters) only because counters are unbounded; the same wrap-around applies.
- Rounds over several rounds (`Rounds.RunRounds`) assume one registry for all rounds and one iteration order for the tracker. The single-round members take any registry and any order.

## Findings

| source | as written | input that shows it | evidently intended | confidence | as-written member | corrected member |
|---|---|---|---|---|---|---|
| src/main/java/com/alibaba/druid/pool/ha/selector/RandomDataSourceValidateThread.java:74-75 | `errorCounts.put(name, count + 1)` on a Java `int`, which wraps from 2147483647 to -2147483648 | an endpoint whose probe fails 2^31 times in a row: its counter becomes -2147483648, the `<= 0` test holds and maintenance takes it off the blacklist while it is still down | the counter only grows while the endpoint fails, so it stays blacklisted | not executed; reaching it needs 2^31 consecutive failures | `Int32Counter.WrapUnblacklistsFailingEndpoint` | `Int32Counter.IncrementKeepsBlacklisted` |
