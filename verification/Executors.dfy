/** The three executors over their in-memory states, and the rollbacks over the same states. */
module Executors {
  import opened Options
  import opened Devices
  import Json

  /* ---------- The idempotency store ---------- */

  class IdempotencyStore {
    var results: Memo<string>

    constructor ()
      ensures results == map[]
    {
      results := map[];
    }

    method Remember(key: string, result: ActionResult)
      modifies this
      ensures results == old(results)[key := result]
    {
      results := results[key := result];
    }
  }

  /* ---------- isolate_kubernetes_workload ---------- */

  /** `target.split('/')[-1]`. */
  function LastSegment(target: string): string {
    if target == "" then ""
    else if '/' !in target then target
    else LastSegment(target[1..])
  }

  /** The text after the last slash. */
  lemma {:induction false} LastSegmentIs(before: string, segment: string)
    requires '/' !in segment
    ensures LastSegment(segment) == segment
    ensures LastSegment(before + "/" + segment) == segment
  {
    var t := before + "/" + segment;
    if before == "" {
      assert t == "/" + segment && t[1..] == segment;
      assert '/' in t;
    } else {
      LastSegmentIs(before[1..], segment);
      assert t[1..] == before[1..] + "/" + segment;
      assert t[|before|] == '/';
    }
  }

  function PolicyName(target: string): string {
    "ciliumnetworkpolicy/" + LastSegment(target) + "-isolate"
  }

  type Isolated = map<string, string>

  class FakeClusterState {
    var isolated: Isolated

    constructor ()
      ensures isolated == map[]
    {
      isolated := map[];
    }

    method ApplyIsolation(target: string) returns (policy: string)
      modifies this
      ensures policy == PolicyName(target) && isolated == old(isolated)[target := policy]
    {
      policy := PolicyName(target);
      isolated := isolated[target := policy];
    }

    method RemoveIsolation(target: string)
      modifies this
      ensures isolated == old(isolated) - {target}
    {
      isolated := isolated - {target};
    }

    predicate IsIsolated(target: string)
      reads this
    {
      target in isolated
    }
  }

  function IsolatedDetail(target: string): string { "aislamiento confirmado para " + target }

  function RevertedDetail(wasIsolated: bool, target: string): string {
    if wasIsolated then "aislamiento revertido para " + target else "no hab\U{ed}a aislamiento que revertir"
  }

  function UndoneDetail(s: Isolated, target: string): string { RevertedDetail(target in s, target) }

  const CLUSTER: Device<Isolated, Option<string>> := Device(
    "kubernetes-executor",
    (s: Isolated, t: string) => s[t := PolicyName(t)],
    (t: string) => [PolicyName(t)],
    (s: Isolated, t: string) => s - {t},
    (s: Isolated, t: string) => if t in s then [s[t]] else [],
    (s: Isolated, t: string) => if t in s then Some(s[t]) else None,
    (s: Isolated, t: string) => None,
    (t: string) => Some(PolicyName(t)),
    IsolatedDetail,
    UndoneDetail)

  /* ---------- scale_to_zero and increase_monitoring ---------- */

  /** target -> (original, current). */
  type Levels<V> = map<string, (V, V)>

  function Level<V>(levels: Levels<V>, default: V, target: string): (V, V) {
    if target in levels then levels[target] else (default, default)
  }

  /** A map of levels in which an operation forces the current level and remembers the original; `done` and
      `undone` word the result's detail, the latter given whether there was anything to undo and the original. */
  function LevelDevice<V(==, !new)>(producer: string, default: V, forced: V, done: string -> string,
                                    undone: (bool, V, string) -> string): Device<Levels<V>, V> {
    Device(
      producer,
      (s: Levels<V>, t: string) => s[t := (Level(s, default, t).0, forced)],
      (t: string) => [t],
      (s: Levels<V>, t: string) => s[t := (Level(s, default, t).0, Level(s, default, t).0)],
      (s: Levels<V>, t: string) => if Level(s, default, t).1 == forced then [t] else [],
      (s: Levels<V>, t: string) => Level(s, default, t).1,
      (s: Levels<V>, t: string) => Level(s, default, t).0,
      (t: string) => forced,
      done,
      (s: Levels<V>, t: string) => undone(Level(s, default, t).1 == forced, Level(s, default, t).0, t))
  }

  function ScaledDetail(target: string): string { "r\U{e9}plicas en 0 para " + target }

  function RestoredDetail(wasScaledDown: bool, original: int, target: string): string {
    if wasScaledDown then "r\U{e9}plicas restauradas a " + Json.Decimal(original) + " para " + target
    else "no hab\U{ed}a escalado a cero que revertir"
  }

  const REPLICAS := LevelDevice<int>("scale-to-zero-executor", 1, 0, ScaledDetail, RestoredDetail)

  const NORMAL := "normal"
  const VERBOSE := "verbose"

  function RaisedDetail(target: string): string { "verbosidad elevada a 'verbose' para " + target }

  function LoweredDetail(wasIncreased: bool, original: string, target: string): string {
    if wasIncreased then "verbosidad restaurada a '" + original + "' para " + target
    else "no hab\U{ed}a verbosidad elevada que revertir"
  }

  const MONITORING :=
    LevelDevice<string>("increase-monitoring-executor", NORMAL, VERBOSE, RaisedDetail, LoweredDetail)

  class FakeReplicaState {
    var replicas: Levels<int>

    constructor ()
      ensures replicas == map[]
    {
      replicas := map[];
    }

    method ScaleToZero(target: string) returns (original: int)
      modifies this
      ensures original == Level(old(replicas), 1, target).0
      ensures replicas == old(replicas)[target := (original, 0)]
    {
      original := Level(replicas, 1, target).0;
      replicas := replicas[target := (original, 0)];
    }

    function CurrentReplicas(target: string): int
      reads this
    {
      Level(replicas, 1, target).1
    }

    function OriginalReplicas(target: string): int
      reads this
    {
      Level(replicas, 1, target).0
    }
  }

  class FakeMonitoringState {
    var levels: Levels<string>

    constructor ()
      ensures levels == map[]
    {
      levels := map[];
    }

    method IncreaseMonitoring(target: string) returns (original: string)
      modifies this
      ensures original == Level(old(levels), NORMAL, target).0
      ensures levels == old(levels)[target := (original, VERBOSE)]
    {
      original := Level(levels, NORMAL, target).0;
      levels := levels[target := (original, VERBOSE)];
    }

    function CurrentLevel(target: string): string
      reads this
    {
      Level(levels, NORMAL, target).1
    }

    function OriginalLevel(target: string): string
      reads this
    {
      Level(levels, NORMAL, target).0
    }
  }

  /** The theorems of `Devices` hold of the three states. */
  lemma AllLawful()
    ensures Lawful(CLUSTER) && Lawful(REPLICAS) && Lawful(MONITORING)
  {
    ClusterLawful();
    LevelDeviceLawful("scale-to-zero-executor", 1, 0, ScaledDetail, RestoredDetail);
    LevelDeviceLawful("increase-monitoring-executor", NORMAL, VERBOSE, RaisedDetail, LoweredDetail);
  }

  lemma ClusterLawful()
    ensures Lawful(CLUSTER)
  {}

  lemma LevelDeviceLawful<V(!new)>(producer: string, default: V, forced: V, done: string -> string,
                                   undone: (bool, V, string) -> string)
    ensures Lawful(LevelDevice(producer, default, forced, done, undone))
  {}

  /** A workload whose own replica count is zero: its rollback claims a change though nothing changes. */
  lemma ZeroReplicasMisreported<K>(c: Call<K>)
    requires c.op == Rollback && c.valid
    ensures
      var s: Levels<int> := map[c.target := (0, 0)];
      && Pristine(REPLICAS, s)
      && Invoke(REPLICAS, s, map[], c).2.Returned?
      && !ReportIsTrue(REPLICAS, s, map[], c)
      && Invoke(REPLICAS, s, map[], c).0 == s
  {}

  /** The result of a rollback: the call's ids, key and times, never dry, with these changes and this detail. */
  predicate OwnRollback<K>(r: ActionResult, c: Call<K>, producer: string, changed: seq<string>, detail: string) {
    var (p, m) := (r.payload, c.meta);
    && r.id == m.id && r.observedAt == m.observedAt && r.runId == m.runId && r.producer == producer && r.hashed == p
    && p.actionId == m.actionId && p.idempotencyKey == c.key && p.startedAt == m.startedAt && p.endedAt == m.endedAt
    && !p.dryRun && p.status == "succeeded" && p.passed && p.rollbackRef == None
    && p.changedResources == changed && p.detail == detail
  }

  lemma IsolationRolledBack<K>(s: Isolated, c: Call<K>)
    requires c.op == Rollback
    ensures OwnRollback(ResultOf(CLUSTER, s, c), c, "kubernetes-executor-rollback",
                        if c.target in s then [s[c.target]] else [],
                        if c.target in s then "aislamiento revertido para " + c.target
                        else "no hab\U{ed}a aislamiento que revertir")
  {
    assert "kubernetes-executor" + "-rollback" == "kubernetes-executor-rollback";
  }

  lemma ScalingRolledBack<K>(s: Levels<int>, c: Call<K>)
    requires c.op == Rollback
    ensures
      var (original, current) := if c.target in s then s[c.target] else (1, 1);
      OwnRollback(ResultOf(REPLICAS, s, c), c, "scale-to-zero-executor-rollback",
                  if current == 0 then [c.target] else [],
                  if current == 0 then "r\U{e9}plicas restauradas a " + Json.Decimal(original) + " para " + c.target
                  else "no hab\U{ed}a escalado a cero que revertir")
  {
    assert "scale-to-zero-executor" + "-rollback" == "scale-to-zero-executor-rollback";
  }

  lemma MonitoringRolledBack<K>(s: Levels<string>, c: Call<K>)
    requires c.op == Rollback
    ensures
      var (original, current) := if c.target in s then s[c.target] else ("normal", "normal");
      OwnRollback(ResultOf(MONITORING, s, c), c, "increase-monitoring-executor-rollback",
                  if current == "verbose" then [c.target] else [],
                  if current == "verbose" then "verbosidad restaurada a '" + original + "' para " + c.target
                  else "no hab\U{ed}a verbosidad elevada que revertir")
  {
    assert "increase-monitoring-executor" + "-rollback" == "increase-monitoring-executor-rollback";
  }

  /** Scale down, roll back, scale down again, and repeat the rollback with its old key. */
  function RepeatedRollback(t: string): (r: seq<Call<string>>)
    ensures |r| == 4
  {
    var call := (op: Op, key: string) => Call(op, t, key, Some(key), Meta("", "", "", "", "", ""), true);
    [call(Forward(false), "k1"), call(Rollback, "k2"), call(Forward(false), "k3"), call(Rollback, "k2")]
  }

  /** The repeated rollback returns its old report of a change, and the target stays scaled to zero. */
  lemma RepeatedRollbackMisreported(t: string)
    ensures
      var calls := RepeatedRollback(t);
      var (s, memo, _) := Run(REPLICAS, map[], map[], calls[..3]);
      && Pristine(REPLICAS, map[]) && REPLICAS.original(s, t) == 1
      && Invoke(REPLICAS, s, memo, calls[3]).2.Returned?
      && !ReportIsTrue(REPLICAS, s, memo, calls[3])
      && REPLICAS.current(Invoke(REPLICAS, s, memo, calls[3]).0, t) == 0
  {
    var calls := RepeatedRollback(t);
    assert "k1"[1] == '1' && "k2"[1] == '2' && "k3"[1] == '3';
    var (s1, m1, r1) := Invoke(REPLICAS, map[], map[], calls[0]);
    var (s2, m2, r2) := Invoke(REPLICAS, s1, m1, calls[1]);
    var (s3, m3, r3) := Invoke(REPLICAS, s2, m2, calls[2]);
    assert calls[..3] == [calls[0], calls[1], calls[2]];
    RunThree(REPLICAS, map[], map[], calls[0], calls[1], calls[2]);
  }

  /* ---------- The executors ---------- */

  /** Arguments shared by the executor methods; `valid` says whether the result passes the action-result schema. */
  datatype Args = Args(target: string, key: string, meta: Meta, valid: bool)

  function CallFor(op: Op, a: Args, ownStore: bool): Call<string> {
    Call(op, a.target, a.key, if ownStore then None else Some(a.key), a.meta, a.valid)
  }

  class KubernetesExecutor {
    const cluster: FakeClusterState
    const idempotency: IdempotencyStore

    constructor (cluster: FakeClusterState, idempotency: IdempotencyStore)
      ensures this.cluster == cluster && this.idempotency == idempotency
    {
      this.cluster := cluster;
      this.idempotency := idempotency;
    }

    method IsolateWorkload(a: Args, dryRun: bool) returns (reply: Reply)
      modifies cluster, idempotency
      ensures (cluster.isolated, idempotency.results, reply)
           == Invoke(CLUSTER, old(cluster.isolated), old(idempotency.results), CallFor(Forward(dryRun), a, false))
    {
      if a.key in idempotency.results {
        return Returned(idempotency.results[a.key]);
      }
      var changed := [];
      if !dryRun {
        var policy := cluster.ApplyIsolation(a.target);
        changed := [policy];
      }
      var result := MakeResult("kubernetes-executor", a.key, a.meta, dryRun, changed,
                               dryRun || cluster.IsIsolated(a.target),
                               if dryRun then DRY_DETAIL else IsolatedDetail(a.target));
      if !a.valid {
        return InvalidActionResult;
      }
      idempotency.Remember(a.key, result);
      return Returned(result);
    }
  }

  class ScaleToZeroExecutor {
    const state: FakeReplicaState
    const idempotency: IdempotencyStore

    constructor (state: FakeReplicaState, idempotency: IdempotencyStore)
      ensures this.state == state && this.idempotency == idempotency
    {
      this.state := state;
      this.idempotency := idempotency;
    }

    method ScaleToZero(a: Args, dryRun: bool) returns (reply: Reply)
      modifies state, idempotency
      ensures (state.replicas, idempotency.results, reply)
           == Invoke(REPLICAS, old(state.replicas), old(idempotency.results), CallFor(Forward(dryRun), a, false))
    {
      if a.key in idempotency.results {
        return Returned(idempotency.results[a.key]);
      }
      var changed := [];
      if !dryRun {
        var _ := state.ScaleToZero(a.target);
        changed := [a.target];
      }
      var result := MakeResult("scale-to-zero-executor", a.key, a.meta, dryRun, changed,
                               dryRun || state.CurrentReplicas(a.target) == 0,
                               if dryRun then DRY_DETAIL else ScaledDetail(a.target));
      if !a.valid {
        return InvalidActionResult;
      }
      idempotency.Remember(a.key, result);
      return Returned(result);
    }
  }

  class IncreaseMonitoringExecutor {
    const state: FakeMonitoringState
    const idempotency: IdempotencyStore

    constructor (state: FakeMonitoringState, idempotency: IdempotencyStore)
      ensures this.state == state && this.idempotency == idempotency
    {
      this.state := state;
      this.idempotency := idempotency;
    }

    method IncreaseMonitoring(a: Args, dryRun: bool) returns (reply: Reply)
      modifies state, idempotency
      ensures (state.levels, idempotency.results, reply)
           == Invoke(MONITORING, old(state.levels), old(idempotency.results), CallFor(Forward(dryRun), a, false))
    {
      if a.key in idempotency.results {
        return Returned(idempotency.results[a.key]);
      }
      var changed := [];
      if !dryRun {
        var _ := state.IncreaseMonitoring(a.target);
        changed := [a.target];
      }
      var result := MakeResult("increase-monitoring-executor", a.key, a.meta, dryRun, changed,
                               dryRun || state.CurrentLevel(a.target) == VERBOSE,
                               if dryRun then DRY_DETAIL else RaisedDetail(a.target));
      if !a.valid {
        return InvalidActionResult;
      }
      idempotency.Remember(a.key, result);
      return Returned(result);
    }
  }

  /* ---------- The rollbacks ---------- */

  method RollbackIsolation(cluster: FakeClusterState, idempotency: IdempotencyStore?, a: Args) returns (reply: Reply)
    modifies cluster, if idempotency == null then {} else {idempotency}
    ensures idempotency == null ==>
      (cluster.isolated, map[], reply) == Invoke(CLUSTER, old(cluster.isolated), map[], CallFor(Rollback, a, true))
    ensures idempotency != null ==>
      (cluster.isolated, idempotency.results, reply)
        == Invoke(CLUSTER, old(cluster.isolated), old(idempotency.results), CallFor(Rollback, a, false))
  {
    if idempotency != null && a.key in idempotency.results {
      return Returned(idempotency.results[a.key]);
    }
    var wasIsolated := cluster.IsIsolated(a.target);
    var changed := [];
    if wasIsolated {
      changed := [cluster.isolated[a.target]];
      cluster.RemoveIsolation(a.target);
    }
    assert cluster.isolated == old(cluster.isolated) - {a.target};
    assert "kubernetes-executor" + "-rollback" == "kubernetes-executor-rollback";
    var result := MakeResult("kubernetes-executor-rollback", a.key, a.meta, false, changed,
                             !cluster.IsIsolated(a.target), RevertedDetail(wasIsolated, a.target));
    if !a.valid {
      return InvalidActionResult;
    }
    if idempotency != null {
      idempotency.Remember(a.key, result);
    }
    return Returned(result);
  }

  method RollbackScaleToZero(state: FakeReplicaState, idempotency: IdempotencyStore?, a: Args) returns (reply: Reply)
    modifies state, if idempotency == null then {} else {idempotency}
    ensures idempotency == null ==>
      (state.replicas, map[], reply) == Invoke(REPLICAS, old(state.replicas), map[], CallFor(Rollback, a, true))
    ensures idempotency != null ==>
      (state.replicas, idempotency.results, reply)
        == Invoke(REPLICAS, old(state.replicas), old(idempotency.results), CallFor(Rollback, a, false))
  {
    if idempotency != null && a.key in idempotency.results {
      return Returned(idempotency.results[a.key]);
    }
    var original := state.OriginalReplicas(a.target);
    var wasScaledDown := state.CurrentReplicas(a.target) == 0;
    state.replicas := state.replicas[a.target := (original, original)];
    assert "scale-to-zero-executor" + "-rollback" == "scale-to-zero-executor-rollback";
    var result := MakeResult("scale-to-zero-executor-rollback", a.key, a.meta, false,
                             if wasScaledDown then [a.target] else [], state.CurrentReplicas(a.target) == original,
                             RestoredDetail(wasScaledDown, original, a.target));
    if !a.valid {
      return InvalidActionResult;
    }
    if idempotency != null {
      idempotency.Remember(a.key, result);
    }
    return Returned(result);
  }

  method RollbackIncreaseMonitoring(state: FakeMonitoringState, idempotency: IdempotencyStore?, a: Args)
      returns (reply: Reply)
    modifies state, if idempotency == null then {} else {idempotency}
    ensures idempotency == null ==>
      (state.levels, map[], reply) == Invoke(MONITORING, old(state.levels), map[], CallFor(Rollback, a, true))
    ensures idempotency != null ==>
      (state.levels, idempotency.results, reply)
        == Invoke(MONITORING, old(state.levels), old(idempotency.results), CallFor(Rollback, a, false))
  {
    if idempotency != null && a.key in idempotency.results {
      return Returned(idempotency.results[a.key]);
    }
    var original := state.OriginalLevel(a.target);
    var wasIncreased := state.CurrentLevel(a.target) == VERBOSE;
    state.levels := state.levels[a.target := (original, original)];
    assert "increase-monitoring-executor" + "-rollback" == "increase-monitoring-executor-rollback";
    var result := MakeResult("increase-monitoring-executor-rollback", a.key, a.meta, false,
                             if wasIncreased then [a.target] else [], state.CurrentLevel(a.target) == original,
                             LoweredDetail(wasIncreased, original, a.target));
    if !a.valid {
      return InvalidActionResult;
    }
    if idempotency != null {
      idempotency.Remember(a.key, result);
    }
    return Returned(result);
  }
}
