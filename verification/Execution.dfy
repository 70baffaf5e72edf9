/** From decision to effect: `execute_with_authorization`, with each tool name wired to its own executor. */
module Execution {
  import opened Options
  import opened Gateways
  import opened Executors
  import Devices

  const ISOLATE := "isolate_kubernetes_workload"
  const SCALE := "scale_to_zero"
  const MONITOR := "increase_monitoring"

  /** The states the executors act on and what their idempotency stores hold. */
  datatype World = World(
    isolated: Isolated,
    replicas: Levels<int>,
    levels: Levels<string>,
    isolateMemo: Devices.Memo<string>,
    scaleMemo: Devices.Memo<string>,
    monitorMemo: Devices.Memo<string>)

  /** The other arguments of one call; `valid` says whether the result will pass its schema. */
  datatype Extra = Extra(key: string, meta: Devices.Meta, valid: bool)

  function ArgsFor(req: Request, x: Extra): Args {
    Args(req.target, x.key, x.meta, x.valid)
  }

  /** The wired executor call; tools without an executor of their own touch nothing. */
  function RunExecutor(w: World, req: Request, x: Extra): (World, Option<Devices.Reply>) {
    var call := CallFor(Devices.Forward(req.action != "execute"), ArgsFor(req, x), false);
    if req.toolName == ISOLATE then
      var (s, memo, reply) := Devices.Invoke(CLUSTER, w.isolated, w.isolateMemo, call);
      (w.(isolated := s, isolateMemo := memo), Some(reply))
    else if req.toolName == SCALE then
      var (s, memo, reply) := Devices.Invoke(REPLICAS, w.replicas, w.scaleMemo, call);
      (w.(replicas := s, scaleMemo := memo), Some(reply))
    else if req.toolName == MONITOR then
      var (s, memo, reply) := Devices.Invoke(MONITORING, w.levels, w.monitorMemo, call);
      (w.(levels := s, monitorMemo := memo), Some(reply))
    else (w, None)
  }

  datatype Observation = Policy(name: Option<string>) | Replicas(count: int) | Verbosity(level: string) | Nothing

  /** What an observer sees of a tool's target. */
  function Observe(w: World, tool: string, target: string): Observation {
    if tool == ISOLATE then Policy(CLUSTER.current(w.isolated, target))
    else if tool == SCALE then Replicas(REPLICAS.current(w.replicas, target))
    else if tool == MONITOR then Verbosity(MONITORING.current(w.levels, target))
    else Nothing
  }

  /** One executor call changes at most what is seen of its own tool and target, and nothing when dry. */
  lemma RunExecutorIsLocal(w: World, req: Request, x: Extra, tool: string, target: string)
    requires Observe(RunExecutor(w, req, x).0, tool, target) != Observe(w, tool, target)
    ensures req.toolName == tool && req.target == target && req.action == "execute"
  {
    var call := CallFor(Devices.Forward(req.action != "execute"), ArgsFor(req, x), false);
    AllLawful();
    if tool == ISOLATE {
      if req.toolName == tool { Devices.InvokeIsLocal(CLUSTER, w.isolated, w.isolateMemo, call, target); }
    } else if tool == SCALE {
      if req.toolName == tool { Devices.InvokeIsLocal(REPLICAS, w.replicas, w.scaleMemo, call, target); }
    } else if tool == MONITOR {
      if req.toolName == tool { Devices.InvokeIsLocal(MONITORING, w.levels, w.monitorMemo, call, target); }
    }
  }

  /** What an observer sees of a target nobody has touched. */
  function Untouched(tool: string): Observation {
    if tool == "isolate_kubernetes_workload" then Policy(None)
    else if tool == "scale_to_zero" then Replicas(1)
    else if tool == "increase_monitoring" then Verbosity("normal")
    else Nothing
  }

  /** What a wired tool leaves of a target it acts on. */
  function Forced(tool: string, target: string): Observation {
    if tool == "isolate_kubernetes_workload"
    then Policy(Some("ciliumnetworkpolicy/" + LastSegment(target) + "-isolate"))
    else if tool == "scale_to_zero" then Replicas(0)
    else if tool == "increase_monitoring" then Verbosity("verbose")
    else Nothing
  }

  lemma UntouchedIsSeen(tool: string, target: string, w: World)
    requires w.isolated == map[] && w.replicas == map[] && w.levels == map[]
    ensures Observe(w, tool, target) == Untouched(tool)
  {}

  function MemoOf(w: World, tool: string): Devices.Memo<string> {
    if tool == ISOLATE then w.isolateMemo
    else if tool == SCALE then w.scaleMemo
    else if tool == MONITOR then w.monitorMemo
    else map[]
  }

  /** An `execute` with a key its executor has not answered does take effect; with an answered key it changes
      nothing at all. */
  lemma ExecuteTakesEffect(w: World, req: Request, x: Extra)
    requires req.action == "execute"
    ensures
      var w' := RunExecutor(w, req, x).0;
      if x.key in MemoOf(w, req.toolName) then w' == w
      else Observe(w', req.toolName, req.target) == Forced(req.toolName, req.target)
  {
    var call := CallFor(Devices.Forward(false), ArgsFor(req, x), false);
    AllLawful();
    if req.toolName == ISOLATE {
      Devices.InvokeForces(CLUSTER, w.isolated, w.isolateMemo, call);
    } else if req.toolName == SCALE {
      Devices.InvokeForces(REPLICAS, w.replicas, w.scaleMemo, call);
    } else if req.toolName == MONITOR {
      Devices.InvokeForces(MONITORING, w.levels, w.monitorMemo, call);
    }
  }

  predicate Wired(tool: string) {
    tool in {"isolate_kubernetes_workload", "scale_to_zero", "increase_monitoring"}
  }

  /** What a wired tool changes when it is not dry: the policy it applies, or the target. */
  function Changed(tool: string, target: string): seq<string> {
    if tool == "isolate_kubernetes_workload" then ["ciliumnetworkpolicy/" + LastSegment(target) + "-isolate"]
    else [target]
  }

  function ProducerOf(tool: string): string {
    if tool == "isolate_kubernetes_workload" then "kubernetes-executor"
    else if tool == "scale_to_zero" then "scale-to-zero-executor"
    else "increase-monitoring-executor"
  }

  function DetailOf(tool: string, target: string, dry: bool): string {
    if dry then "dry-run: sin cambios aplicados"
    else if tool == "isolate_kubernetes_workload" then "aislamiento confirmado para " + target
    else if tool == "scale_to_zero" then "r\U{e9}plicas en 0 para " + target
    else "verbosidad elevada a 'verbose' para " + target
  }

  /** The result is this call's own: its ids, key and times, dry unless the action is `execute`, with the changes
      of its tool and the hash of its payload. */
  predicate OwnResult(r: Devices.ActionResult, req: Request, x: Extra) {
    var (p, m, dry) := (r.payload, x.meta, req.action != "execute");
    && r.id == m.id && r.observedAt == m.observedAt && r.runId == m.runId && r.producer == ProducerOf(req.toolName)
    && r.hashed == p
    && p.actionId == m.actionId && p.idempotencyKey == x.key && p.startedAt == m.startedAt && p.endedAt == m.endedAt
    && p.dryRun == dry && p.status == "succeeded" && p.passed && p.rollbackRef == None
    && p.detail == DetailOf(req.toolName, req.target, dry)
    && p.changedResources == if dry then [] else Changed(req.toolName, req.target)
  }

  /** What one executor call answers: an answered key its stored result, a new key this call's own result, now
      stored, or an error if that does not validate; a tool without an executor nothing. */
  ghost predicate RepliesWell(w: World, req: Request, x: Extra, w': World, reply: Option<Devices.Reply>) {
    var (memo, memo') := (MemoOf(w, req.toolName), MemoOf(w', req.toolName));
    if !Wired(req.toolName) then reply == None && w' == w
    else if x.key in memo then reply == Some(Devices.Returned(memo[x.key])) && w' == w
    else if !x.valid then reply == Some(Devices.InvalidActionResult) && memo' == memo
    else
      && x.key in memo' && memo' == memo[x.key := memo'[x.key]]
      && reply == Some(Devices.Returned(memo'[x.key])) && OwnResult(memo'[x.key], req, x)
  }

  function ForwardCall(req: Request, x: Extra): Devices.Call<string> {
    CallFor(Devices.Forward(req.action != "execute"), ArgsFor(req, x), false)
  }

  lemma IsolatePart(w: World, req: Request, x: Extra)
    ensures
      var (s, memo, _) := Devices.Invoke(CLUSTER, w.isolated, w.isolateMemo, ForwardCall(req, x));
      var w' := RunExecutor(w, req, x).0;
      if req.toolName == ISOLATE then w'.isolated == s && w'.isolateMemo == memo
      else w'.isolated == w.isolated && w'.isolateMemo == w.isolateMemo
  {}

  lemma ScalePart(w: World, req: Request, x: Extra)
    ensures
      var (s, memo, _) := Devices.Invoke(REPLICAS, w.replicas, w.scaleMemo, ForwardCall(req, x));
      var w' := RunExecutor(w, req, x).0;
      if req.toolName == SCALE then w'.replicas == s && w'.scaleMemo == memo
      else w'.replicas == w.replicas && w'.scaleMemo == w.scaleMemo
  {}

  lemma MonitorPart(w: World, req: Request, x: Extra)
    ensures
      var (s, memo, _) := Devices.Invoke(MONITORING, w.levels, w.monitorMemo, ForwardCall(req, x));
      var w' := RunExecutor(w, req, x).0;
      if req.toolName == MONITOR then w'.levels == s && w'.monitorMemo == memo
      else w'.levels == w.levels && w'.monitorMemo == w.monitorMemo
  {}

  /** A call leaves what the other tools have answered alone. */
  lemma OtherMemosStay(w: World, req: Request, x: Extra, tool: string)
    requires req.toolName != tool
    ensures MemoOf(RunExecutor(w, req, x).0, tool) == MemoOf(w, tool)
  {
    IsolatePart(w, req, x);
    ScalePart(w, req, x);
    MonitorPart(w, req, x);
  }

  lemma IsolateResult(s: Isolated, req: Request, x: Extra)
    requires req.toolName == ISOLATE
    ensures OwnResult(Devices.ResultOf(CLUSTER, s, ForwardCall(req, x)), req, x)
  {}

  lemma ScaleResult(s: Levels<int>, req: Request, x: Extra)
    requires req.toolName == SCALE
    ensures OwnResult(Devices.ResultOf(REPLICAS, s, ForwardCall(req, x)), req, x)
  {}

  lemma MonitorResult(s: Levels<string>, req: Request, x: Extra)
    requires req.toolName == MONITOR
    ensures OwnResult(Devices.ResultOf(MONITORING, s, ForwardCall(req, x)), req, x)
  {}

  lemma IsolateReplies(w: World, req: Request, x: Extra)
    requires req.toolName == ISOLATE
    ensures RepliesWell(w, req, x, RunExecutor(w, req, x).0, RunExecutor(w, req, x).1)
  {
    IsolateResult(w.isolated, req, x);
    Devices.InvokeReplies(CLUSTER, w.isolated, w.isolateMemo, ForwardCall(req, x), x.key);
  }

  lemma ScaleReplies(w: World, req: Request, x: Extra)
    requires req.toolName == SCALE
    ensures RepliesWell(w, req, x, RunExecutor(w, req, x).0, RunExecutor(w, req, x).1)
  {
    ScaleResult(w.replicas, req, x);
    Devices.InvokeReplies(REPLICAS, w.replicas, w.scaleMemo, ForwardCall(req, x), x.key);
  }

  lemma MonitorReplies(w: World, req: Request, x: Extra)
    requires req.toolName == MONITOR
    ensures RepliesWell(w, req, x, RunExecutor(w, req, x).0, RunExecutor(w, req, x).1)
  {
    MonitorResult(w.levels, req, x);
    Devices.InvokeReplies(MONITORING, w.levels, w.monitorMemo, ForwardCall(req, x), x.key);
  }

  lemma ExecutorReplies(w: World, req: Request, x: Extra)
    ensures RepliesWell(w, req, x, RunExecutor(w, req, x).0, RunExecutor(w, req, x).1)
  {
    if req.toolName == ISOLATE {
      IsolateReplies(w, req, x);
    } else if req.toolName == SCALE {
      ScaleReplies(w, req, x);
    } else if req.toolName == MONITOR {
      MonitorReplies(w, req, x);
    }
  }

  /** `Executed` holds the reply of a wired executor. */
  datatype ExecutionOutcome =
    | NotAuthorized(outcome: Outcome)
    | Executed(credential: string, reply: Option<Devices.Reply>)

  function Perform(cfg: Config, s: GatewayState, w: World, inp: Input, x: Extra)
    : (GatewayState, World, ExecutionOutcome)
  {
    var (s', outcome) := Decision(cfg, s, inp);
    if !outcome.Allowed? then (s', w, NotAuthorized(outcome))
    else
      var (w', reply) := RunExecutor(w, inp.req, x);
      (s', w', Executed(outcome.credential, reply))
  }

  /** A refused call reports the gateway's outcome and touches nothing; an executed one was allowed, carries the
      minted credential and never the caller's token, and answers as its executor does. */
  lemma PerformMeans(cfg: Config, s: GatewayState, w: World, inp: Input, x: Extra)
    ensures
      var (s', w', outcome) := Perform(cfg, s, w, inp, x);
      && s' == Decision(cfg, s, inp).0
      && match outcome
         case NotAuthorized(o) => o == Decision(cfg, s, inp).1 && !o.Allowed? && w' == w
         case Executed(credential, reply) =>
           && Decision(cfg, s, inp).1.Allowed?
           && credential == inp.credential && credential != inp.req.callerToken
           && RepliesWell(w, inp.req, x, w', reply)
  {
    ExecutorReplies(w, inp.req, x);
    if Decision(cfg, s, inp).1.Allowed? {
      AllowedIsMinted(cfg, s, inp, Decision(cfg, s, inp).1.credential);
    }
  }

  /** The executors a gateway process is wired to. */
  class Wiring {
    const kubernetes: KubernetesExecutor
    const scaling: ScaleToZeroExecutor
    const monitoring: IncreaseMonitoringExecutor

    constructor (kubernetes: KubernetesExecutor, scaling: ScaleToZeroExecutor, monitoring: IncreaseMonitoringExecutor)
      ensures this.kubernetes == kubernetes && this.scaling == scaling && this.monitoring == monitoring
    {
      this.kubernetes := kubernetes;
      this.scaling := scaling;
      this.monitoring := monitoring;
    }

    /** Each executor has an idempotency store of its own. */
    ghost predicate Separate() {
      && kubernetes.idempotency != scaling.idempotency
      && kubernetes.idempotency != monitoring.idempotency
      && scaling.idempotency != monitoring.idempotency
    }

    ghost function Repr(): set<object> {
      {kubernetes.cluster, scaling.state, monitoring.state,
       kubernetes.idempotency, scaling.idempotency, monitoring.idempotency}
    }

    ghost function View(): World
      reads Repr()
    {
      World(kubernetes.cluster.isolated, scaling.state.replicas, monitoring.state.levels,
            kubernetes.idempotency.results, scaling.idempotency.results, monitoring.idempotency.results)
    }

    method CallExecutor(req: Request, x: Extra) returns (reply: Option<Devices.Reply>)
      requires Separate()
      modifies Repr()
      ensures (View(), reply) == RunExecutor(old(View()), req, x)
    {
      reply := None;
      var dryRun := req.action != "execute";
      if req.toolName == ISOLATE {
        var r := kubernetes.IsolateWorkload(ArgsFor(req, x), dryRun);
        reply := Some(r);
      } else if req.toolName == SCALE {
        var r := scaling.ScaleToZero(ArgsFor(req, x), dryRun);
        reply := Some(r);
      } else if req.toolName == MONITOR {
        var r := monitoring.IncreaseMonitoring(ArgsFor(req, x), dryRun);
        reply := Some(r);
      }
    }
  }

  /** Authorise first; call the executor only if allowed, dry unless the authorised action is `execute`. */
  method ExecuteWithAuthorization(gateway: Gateway, wiring: Wiring, inp: Input, x: Extra)
      returns (outcome: ExecutionOutcome)
    requires wiring.Separate() && gateway.Repr() !! wiring.Repr()
    modifies gateway.Repr(), wiring.Repr()
    ensures (gateway.View(), wiring.View(), outcome)
         == Perform(gateway.config, old(gateway.View()), old(wiring.View()), inp, x)
  {
    var authorization := gateway.Authorize(inp);
    if !authorization.Allowed? {
      return NotAuthorized(authorization);
    }
    var reply := wiring.CallExecutor(inp.req, x);
    return Executed(authorization.credential, reply);
  }
}
