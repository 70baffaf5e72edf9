/** Counting what the executors did over runs of a deployment: every change to a state costs an idempotency key,
    and for a tool that needs approval an approval. */
module Effects {
  import opened Options
  import opened Gateways
  import opened Execution
  import opened Executors
  import opened Sequences
  import opened Deployment
  import Approvals
  import Devices

  /** The state behind a wired tool is not the same in both worlds. */
  predicate Moved(w: World, w': World, tool: string) {
    if tool == ISOLATE then w.isolated != w'.isolated
    else if tool == SCALE then w.replicas != w'.replicas
    else if tool == MONITOR then w.levels != w'.levels
    else false
  }

  predicate MovedAny(w: World, w': World, tools: set<string>) {
    exists tool | tool in tools :: Moved(w, w', tool)
  }

  /** How many steps of a run change the state behind one of the tools. */
  function Changes(cfg: Config, s: System, events: seq<Event>, tools: set<string>): nat
    decreases |events|
  {
    if events == [] then 0
    else
      var s' := Step(cfg, s, events[0]);
      (if MovedAny(s.world, s'.world, tools) then 1 else 0) + Changes(cfg, s', events[1..], tools)
  }

  /* ---------- One step ---------- */

  /** One tool's part of an executor call: its keys before and after, whether its state changed, and whether the
      call was one of its own. */
  ghost predicate CostsKey(keys: set<string>, keys': set<string>, moved: bool, own: bool, req: Request, x: Extra) {
    && keys <= keys' <= keys + (if own then {x.key} else {})
    && (moved ==> own && req.action == "execute" && x.key !in keys && keys' == keys + if x.valid then {x.key} else {})
  }

  lemma IsolateCostsKey(w: World, req: Request, x: Extra)
    ensures
      var w' := RunExecutor(w, req, x).0;
      CostsKey(w.isolateMemo.Keys, w'.isolateMemo.Keys, w.isolated != w'.isolated, req.toolName == ISOLATE, req, x)
  {
    IsolatePart(w, req, x);
    Devices.InvokeCostsKey(CLUSTER, w.isolated, w.isolateMemo, ForwardCall(req, x), x.key);
  }

  lemma ScaleCostsKey(w: World, req: Request, x: Extra)
    ensures
      var w' := RunExecutor(w, req, x).0;
      CostsKey(w.scaleMemo.Keys, w'.scaleMemo.Keys, w.replicas != w'.replicas, req.toolName == SCALE, req, x)
  {
    ScalePart(w, req, x);
    Devices.InvokeCostsKey(REPLICAS, w.replicas, w.scaleMemo, ForwardCall(req, x), x.key);
  }

  lemma MonitorCostsKey(w: World, req: Request, x: Extra)
    ensures
      var w' := RunExecutor(w, req, x).0;
      CostsKey(w.monitorMemo.Keys, w'.monitorMemo.Keys, w.levels != w'.levels, req.toolName == MONITOR, req, x)
  {
    MonitorPart(w, req, x);
    Devices.InvokeCostsKey(MONITORING, w.levels, w.monitorMemo, ForwardCall(req, x), x.key);
  }

  /** An executor call answers at most its own key, for its own tool; one that changes a state is an `execute` of
      that state's tool with a key not answered before, and answers it exactly if its result is valid. */
  lemma CallCostsKey(w: World, req: Request, x: Extra, tool: string)
    ensures
      var w' := RunExecutor(w, req, x).0;
      CostsKey(MemoOf(w, tool).Keys, MemoOf(w', tool).Keys, Moved(w, w', tool), req.toolName == tool, req, x)
  {
    if tool == ISOLATE {
      IsolateCostsKey(w, req, x);
    } else if tool == SCALE {
      ScaleCostsKey(w, req, x);
    } else if tool == MONITOR {
      MonitorCostsKey(w, req, x);
    }
  }

  lemma ChangeIsInvoke(cfg: Config, s: System, e: Event, tool: string)
    requires Moved(s.world, Step(cfg, s, e).world, tool)
    ensures e.Invoke? && e.job < |s.jobs| && s.jobs[e.job].phase.Granted?
    ensures
      var job := s.jobs[e.job];
      job.inp.req.toolName == tool && job.inp.req.action == "execute"
  {
    if e.Invoke? && e.job < |s.jobs| && s.jobs[e.job].phase.Granted? {
      CallCostsKey(s.world, s.jobs[e.job].inp.req, s.jobs[e.job].extra, tool);
    }
  }

  /* ---------- Theorem 1: changes cost keys ---------- */

  /** Results validate and no crash loses the executors' memory of keys. */
  predicate KeysKept(e: Event) {
    (e.Submit? ==> e.extra.valid) && (e.Crash? ==> !e.forget)
  }

  predicate AllValid(jobs: seq<Job>) { forall j | 0 <= j < |jobs| :: jobs[j].extra.valid }

  function KeysUsed(s: System, tool: string): set<string> {
    set j | j in s.log && j < |s.jobs| && s.jobs[j].inp.req.toolName == tool :: s.jobs[j].extra.key
  }

  ghost predicate KeysAreUsed(s: System, world0: World, tool: string) {
    MemoOf(s.world, tool).Keys <= MemoOf(world0, tool).Keys + KeysUsed(s, tool)
  }

  lemma StepKeepsUsed(cfg: Config, s: System, e: Event, tool: string)
    ensures KeysUsed(s, tool) <= KeysUsed(Step(cfg, s, e), tool)
  {
    var s' := Step(cfg, s, e);
    assert |s.jobs| <= |s'.jobs|;
    assert forall j | 0 <= j < |s.jobs| :: s'.jobs[j].inp == s.jobs[j].inp && s'.jobs[j].extra == s.jobs[j].extra;
    assert forall j | j in s.log :: j in s'.log;
  }

  lemma StepKeepsValid(cfg: Config, s: System, e: Event)
    requires KeysKept(e) && AllValid(s.jobs)
    ensures AllValid(Step(cfg, s, e).jobs)
  {}

  lemma OtherStepKeepsKeys(cfg: Config, s: System, e: Event, tool: string)
    requires KeysKept(e) && !e.Invoke?
    ensures
      var w' := Step(cfg, s, e).world;
      !Moved(s.world, w', tool) && MemoOf(w', tool) == MemoOf(s.world, tool)
  {}

  lemma InvokeCostsKey(cfg: Config, s: System, e: Event, world0: World, tool: string)
    requires e.Invoke? && e.job < |s.jobs| && s.jobs[e.job].phase.Granted?
    requires AllValid(s.jobs) && KeysAreUsed(s, world0, tool)
    ensures KeysAreUsed(Step(cfg, s, e), world0, tool)
    ensures KeysGrow(s.world, Step(cfg, s, e).world, tool)
  {
    var (s', job) := (Step(cfg, s, e), s.jobs[e.job]);
    StepKeepsUsed(cfg, s, e, tool);
    CallCostsKey(s.world, job.inp.req, job.extra, tool);
    if job.inp.req.toolName == tool {
      KeyIsUsed(s', e.job, tool);
    }
  }

  lemma KeyIsUsed(s: System, j: nat, tool: string)
    requires j in s.log && j < |s.jobs| && s.jobs[j].inp.req.toolName == tool
    ensures s.jobs[j].extra.key in KeysUsed(s, tool)
  {}

  lemma StepCostsKey(cfg: Config, s: System, e: Event, world0: World, tool: string)
    requires KeysKept(e) && AllValid(s.jobs) && KeysAreUsed(s, world0, tool)
    ensures AllValid(Step(cfg, s, e).jobs) && KeysAreUsed(Step(cfg, s, e), world0, tool)
    ensures KeysGrow(s.world, Step(cfg, s, e).world, tool)
  {
    StepKeepsValid(cfg, s, e);
    if e.Invoke? {
      if e.job < |s.jobs| && s.jobs[e.job].phase.Granted? {
        InvokeCostsKey(cfg, s, e, world0, tool);
      }
    } else {
      OtherStepKeepsKeys(cfg, s, e, tool);
      StepKeepsUsed(cfg, s, e, tool);
    }
  }

  /** Keys are kept, and a change comes with a new one. */
  predicate KeysGrow(w: World, w': World, tool: string) {
    && MemoOf(w, tool).Keys <= MemoOf(w', tool).Keys
    && (Moved(w, w', tool) ==> MemoOf(w, tool).Keys != MemoOf(w', tool).Keys)
  }

  lemma KeysCounted(keys: set<string>, keys': set<string>, keys'': set<string>, n: nat)
    requires keys <= keys' <= keys'' && n <= |keys'' - keys'|
    ensures n + (if keys != keys' then 1 else 0) <= |keys'' - keys|
  {
    assert keys'' - keys == (keys'' - keys') + (keys' - keys);
    assert keys != keys' ==> keys' - keys != {};
  }

  lemma {:induction false} RunCostsKeys(cfg: Config, s: System, events: seq<Event>, world0: World, tool: string)
    requires forall e | e in events :: KeysKept(e)
    requires AllValid(s.jobs) && KeysAreUsed(s, world0, tool)
    ensures
      var s' := Run(cfg, s, events);
      var keys, keys' := MemoOf(s.world, tool).Keys, MemoOf(s'.world, tool).Keys;
      KeysAreUsed(s', world0, tool) && keys <= keys' && Changes(cfg, s, events, {tool}) <= |keys' - keys|
    decreases |events|
  {
    if events != [] {
      var (s', last) := (Step(cfg, s, events[0]), Run(cfg, s, events));
      assert events[0] in events;
      StepCostsKey(cfg, s, events[0], world0, tool);
      RunCostsKeys(cfg, s', events[1..], world0, tool);
      assert MovedAny(s.world, s'.world, {tool}) <==> Moved(s.world, s'.world, tool);
      KeysCounted(MemoOf(s.world, tool).Keys, MemoOf(s'.world, tool).Keys, MemoOf(last.world, tool).Keys,
                  Changes(cfg, s', events[1..], {tool}));
    }
  }

  /** Over every run in which results validate and no crash forgets keys, the changes to the state behind a tool
      number at most the keys newly answered for it, each of which some invocation of that tool used. */
  lemma ChangesCostKeys(
      cfg: Config, rows: Approvals.Rows, gateways: nat, world: World, events: seq<Event>, tool: string)
    requires forall e | e in events :: KeysKept(e)
    ensures
      var s := Run(cfg, Start(rows, gateways, world), events);
      var keys, keys' := MemoOf(world, tool).Keys, MemoOf(s.world, tool).Keys;
      && keys <= keys' <= keys + KeysUsed(s, tool)
      && Changes(cfg, Start(rows, gateways, world), events, {tool}) <= |keys' - keys| <= |KeysUsed(s, tool)|
  {
    var s := Run(cfg, Start(rows, gateways, world), events);
    RunCostsKeys(cfg, Start(rows, gateways, world), events, world, tool);
    SubsetSize(MemoOf(s.world, tool).Keys - MemoOf(world, tool).Keys, KeysUsed(s, tool));
  }

  lemma SubsetSize(a: set<string>, b: set<string>)
    requires a <= b
    ensures |a| <= |b|
  {
    assert b == a + (b - a);
  }

  /* ---------- Theorem 2: changes cost approvals ---------- */

  function ApprovalTools(cfg: Config): set<string> {
    set tool | tool in cfg.catalog && cfg.catalog[tool].approvalRequired
  }

  lemma StepKeepsRan(cfg: Config, s: System, e: Event)
    ensures |s.jobs| <= |Step(cfg, s, e).jobs|
    ensures forall j | 0 <= j < |s.jobs| && RanApproved(cfg)(s.jobs[j]) :: RanApproved(cfg)(Step(cfg, s, e).jobs[j])
  {
    assert forall j | 0 <= j < |s.jobs| && s.jobs[j].phase.Ran? :: Step(cfg, s, e).jobs[j] == s.jobs[j];
  }

  lemma ChangeIsApproved(cfg: Config, s: System, e: Event)
    requires JobsOk(cfg, s.jobs) && MovedAny(s.world, Step(cfg, s, e).world, ApprovalTools(cfg))
    ensures e.Invoke? && e.job < |s.jobs| && !RanApproved(cfg)(s.jobs[e.job])
    ensures |s.jobs| == |Step(cfg, s, e).jobs| && RanApproved(cfg)(Step(cfg, s, e).jobs[e.job])
  {
    var tool :| tool in ApprovalTools(cfg) && Moved(s.world, Step(cfg, s, e).world, tool);
    ChangeIsInvoke(cfg, s, e, tool);
    assert JobOk(cfg, s.jobs[e.job]);
  }

  lemma StepCostsApproval(cfg: Config, s: System, e: Event)
    requires JobsOk(cfg, s.jobs)
    ensures |Filter(RanApproved(cfg), s.jobs)|
            + (if MovedAny(s.world, Step(cfg, s, e).world, ApprovalTools(cfg)) then 1 else 0)
         <= |Filter(RanApproved(cfg), Step(cfg, s, e).jobs)|
  {
    StepKeepsRan(cfg, s, e);
    FilterGrows(RanApproved(cfg), s.jobs, Step(cfg, s, e).jobs);
    if MovedAny(s.world, Step(cfg, s, e).world, ApprovalTools(cfg)) {
      ChangeIsApproved(cfg, s, e);
      FilterGains(RanApproved(cfg), s.jobs, Step(cfg, s, e).jobs, e.job);
    }
  }

  lemma {:induction false} RunCostsApprovals(cfg: Config, s: System, events: seq<Event>, rows0: Approvals.Rows)
    requires Invariant(cfg, s, rows0)
    ensures |Filter(RanApproved(cfg), s.jobs)| + Changes(cfg, s, events, ApprovalTools(cfg))
         <= |Filter(RanApproved(cfg), Run(cfg, s, events).jobs)|
    decreases |events|
  {
    if events != [] {
      StepCostsApproval(cfg, s, events[0]);
      StepKeeps(cfg, s, events[0], rows0);
      RunCostsApprovals(cfg, Step(cfg, s, events[0]), events[1..], rows0);
    }
  }

  /** Over every run at all, the changes to the states behind all tools that need approval together number at
      most the approvals consumed: the rows added to the table. */
  lemma ChangesCostApprovals(cfg: Config, rows: Approvals.Rows, gateways: nat, world: World, events: seq<Event>)
    ensures |rows| + Changes(cfg, Start(rows, gateways, world), events, ApprovalTools(cfg))
         <= |Run(cfg, Start(rows, gateways, world), events).rows|
  {
    RunCostsApprovals(cfg, Start(rows, gateways, world), events, rows);
    ApprovalsConserved(cfg, rows, gateways, world, events);
  }
}
