/** Many gateways, one durable table, one world: calls in flight interleave step by step, and any gateway
    may crash and restart between any two steps. */
module Deployment {
  import opened Options
  import opened Gateways
  import opened Execution
  import opened Sequences
  import Approvals
  import Devices
  import RateLimiting

  /** `Validated`: the fields passed and the INSERT is next.  `Granted`: `authorize` has returned yes and the
      executor is next.  `Ran`: the executor has been invoked. */
  datatype Phase =
    | Submitted
    | Validated(call: Approvals.Call)
    | Granted(credential: string)
    | Finished(outcome: Outcome)
    | Ran(credential: string, reply: Option<Devices.Reply>)
    | Crashed

  /** `spent` is the approval id whose row this call inserted. */
  datatype Job = Job(gateway: nat, inp: Input, extra: Extra, phase: Phase, spent: Option<string>)

  /** `log` lists, by job, the executor invocations so far. */
  datatype System = System(
    rows: Approvals.Rows, limiters: seq<RateLimiting.Calls>, jobs: seq<Job>, world: World, log: seq<nat>)

  datatype Event =
    | Submit(gateway: nat, inp: Input, extra: Extra)
    | Check(job: nat)
    | Insert(job: nat)
    | Invoke(job: nat)
    | Crash(gateway: nat, forget: bool)

  function Minted(outcome: Outcome): (r: Phase)
    ensures r.Granted? || r.Finished?
  {
    if outcome.Allowed? then Granted(outcome.credential) else Finished(outcome)
  }

  /** `authorize` up to the INSERT, on the gateway's own limiter. */
  function CheckCall(cfg: Config, calls: RateLimiting.Calls, inp: Input): (r: (RateLimiting.Calls, Phase))
    ensures r.1.Granted? || r.1.Finished? || r.1.Validated?
  {
    if inp.req.toolName !in cfg.catalog then (calls, Finished(Raised(ToolNotFound)))
    else
      var tool := cfg.catalog[inp.req.toolName];
      if tool.sideEffectClass in DENIED_IN_P0 then (calls, Finished(Denied(OutOfP0)))
      else
        var (calls', admitted) := RateLimiting.Check(calls, tool.name, tool.callsPerMinute, inp.now);
        if !admitted then (calls', Finished(Denied(RateLimited)))
        else
          (calls',
           match Screen(cfg, tool, inp)
           case Stop(outcome) => Finished(outcome)
           case Clear => Minted(Mint(inp))
           case NeedsApproval(call) =>
             var v := Approvals.ValidateFields(cfg.digest, call);
             if v == Approvals.Accepted then Validated(call) else Finished(AfterStore(v, inp)))
  }

  /** The atomic INSERT of a call whose fields passed, and the rest of `authorize`. */
  function InsertCall(rows: Approvals.Rows, job: Job): (r: (Approvals.Rows, Job))
    requires job.phase.Validated? && job.phase.call.approval.approvalId.Some?
    ensures r.1.phase.Granted? || r.1.phase.Finished?
  {
    var c := job.phase.call;
    var id := c.approval.approvalId.value;
    var rows' := if job.inp.disk == Approvals.FailsUncommitted then rows
                 else Approvals.InsertRow(rows, id, Approvals.Row(c.now, c.planHash));
    var v := if job.inp.disk != Approvals.Answers then Approvals.Rejected(Approvals.StorageUnavailable)
             else if id in rows then Approvals.Rejected(Approvals.Replay) else Approvals.Accepted;
    (rows', job.(phase := Minted(AfterStore(v, job.inp)), spent := if rows' != rows then Some(id) else None))
  }

  function CrashJob(job: Job, g: nat): Job {
    if job.gateway == g && (job.phase.Submitted? || job.phase.Validated? || job.phase.Granted?)
    then job.(phase := Crashed) else job
  }

  function CrashJobs(jobs: seq<Job>, g: nat): (r: seq<Job>)
    ensures |r| == |jobs| && forall j | 0 <= j < |jobs| :: r[j] == CrashJob(jobs[j], g)
  {
    seq(|jobs|, j requires 0 <= j < |jobs| => CrashJob(jobs[j], g))
  }

  /** A crashed gateway loses its limiter, its calls in flight and, with `forget`, the executors' memory of keys. */
  function CrashGateway(s: System, g: nat, forget: bool): System
    requires g < |s.limiters|
  {
    s.(limiters := s.limiters[g := map[]],
       jobs := CrashJobs(s.jobs, g),
       world := if forget then s.world.(isolateMemo := map[], scaleMemo := map[], monitorMemo := map[]) else s.world)
  }

  /** An event the system is not ready for does nothing. */
  function Step(cfg: Config, s: System, e: Event): System {
    match e
    case Submit(g, inp, extra) =>
      if g < |s.limiters| then s.(jobs := s.jobs + [Job(g, inp, extra, Submitted, None)]) else s
    case Check(j) =>
      if j < |s.jobs| && s.jobs[j].phase.Submitted? && s.jobs[j].gateway < |s.limiters| then
        var job := s.jobs[j];
        var (calls', phase) := CheckCall(cfg, s.limiters[job.gateway], job.inp);
        s.(limiters := s.limiters[job.gateway := calls'], jobs := s.jobs[j := job.(phase := phase)])
      else s
    case Insert(j) =>
      if j < |s.jobs| && s.jobs[j].phase.Validated? && s.jobs[j].phase.call.approval.approvalId.Some? then
        var (rows', job') := InsertCall(s.rows, s.jobs[j]);
        s.(rows := rows', jobs := s.jobs[j := job'])
      else s
    case Invoke(j) =>
      if j < |s.jobs| && s.jobs[j].phase.Granted? then
        var (world', reply) := RunExecutor(s.world, s.jobs[j].inp.req, s.jobs[j].extra);
        var job' := s.jobs[j].(phase := Ran(s.jobs[j].phase.credential, reply));
        s.(world := world', jobs := s.jobs[j := job'], log := s.log + [j])
      else s
    case Crash(g, forget) => if g < |s.limiters| then CrashGateway(s, g, forget) else s
  }

  function Run(cfg: Config, s: System, events: seq<Event>): System
    decreases |events|
  {
    if events == [] then s else Run(cfg, Step(cfg, s, events[0]), events[1..])
  }

  function Start(rows: Approvals.Rows, gateways: nat, world: World): System {
    System(rows, seq(gateways, _ => map[]), [], world, [])
  }

  /* ---------- What every reachable state keeps ---------- */

  /** The request was for a known tool and everything `authorize` demands held at the call's own time. */
  predicate Justified(cfg: Config, inp: Input) {
    inp.req.toolName in cfg.catalog && Permitted(cfg, cfg.catalog[inp.req.toolName], inp)
  }

  /** A justified `execute` of a tool that needs an approval. */
  predicate Approved(cfg: Config, inp: Input) {
    Justified(cfg, inp) && UsesApproval(cfg.catalog[inp.req.toolName], inp.req)
  }

  function ApprovalId(inp: Input): Option<string> {
    if inp.req.approval.Some? then inp.req.approval.value.approvalId else None
  }

  predicate JobOk(cfg: Config, job: Job) {
    && (job.spent.Some? ==> Approved(cfg, job.inp) && job.spent == ApprovalId(job.inp) && SpentPhase(job))
    && (job.phase.Validated? ==> Approved(cfg, job.inp) && job.phase.call == CallOf(job.inp))
    && (job.phase.Granted? || job.phase.Ran? ==>
          && Justified(cfg, job.inp) && (Approved(cfg, job.inp) ==> job.spent.Some?)
          && job.phase.credential == job.inp.credential && job.inp.credential != job.inp.req.callerToken)
  }

  /** A spent approval was used, or lost in one of three ways: the gateway crashed before the executor, the
      database failed after committing, or the minted credential equalled the caller's token. */
  predicate SpentPhase(job: Job) {
    || job.phase.Granted? || job.phase.Ran? || job.phase.Crashed?
    || (job.phase == Finished(Denied(ApprovalRefused(Approvals.StorageUnavailable)))
        && job.inp.disk == Approvals.FailsCommitted)
    || (job.phase == Finished(Raised(TokenPassthrough)) && job.inp.credential == job.inp.req.callerToken)
  }

  predicate JobsOk(cfg: Config, jobs: seq<Job>) {
    forall j | 0 <= j < |jobs| :: JobOk(cfg, jobs[j])
  }

  function Spents(jobs: seq<Job>): seq<Option<string>> {
    seq(|jobs|, j requires 0 <= j < |jobs| => jobs[j].spent)
  }

  /** The table holds the rows it started with and exactly those the jobs inserted, one job per row. */
  ghost predicate TableOk(rows: Approvals.Rows, spents: seq<Option<string>>, rows0: Approvals.Rows) {
    && (forall id :: id in rows <==> id in rows0 || Some(id) in spents)
    && (forall id | id in rows0 :: Some(id) !in spents)
    && (forall i, j | 0 <= i < j < |spents| && spents[i].Some? :: spents[i] != spents[j])
  }

  ghost predicate LogOk(log: seq<nat>, jobs: seq<Job>) {
    && NoDuplicates(log)
    && (forall j | j in log :: j < |jobs| && jobs[j].phase.Ran?)
    && (forall j: nat | j < |jobs| && jobs[j].phase.Ran? :: j in log)
  }

  /** What an observer sees of a target differs from the start only if an `execute` on it was invoked. */
  ghost predicate Explained(s: System, world0: World, tool: string, target: string) {
    Observe(s.world, tool, target) == Observe(world0, tool, target)
    || exists j :: j in s.log && Executes(s, j, tool, target)
  }

  predicate Executes(s: System, j: nat, tool: string, target: string) {
    && j < |s.jobs|
    && s.jobs[j].inp.req.toolName == tool && s.jobs[j].inp.req.target == target && s.jobs[j].inp.req.action == "execute"
  }

  ghost predicate Invariant(cfg: Config, s: System, rows0: Approvals.Rows) {
    JobsOk(cfg, s.jobs) && TableOk(s.rows, Spents(s.jobs), rows0) && LogOk(s.log, s.jobs)
  }

  lemma CheckKeepsJobOk(cfg: Config, calls: RateLimiting.Calls, job: Job)
    requires job.phase.Submitted? && JobOk(cfg, job)
    ensures JobOk(cfg, job.(phase := CheckCall(cfg, calls, job.inp).1))
  {
    var inp := job.inp;
    if inp.req.toolName in cfg.catalog && cfg.catalog[inp.req.toolName].sideEffectClass !in DENIED_IN_P0 {
      var tool := cfg.catalog[inp.req.toolName];
      ScreenMeansPermitted(cfg, tool, inp);
      if Screen(cfg, tool, inp).NeedsApproval? {
        Approvals.AcceptedIffFieldsValid(cfg.digest, Screen(cfg, tool, inp).call);
      }
    }
  }

  lemma InsertKeepsJobOk(cfg: Config, rows: Approvals.Rows, job: Job)
    requires job.phase.Validated? && JobOk(cfg, job)
    ensures job.phase.call.approval.approvalId.Some? && job.spent == None
    ensures JobOk(cfg, InsertCall(rows, job).1)
  {}

  lemma TableGrows(rows: Approvals.Rows, spents: seq<Option<string>>, rows0: Approvals.Rows,
                   j: nat, id: string, row: Approvals.Row)
    requires TableOk(rows, spents, rows0) && j < |spents| && spents[j] == None && id !in rows
    ensures TableOk(rows[id := row], spents[j := Some(id)], rows0)
  {
    var spents' := spents[j := Some(id)];
    assert spents'[j] == Some(id);
    forall k ensures Some(k) in spents' <==> Some(k) in spents || k == id {
      if Some(k) in spents {
        var i :| 0 <= i < |spents| && spents[i] == Some(k);
        assert spents'[i] == Some(k);
      }
    }
  }

  lemma JobAppended(cfg: Config, jobs: seq<Job>, log: seq<nat>, job: Job)
    requires JobsOk(cfg, jobs) && LogOk(log, jobs)
    requires !job.phase.Ran? && job.spent == None && JobOk(cfg, job)
    ensures JobsOk(cfg, jobs + [job]) && LogOk(log, jobs + [job])
    ensures Spents(jobs + [job]) == Spents(jobs) + [None]
  {}

  lemma TableIgnoresNone(rows: Approvals.Rows, spents: seq<Option<string>>, rows0: Approvals.Rows)
    requires TableOk(rows, spents, rows0)
    ensures TableOk(rows, spents + [None], rows0)
  {}

  lemma SubmitKeeps(cfg: Config, s: System, e: Event, rows0: Approvals.Rows)
    requires e.Submit? && Invariant(cfg, s, rows0)
    ensures Invariant(cfg, Step(cfg, s, e), rows0)
  {
    if e.gateway < |s.limiters| {
      var job := Job(e.gateway, e.inp, e.extra, Submitted, None);
      assert JobOk(cfg, job);
      JobAppended(cfg, s.jobs, s.log, job);
      TableIgnoresNone(s.rows, Spents(s.jobs), rows0);
    }
  }

  lemma CheckKeeps(cfg: Config, s: System, e: Event, rows0: Approvals.Rows)
    requires e.Check? && Invariant(cfg, s, rows0)
    ensures Invariant(cfg, Step(cfg, s, e), rows0)
  {
    if e.job < |s.jobs| && s.jobs[e.job].phase.Submitted? && s.jobs[e.job].gateway < |s.limiters| {
      var job := s.jobs[e.job];
      var calls := s.limiters[job.gateway];
      CheckKeepsJobOk(cfg, calls, job);
      JobReplaced(cfg, s.jobs, s.log, e.job, job.(phase := CheckCall(cfg, calls, job.inp).1));
      assert Spents(s.jobs)[e.job := job.spent] == Spents(s.jobs);
    }
  }

  lemma JobReplaced(cfg: Config, jobs: seq<Job>, log: seq<nat>, j: nat, job: Job)
    requires JobsOk(cfg, jobs) && LogOk(log, jobs)
    requires j < |jobs| && !jobs[j].phase.Ran? && !job.phase.Ran? && JobOk(cfg, job)
    ensures JobsOk(cfg, jobs[j := job]) && LogOk(log, jobs[j := job])
    ensures Spents(jobs[j := job]) == Spents(jobs)[j := job.spent]
  {}

  lemma InsertKeeps(cfg: Config, s: System, e: Event, rows0: Approvals.Rows)
    requires e.Insert? && Invariant(cfg, s, rows0)
    ensures Invariant(cfg, Step(cfg, s, e), rows0)
  {
    if e.job < |s.jobs| && s.jobs[e.job].phase.Validated? {
      InsertKeepsParts(cfg, s.rows, s.jobs, s.log, rows0, e.job);
    }
  }

  lemma InsertKeepsParts(
      cfg: Config, rows: Approvals.Rows, jobs: seq<Job>, log: seq<nat>, rows0: Approvals.Rows, j: nat)
    requires JobsOk(cfg, jobs) && TableOk(rows, Spents(jobs), rows0) && LogOk(log, jobs)
    requires j < |jobs| && jobs[j].phase.Validated?
    ensures jobs[j].phase.call.approval.approvalId.Some?
    ensures
      var (rows', job') := InsertCall(rows, jobs[j]);
      JobsOk(cfg, jobs[j := job']) && TableOk(rows', Spents(jobs[j := job']), rows0) && LogOk(log, jobs[j := job'])
  {
    InsertKeepsJobOk(cfg, rows, jobs[j]);
    JobReplaced(cfg, jobs, log, j, InsertCall(rows, jobs[j]).1);
    InsertedRow(rows, Spents(jobs), rows0, j, jobs[j]);
  }

  lemma InsertedRow(rows: Approvals.Rows, spents: seq<Option<string>>, rows0: Approvals.Rows, j: nat, job: Job)
    requires TableOk(rows, spents, rows0) && j < |spents| && spents[j] == None
    requires job.phase.Validated? && job.phase.call.approval.approvalId.Some?
    ensures
      var (rows', job') := InsertCall(rows, job);
      TableOk(rows', spents[j := job'.spent], rows0)
  {
    var c := job.phase.call;
    if InsertCall(rows, job).1.spent == None {
      assert spents[j := None] == spents;
    } else {
      TableGrows(rows, spents, rows0, j, c.approval.approvalId.value, Approvals.Row(c.now, c.planHash));
    }
  }

  lemma JobRan(cfg: Config, jobs: seq<Job>, log: seq<nat>, j: nat, job: Job)
    requires JobsOk(cfg, jobs) && LogOk(log, jobs) && j < |jobs| && jobs[j].phase.Granted?
    requires job.phase.Ran? && job == jobs[j].(phase := job.phase)
    requires job.phase.credential == jobs[j].phase.credential
    ensures JobsOk(cfg, jobs[j := job]) && LogOk(log + [j], jobs[j := job])
    ensures Spents(jobs[j := job]) == Spents(jobs)
  {
    assert JobOk(cfg, jobs[j]);
    assert j !in log;
  }

  lemma InvokeKeeps(cfg: Config, s: System, e: Event, rows0: Approvals.Rows)
    requires e.Invoke? && Invariant(cfg, s, rows0)
    ensures Invariant(cfg, Step(cfg, s, e), rows0)
  {
    if e.job < |s.jobs| && s.jobs[e.job].phase.Granted? {
      JobRan(cfg, s.jobs, s.log, e.job, Step(cfg, s, e).jobs[e.job]);
    }
  }

  lemma CrashKeeps(cfg: Config, s: System, e: Event, rows0: Approvals.Rows)
    requires e.Crash? && Invariant(cfg, s, rows0)
    ensures Invariant(cfg, Step(cfg, s, e), rows0)
  {
    if e.gateway < |s.limiters| {
      CrashJobsKeep(cfg, s.jobs, s.log, e.gateway);
    }
  }

  lemma CrashJobsKeep(cfg: Config, jobs: seq<Job>, log: seq<nat>, g: nat)
    requires JobsOk(cfg, jobs) && LogOk(log, jobs)
    ensures JobsOk(cfg, CrashJobs(jobs, g)) && LogOk(log, CrashJobs(jobs, g))
    ensures Spents(CrashJobs(jobs, g)) == Spents(jobs)
  {
    var jobs' := CrashJobs(jobs, g);
    forall j | 0 <= j < |jobs'| ensures JobOk(cfg, jobs'[j]) {
      assert JobOk(cfg, jobs[j]);
    }
  }

  lemma StepKeeps(cfg: Config, s: System, e: Event, rows0: Approvals.Rows)
    requires Invariant(cfg, s, rows0)
    ensures Invariant(cfg, Step(cfg, s, e), rows0)
  {
    match e
    case Submit(_, _, _) => SubmitKeeps(cfg, s, e, rows0);
    case Check(_) => CheckKeeps(cfg, s, e, rows0);
    case Insert(_) => InsertKeeps(cfg, s, e, rows0);
    case Invoke(_) => InvokeKeeps(cfg, s, e, rows0);
    case Crash(_, _) => CrashKeeps(cfg, s, e, rows0);
  }

  lemma {:induction false} RunKeeps(cfg: Config, s: System, events: seq<Event>, rows0: Approvals.Rows)
    requires Invariant(cfg, s, rows0)
    ensures Invariant(cfg, Run(cfg, s, events), rows0)
    decreases |events|
  {
    if events != [] {
      StepKeeps(cfg, s, events[0], rows0);
      RunKeeps(cfg, Step(cfg, s, events[0]), events[1..], rows0);
    }
  }

  predicate InFlight(job: Job) { job.phase.Submitted? || job.phase.Validated? || job.phase.Granted? }

  /** A crash ends the gateway's calls in flight and empties its limiter; table, log and states survive, and so
      does everything of the other gateways. */
  lemma CrashLoses(cfg: Config, s: System, g: nat, forget: bool)
    requires g < |s.limiters|
    ensures
      var s' := Step(cfg, s, Crash(g, forget));
      && s'.rows == s.rows && s'.log == s.log && |s'.limiters| == |s.limiters| && |s'.jobs| == |s.jobs|
      && (forall h | 0 <= h < |s.limiters| :: s'.limiters[h] == if h == g then map[] else s.limiters[h])
      && (forall j | 0 <= j < |s.jobs| ::
            if s.jobs[j].gateway == g && InFlight(s.jobs[j]) then s'.jobs[j] == s.jobs[j].(phase := Crashed)
            else s'.jobs[j] == s.jobs[j])
      && (forall tool, target :: Observe(s'.world, tool, target) == Observe(s.world, tool, target))
      && (forall tool :: MemoOf(s'.world, tool) == if forget then map[] else MemoOf(s.world, tool))
  {}

  /* ---------- Theorem 1: one approval, at most one effect ---------- */

  /** Invocation number `a` of the log was permitted at its own time; if it needed an approval, that
      approval was unspent at the start, is spent now, and backs no other invocation. */
  ghost predicate InvocationOk(cfg: Config, s: System, rows0: Approvals.Rows, a: nat)
    requires a < |s.log|
  {
    && s.log[a] < |s.jobs|
    && var inp := s.jobs[s.log[a]].inp;
    && Justified(cfg, inp)
    && (Approved(cfg, inp) ==>
          && ApprovalId(inp).Some? && ApprovalId(inp).value in s.rows && ApprovalId(inp).value !in rows0
          && forall b | 0 <= b < |s.log| && b != a :: !SharesApproval(cfg, s, s.log[b], ApprovalId(inp)))
  }

  ghost predicate SharesApproval(cfg: Config, s: System, j: nat, id: Option<string>) {
    j < |s.jobs| && Approved(cfg, s.jobs[j].inp) && ApprovalId(s.jobs[j].inp) == id
  }

  /** Over every run, an approval id backs at most one executor invocation of a tool that needs approval, and
      every invocation at all was permitted at its own time. */
  lemma AtMostOneInvocationPerApproval(
      cfg: Config, rows: Approvals.Rows, gateways: nat, world: World, events: seq<Event>, a: nat)
    requires a < |Run(cfg, Start(rows, gateways, world), events).log|
    ensures InvocationOk(cfg, Run(cfg, Start(rows, gateways, world), events), rows, a)
  {
    var s := Run(cfg, Start(rows, gateways, world), events);
    RunKeeps(cfg, Start(rows, gateways, world), events, rows);
    InvariantCoversLog(cfg, s, rows, a);
  }

  lemma SpendersDiffer(rows: Approvals.Rows, jobs: seq<Job>, rows0: Approvals.Rows, i: nat, j: nat)
    requires TableOk(rows, Spents(jobs), rows0) && i < |jobs| && j < |jobs| && i != j && jobs[i].spent.Some?
    ensures jobs[i].spent != jobs[j].spent
    ensures jobs[i].spent.value in rows && jobs[i].spent.value !in rows0
  {
    var spents := Spents(jobs);
    assert spents[i] == jobs[i].spent && spents[j] == jobs[j].spent;
    assert Some(jobs[i].spent.value) in spents;
  }

  lemma InvariantCoversLog(cfg: Config, s: System, rows0: Approvals.Rows, a: nat)
    requires Invariant(cfg, s, rows0) && a < |s.log|
    ensures InvocationOk(cfg, s, rows0, a)
  {
    var j := s.log[a];
    assert j in s.log && JobOk(cfg, s.jobs[j]);
    if Approved(cfg, s.jobs[j].inp) {
      assert s.jobs[j].spent == ApprovalId(s.jobs[j].inp);
      assert Some(s.jobs[j].spent.value) in Spents(s.jobs) by {
        assert Spents(s.jobs)[j] == s.jobs[j].spent;
      }
      forall b | 0 <= b < |s.log| && b != a ensures !SharesApproval(cfg, s, s.log[b], ApprovalId(s.jobs[j].inp)) {
        var k := s.log[b];
        assert k in s.log && k != j && JobOk(cfg, s.jobs[k]);
        SpendersDiffer(s.rows, s.jobs, rows0, j, k);
      }
    }
  }

  /* ---------- Theorem 2: approvals are conserved ---------- */

  predicate HasSpent(job: Job) { job.spent.Some? }

  function RanApproved(cfg: Config): Job -> bool {
    (job: Job) => job.phase.Ran? && Approved(cfg, job.inp)
  }

  function SpentIds(jobs: seq<Job>): set<string> {
    if jobs == [] then {}
    else SpentIds(jobs[1..]) + if jobs[0].spent.Some? then {jobs[0].spent.value} else {}
  }

  lemma {:induction false} SpentIdsMember(jobs: seq<Job>, id: string)
    ensures id in SpentIds(jobs) <==> Some(id) in Spents(jobs)
  {
    if jobs != [] {
      SpentIdsMember(jobs[1..], id);
      assert Spents(jobs) == [jobs[0].spent] + Spents(jobs[1..]);
    }
  }

  ghost predicate SpendsOnce(spents: seq<Option<string>>) {
    forall i, j | 0 <= i < j < |spents| && spents[i].Some? :: spents[i] != spents[j]
  }

  lemma {:induction false} SpentIdsCount(jobs: seq<Job>)
    requires SpendsOnce(Spents(jobs))
    ensures |SpentIds(jobs)| == |Filter(HasSpent, jobs)|
  {
    if jobs != [] {
      var rest := Spents(jobs[1..]);
      assert Spents(jobs) == [jobs[0].spent] + rest;
      assert SpendsOnce(rest) by {
        assert forall i | 0 <= i < |rest| :: rest[i] == Spents(jobs)[i + 1];
      }
      SpentIdsCount(jobs[1..]);
      if jobs[0].spent.Some? {
        FirstSpenderIsNew(jobs);
      }
    }
  }

  lemma FirstSpenderIsNew(jobs: seq<Job>)
    requires jobs != [] && jobs[0].spent.Some? && SpendsOnce(Spents(jobs))
    ensures jobs[0].spent.value !in SpentIds(jobs[1..])
  {
    var all := Spents(jobs);
    SpentIdsMember(jobs[1..], jobs[0].spent.value);
    assert all[0] == jobs[0].spent;
    assert forall i | 0 <= i < |jobs[1..]| :: Spents(jobs[1..])[i] == all[i + 1];
  }

  lemma TableCounts(rows: Approvals.Rows, jobs: seq<Job>, rows0: Approvals.Rows)
    requires TableOk(rows, Spents(jobs), rows0)
    ensures |rows| == |rows0| + |Filter(HasSpent, jobs)|
  {
    SpentIdsCount(jobs);
    forall id { SpentIdsMember(jobs, id); }
    assert rows.Keys == rows0.Keys + SpentIds(jobs);
    assert |rows| == |rows.Keys| && |rows0| == |rows0.Keys|;
  }

  /** In every reachable state the table has grown by exactly one row per call that spent an approval, and the
      invocations that needed an approval are among them. */
  lemma ApprovalsConserved(cfg: Config, rows: Approvals.Rows, gateways: nat, world: World, events: seq<Event>)
    ensures
      var s := Run(cfg, Start(rows, gateways, world), events);
      var invoked := Filter(RanApproved(cfg), s.jobs);
      |rows| + |invoked| <= |s.rows| == |rows| + |Filter(HasSpent, s.jobs)|
  {
    var s := Run(cfg, Start(rows, gateways, world), events);
    RunKeeps(cfg, Start(rows, gateways, world), events, rows);
    TableCounts(s.rows, s.jobs, rows);
    forall job | job in s.jobs && RanApproved(cfg)(job) ensures HasSpent(job) {
      assert JobOk(cfg, job);
    }
    FilterMonotone(RanApproved(cfg), HasSpent, s.jobs);
  }

  /** The call spent its approval and its executor has not been invoked. */
  predicate Stranded(job: Job) { job.spent.Some? && !job.phase.Ran? }

  /** The rows added are exactly the invocations that needed an approval if and only if no approval is stranded;
      a stranded one is still on its way to the executor or was lost in one of three ways. */
  lemma SpendsExactlyIff(cfg: Config, rows: Approvals.Rows, gateways: nat, world: World, events: seq<Event>)
    ensures
      var s := Run(cfg, Start(rows, gateways, world), events);
      && (|s.rows| == |rows| + |Filter(RanApproved(cfg), s.jobs)| <==> forall job | job in s.jobs :: !Stranded(job))
      && (forall job | job in s.jobs && Stranded(job) :: SpentPhase(job))
  {
    var s := Run(cfg, Start(rows, gateways, world), events);
    ApprovalsConserved(cfg, rows, gateways, world, events);
    RunKeeps(cfg, Start(rows, gateways, world), events, rows);
    StrandedCount(cfg, s.jobs);
    forall job | job in s.jobs && Stranded(job) ensures SpentPhase(job) {
      assert JobOk(cfg, job);
    }
  }

  lemma StrandedCount(cfg: Config, jobs: seq<Job>)
    requires JobsOk(cfg, jobs)
    ensures |Filter(HasSpent, jobs)| == |Filter(RanApproved(cfg), jobs)| <==> forall job | job in jobs :: !Stranded(job)
  {
    forall job | job in jobs ensures RanApproved(cfg)(job) <==> HasSpent(job) && !Stranded(job) {
      assert JobOk(cfg, job);
    }
    FilterMonotone(RanApproved(cfg), HasSpent, jobs);
    if j :| 0 <= j < |jobs| && Stranded(jobs[j]) {
      FilterStrict(RanApproved(cfg), HasSpent, jobs, j);
    } else {
      FilterMonotone(HasSpent, RanApproved(cfg), jobs);
    }
  }

  /** Nothing that loses an approval happened to this call, and it has come to its end. */
  predicate Undisturbed(job: Job) {
    && (job.phase.Finished? || job.phase.Ran?)
    && job.inp.disk != Approvals.FailsCommitted && job.inp.credential != job.inp.req.callerToken
  }

  /** So once every call has ended undisturbed they agree. */
  lemma UndisturbedRunsSpendExactly(cfg: Config, rows: Approvals.Rows, gateways: nat, world: World, events: seq<Event>)
    requires forall job | job in Run(cfg, Start(rows, gateways, world), events).jobs :: Undisturbed(job)
    ensures
      var s := Run(cfg, Start(rows, gateways, world), events);
      |s.rows| == |rows| + |Filter(RanApproved(cfg), s.jobs)|
  {
    SpendsExactlyIff(cfg, rows, gateways, world, events);
  }

  /** Rows are never changed, and the row a call inserted records that call's time and plan hash. */
  ghost predicate RowsOk(rows: Approvals.Rows, jobs: seq<Job>, rows0: Approvals.Rows) {
    && (forall id | id in rows0 :: id in rows && rows[id] == rows0[id])
    && forall j | 0 <= j < |jobs| && jobs[j].spent.Some? :: Records(rows, jobs[j])
  }

  predicate Records(rows: Approvals.Rows, job: Job)
    requires job.spent.Some?
  {
    && job.spent.value in rows && job.inp.planHash.Some?
    && rows[job.spent.value] == Approvals.Row(job.inp.now, job.inp.planHash.value)
  }

  lemma InsertKeepsRows(cfg: Config, rows: Approvals.Rows, jobs: seq<Job>, rows0: Approvals.Rows, j: nat)
    requires RowsOk(rows, jobs, rows0) && j < |jobs| && jobs[j].phase.Validated? && JobOk(cfg, jobs[j])
    ensures
      var (rows', job') := InsertCall(rows, jobs[j]);
      RowsOk(rows', jobs[j := job'], rows0)
  {}

  lemma StepKeepsRows(cfg: Config, s: System, e: Event, rows0: Approvals.Rows)
    requires JobsOk(cfg, s.jobs) && RowsOk(s.rows, s.jobs, rows0)
    ensures RowsOk(Step(cfg, s, e).rows, Step(cfg, s, e).jobs, rows0)
  {
    if e.Insert? && e.job < |s.jobs| && s.jobs[e.job].phase.Validated? {
      InsertKeepsRows(cfg, s.rows, s.jobs, rows0, e.job);
    }
  }

  lemma {:induction false} RunKeepsRows(cfg: Config, s: System, events: seq<Event>, rows0: Approvals.Rows)
    requires Invariant(cfg, s, rows0) && RowsOk(s.rows, s.jobs, rows0)
    ensures RowsOk(Run(cfg, s, events).rows, Run(cfg, s, events).jobs, rows0)
    decreases |events|
  {
    if events != [] {
      StepKeepsRows(cfg, s, events[0], rows0);
      StepKeeps(cfg, s, events[0], rows0);
      RunKeepsRows(cfg, Step(cfg, s, events[0]), events[1..], rows0);
    }
  }

  /** The table is a true record in every reachable state. */
  lemma TableIsTrueRecord(cfg: Config, rows: Approvals.Rows, gateways: nat, world: World, events: seq<Event>)
    ensures RowsOk(Run(cfg, Start(rows, gateways, world), events).rows,
                   Run(cfg, Start(rows, gateways, world), events).jobs, rows)
  {
    RunKeepsRows(cfg, Start(rows, gateways, world), events, rows);
  }

  /* ---------- Theorem 3: nothing changes without an allowed execute ---------- */

  lemma StepKeepsExplained(cfg: Config, s: System, e: Event, world0: World, tool: string, target: string)
    requires LogOk(s.log, s.jobs) && Explained(s, world0, tool, target)
    ensures Explained(Step(cfg, s, e), world0, tool, target)
  {
    var s' := Step(cfg, s, e);
    assert forall j | j in s.log :: Executes(s, j, tool, target) ==> j in s'.log && Executes(s', j, tool, target);
    if e.Invoke? && s' != s && Observe(s'.world, tool, target) != Observe(s.world, tool, target) {
      RunExecutorIsLocal(s.world, s.jobs[e.job].inp.req, s.jobs[e.job].extra, tool, target);
      assert e.job in s'.log && Executes(s', e.job, tool, target);
    }
  }

  lemma {:induction false} RunKeepsExplained(
      cfg: Config, s: System, events: seq<Event>, rows0: Approvals.Rows, world0: World, tool: string, target: string)
    requires Invariant(cfg, s, rows0) && Explained(s, world0, tool, target)
    ensures Explained(Run(cfg, s, events), world0, tool, target)
    decreases |events|
  {
    if events != [] {
      StepKeepsExplained(cfg, s, events[0], world0, tool, target);
      StepKeeps(cfg, s, events[0], rows0);
      RunKeepsExplained(cfg, Step(cfg, s, events[0]), events[1..], rows0, world0, tool, target);
    }
  }

  /** In every reachable state, a target that looks different from the start was the target of a permitted
      `execute` that reached its executor, inside the tool's allowlist where one is required. */
  lemma ChangesAreAuthorized(
      cfg: Config, rows: Approvals.Rows, gateways: nat, world: World, events: seq<Event>, tool: string, target: string)
    requires ValidCatalog(cfg.catalog)
    requires Observe(Run(cfg, Start(rows, gateways, world), events).world, tool, target) != Observe(world, tool, target)
    ensures tool in cfg.catalog && WithinAllowlist(cfg, cfg.catalog[tool], target)
    ensures
      var s := Run(cfg, Start(rows, gateways, world), events);
      exists j :: j in s.log && Executes(s, j, tool, target) && Justified(cfg, s.jobs[j].inp)
  {
    var s := Run(cfg, Start(rows, gateways, world), events);
    RunKeeps(cfg, Start(rows, gateways, world), events, rows);
    RunKeepsExplained(cfg, Start(rows, gateways, world), events, rows, world, tool, target);
    var j :| j in s.log && Executes(s, j, tool, target);
    assert JobOk(cfg, s.jobs[j]) && Justified(cfg, s.jobs[j].inp);
  }

  /* ---------- An uninterrupted call is the gateway's method ---------- */

  function Uninterrupted(g: nat, j: nat, inp: Input, x: Extra): seq<Event> {
    [Submit(g, inp, x), Check(j), Insert(j), Invoke(j)]
  }

  function PhaseOf(outcome: ExecutionOutcome): Phase {
    match outcome
    case NotAuthorized(o) => Finished(o)
    case Executed(credential, reply) => Ran(credential, reply)
  }

  lemma RunCons(cfg: Config, s: System, e: Event, rest: seq<Event>)
    ensures Run(cfg, s, [e] + rest) == Run(cfg, Step(cfg, s, e), rest)
  {
    assert ([e] + rest)[1..] == rest;
  }

  lemma RunFour(cfg: Config, s: System, a: Event, b: Event, c: Event, d: Event)
    ensures Run(cfg, s, [a, b, c, d]) == Step(cfg, Step(cfg, Step(cfg, Step(cfg, s, a), b), c), d)
  {
    var s1 := Step(cfg, s, a);
    var s2 := Step(cfg, s1, b);
    var s3 := Step(cfg, s2, c);
    assert [a, b, c, d] == [a] + [b, c, d] && [b, c, d] == [b] + [c, d] && [c, d] == [c] + [d] && [d] == [d] + [];
    RunCons(cfg, s, a, [b, c, d]);
    RunCons(cfg, s1, b, [c, d]);
    RunCons(cfg, s2, c, [d]);
    RunCons(cfg, s3, d, []);
  }

  /** A call at any gateway that no other event interrupts ends as `execute_with_authorization` on a gateway over
      the same table, limiter and world; the other gateways' limiters and the other calls stay as they were. */
  lemma UninterruptedCallIsPerform(cfg: Config, s: System, g: nat, inp: Input, x: Extra)
    requires g < |s.limiters|
    ensures
      var j := |s.jobs|;
      var s' := Run(cfg, s, Uninterrupted(g, j, inp, x));
      var (g', world', outcome) := Perform(cfg, GatewayState(s.limiters[g], Durable(s.rows)), s.world, inp, x);
      && g'.store == Durable(s'.rows) && s'.limiters == s.limiters[g := g'.calls] && s'.world == world'
      && |s'.jobs| == j + 1 && s'.jobs[..j] == s.jobs && s'.jobs[j].phase == PhaseOf(outcome)
      && s'.jobs[j].gateway == g && s'.jobs[j].inp == inp && s'.jobs[j].extra == x
      && s'.log == s.log + if outcome.Executed? then [j] else []
  {
    var j := |s.jobs|;
    RunFour(cfg, s, Submit(g, inp, x), Check(j), Insert(j), Invoke(j));
    var s3 := Authorized(cfg, s, g, inp, x);
  }

  /** The first three steps are `authorize`. */
  lemma Authorized(cfg: Config, s: System, g: nat, inp: Input, x: Extra) returns (s3: System)
    requires g < |s.limiters|
    ensures s3 == Step(cfg, Step(cfg, Step(cfg, s, Submit(g, inp, x)), Check(|s.jobs|)), Insert(|s.jobs|))
    ensures |s3.jobs| == |s.jobs| + 1 && s3.jobs[..|s.jobs|] == s.jobs && s3.world == s.world && s3.log == s.log
    ensures
      var (g', outcome) := Decision(cfg, GatewayState(s.limiters[g], Durable(s.rows)), inp);
      var job := s3.jobs[|s.jobs|];
      && g'.store == Durable(s3.rows) && s3.limiters == s.limiters[g := g'.calls]
      && job.phase == Minted(outcome) && job.inp == inp && job.extra == x && job.gateway == g
  {
    var j := |s.jobs|;
    var s1 := Step(cfg, s, Submit(g, inp, x));
    assert s1.jobs[j] == Job(g, inp, x, Submitted, None);
    var s2 := Step(cfg, s1, Check(j));
    CheckedCall(cfg, s.limiters[g], s.rows, inp, x);
    assert s2.jobs[j].phase == CheckCall(cfg, s.limiters[g], inp).1;
    s3 := Step(cfg, s2, Insert(j));
  }

  /** `authorize` is its checks and then, for a call whose fields passed, its INSERT. */
  lemma CheckedCall(cfg: Config, calls: RateLimiting.Calls, rows: Approvals.Rows, inp: Input, x: Extra)
    ensures
      var (calls', phase) := CheckCall(cfg, calls, inp);
      var (g', outcome) := Decision(cfg, GatewayState(calls, Durable(rows)), inp);
      && g'.calls == calls'
      && (phase.Validated? ==>
            && phase.call.approval.approvalId.Some?
            && var (rows', job') := InsertCall(rows, Job(0, inp, x, phase, None));
            && g'.store == Durable(rows') && job'.phase == Minted(outcome))
      && (!phase.Validated? ==> g'.store == Durable(rows) && phase == Minted(outcome))
  {
    if inp.req.toolName in cfg.catalog && cfg.catalog[inp.req.toolName].sideEffectClass !in DENIED_IN_P0 {
      var screening := Screen(cfg, cfg.catalog[inp.req.toolName], inp);
      if screening.NeedsApproval? {
        Approvals.AcceptedIffFieldsValid(cfg.digest, screening.call);
      }
    }
  }
}
