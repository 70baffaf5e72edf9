/** The rate limit bounds the executor invocations of each gateway of a deployment. */
module Throughput {
  import opened Options
  import opened Gateways
  import opened Execution
  import opened Sequences
  import opened Deployment
  import opened RateLimiting
  import Approvals
  import GatewayRuns

  /** The step puts an attempt to the limiter of gateway `g`. */
  predicate Attempts(cfg: Config, s: System, e: Event, g: nat) {
    && e.Check? && e.job < |s.jobs| && s.jobs[e.job].phase.Submitted?
    && s.jobs[e.job].gateway == g < |s.limiters| && GatewayRuns.ReachesLimiter(cfg, s.jobs[e.job].inp)
  }

  /** All attempts of a run at gateway `g`, in order. */
  function AttemptsAt(cfg: Config, s: System, events: seq<Event>, g: nat): seq<Attempt>
    decreases |events|
  {
    if events == [] then []
    else
      var rest := AttemptsAt(cfg, Step(cfg, s, events[0]), events[1..], g);
      if Attempts(cfg, s, events[0], g) then [GatewayRuns.AttemptOf(cfg, s.jobs[events[0].job].inp)] + rest else rest
  }

  predicate InWindow(job: Job, g: nat, tool: string, lo: int, hi: int) {
    job.gateway == g && job.inp.req.toolName == tool && lo < job.inp.now <= hi
  }

  /** Calls of a tool at gateway `g`, made in (lo, hi], that got past the checks and have not been refused since. */
  function Passed(g: nat, tool: string, lo: int, hi: int): Job -> bool {
    (job: Job) => (job.phase.Validated? || job.phase.Granted? || job.phase.Ran?) && InWindow(job, g, tool, lo, hi)
  }

  /** Those whose executor has been invoked. */
  function Invoked(g: nat, tool: string, lo: int, hi: int): Job -> bool {
    (job: Job) => job.phase.Ran? && InWindow(job, g, tool, lo, hi)
  }

  /** The step's attempt is admitted and falls into the window. */
  predicate AdmitsNow(cfg: Config, s: System, e: Event, g: nat, tool: string, lo: int, hi: int) {
    && Attempts(cfg, s, e, g)
    && var a := GatewayRuns.AttemptOf(cfg, s.jobs[e.job].inp);
    && RateLimiting.Check(s.limiters[g], a.tool, a.limit, a.now).1 && Counts(a, tool, lo, hi)
  }

  lemma CheckedIsAdmitted(cfg: Config, calls: Calls, inp: Input)
    ensures
      var (calls', phase) := CheckCall(cfg, calls, inp);
      if GatewayRuns.ReachesLimiter(cfg, inp) then
        var a := GatewayRuns.AttemptOf(cfg, inp);
        && calls' == RateLimiting.Check(calls, a.tool, a.limit, a.now).0
        && (phase.Validated? || phase.Granted? ==> RateLimiting.Check(calls, a.tool, a.limit, a.now).1)
      else calls' == calls && phase.Finished?
  {}

  lemma StepOnLimiter(cfg: Config, s: System, e: Event, g: nat)
    requires g < |s.limiters| && !(e.Crash? && e.gateway == g)
    ensures
      var s' := Step(cfg, s, e);
      && g < |s'.limiters|
      && s'.limiters[g] ==
           if Attempts(cfg, s, e, g) then
             var a := GatewayRuns.AttemptOf(cfg, s.jobs[e.job].inp);
             RateLimiting.Check(s.limiters[g], a.tool, a.limit, a.now).0
           else s.limiters[g]
  {
    if e.Check? && e.job < |s.jobs| && s.jobs[e.job].gateway < |s.limiters| {
      CheckedIsAdmitted(cfg, s.limiters[s.jobs[e.job].gateway], s.jobs[e.job].inp);
    }
  }

  /** Only an admitted attempt adds to the calls that have passed. */
  lemma StepPasses(cfg: Config, s: System, e: Event, g: nat, tool: string, lo: int, hi: int)
    requires ValidCatalog(cfg.catalog)
    ensures |Filter(Passed(g, tool, lo, hi), Step(cfg, s, e).jobs)|
         <= |Filter(Passed(g, tool, lo, hi), s.jobs)| + if AdmitsNow(cfg, s, e, g, tool, lo, hi) then 1 else 0
  {
    var (p, s') := (Passed(g, tool, lo, hi), Step(cfg, s, e));
    if e.Check? && e.job < |s.jobs| && s.jobs[e.job].phase.Submitted? && s.jobs[e.job].gateway < |s.limiters| {
      CheckedIsAdmitted(cfg, s.limiters[s.jobs[e.job].gateway], s.jobs[e.job].inp);
      FilterGainsAtMostOne(p, s.jobs, s'.jobs, e.job);
    } else {
      FilterShrinks(p, s.jobs, s'.jobs);
    }
  }

  lemma {:induction false} RunPasses(
      cfg: Config, s: System, events: seq<Event>, g: nat, tool: string, lo: int, hi: int)
    requires ValidCatalog(cfg.catalog) && g < |s.limiters|
    requires forall e | e in events :: !(e.Crash? && e.gateway == g)
    ensures
      var attempts := AttemptsAt(cfg, s, events, g);
      |Filter(Passed(g, tool, lo, hi), Deployment.Run(cfg, s, events).jobs)|
        <= |Filter(Passed(g, tool, lo, hi), s.jobs)|
           + Admitted(attempts, RateLimiting.Run(s.limiters[g], attempts).1, tool, lo, hi)
    decreases |events|
  {
    if events != [] {
      var (e, s') := (events[0], Step(cfg, s, events[0]));
      var attempts := AttemptsAt(cfg, s, events, g);
      assert e in events;
      StepOnLimiter(cfg, s, e, g);
      StepPasses(cfg, s, e, g, tool, lo, hi);
      RunPasses(cfg, s', events[1..], g, tool, lo, hi);
      if Attempts(cfg, s, e, g) {
        assert attempts[1..] == AttemptsAt(cfg, s', events[1..], g);
        assert RateLimiting.Run(s.limiters[g], attempts).1[1..] == RateLimiting.Run(s'.limiters[g], attempts[1..]).1;
        AdmittedCons(attempts, RateLimiting.Run(s.limiters[g], attempts).1, tool, lo, hi);
      }
    }
  }

  lemma {:induction false} AttemptsKnown(cfg: Config, s: System, events: seq<Event>, g: nat)
    requires ValidCatalog(cfg.catalog)
    ensures forall a | a in AttemptsAt(cfg, s, events, g) ::
      a.tool in cfg.catalog && a.limit == cfg.catalog[a.tool].callsPerMinute
    decreases |events|
  {
    if events != [] {
      AttemptsKnown(cfg, Step(cfg, s, events[0]), events[1..], g);
    }
  }

  lemma StartPasses(cfg: Config, rows: Approvals.Rows, gateways: nat, world: World, events: seq<Event>,
                    g: nat, tool: string, lo: int, hi: int)
    requires ValidCatalog(cfg.catalog) && g < gateways
    requires forall e | e in events :: !(e.Crash? && e.gateway == g)
    ensures
      var s0 := Start(rows, gateways, world);
      var attempts := AttemptsAt(cfg, s0, events, g);
      |Filter(Passed(g, tool, lo, hi), Deployment.Run(cfg, s0, events).jobs)|
        <= Admitted(attempts, RateLimiting.Run(map[], attempts).1, tool, lo, hi)
  {
    RunPasses(cfg, Start(rows, gateways, world), events, g, tool, lo, hi);
  }

  lemma AttemptsBounded(cfg: Config, s: System, events: seq<Event>, g: nat, tool: string, x: int, k: nat)
    requires ValidCatalog(cfg.catalog) && tool in cfg.catalog && InOrder(AttemptsAt(cfg, s, events, g))
    ensures
      var attempts := AttemptsAt(cfg, s, events, g);
      Admitted(attempts, RateLimiting.Run(map[], attempts).1, tool, x, x + k * WINDOW)
        <= k * cfg.catalog[tool].callsPerMinute
  {
    AttemptsKnown(cfg, s, events, g);
    AdmissionsBounded(AttemptsAt(cfg, s, events, g), tool, cfg.catalog[tool].callsPerMinute, x, k);
  }

  /** In any run in which a gateway does not crash and the times of its own checks do not go back, its calls of a
      tool invoke the executor at most k times the tool's limit in any k minutes, whatever the other gateways
      do, crashes included. */
  lemma InvocationsBounded(cfg: Config, rows: Approvals.Rows, gateways: nat, world: World, events: seq<Event>,
                           g: nat, tool: string, x: int, k: nat)
    requires ValidCatalog(cfg.catalog) && tool in cfg.catalog && g < gateways
    requires forall e | e in events :: !(e.Crash? && e.gateway == g)
    requires InOrder(AttemptsAt(cfg, Start(rows, gateways, world), events, g))
    ensures
      var jobs := Deployment.Run(cfg, Start(rows, gateways, world), events).jobs;
      |Filter(Invoked(g, tool, x, x + k * 60_000_000), jobs)| <= k * cfg.catalog[tool].callsPerMinute
  {
    var s0 := Start(rows, gateways, world);
    StartPasses(cfg, rows, gateways, world, events, g, tool, x, x + k * WINDOW);
    AttemptsBounded(cfg, s0, events, g, tool, x, k);
    InvokedHavePassed(Deployment.Run(cfg, s0, events).jobs, g, tool, x, x + k * WINDOW);
  }

  lemma InvokedHavePassed(jobs: seq<Job>, g: nat, tool: string, lo: int, hi: int)
    ensures |Filter(Invoked(g, tool, lo, hi), jobs)| <= |Filter(Passed(g, tool, lo, hi), jobs)|
  {
    FilterMonotone(Invoked(g, tool, lo, hi), Passed(g, tool, lo, hi), jobs);
  }
}
