/** What the calls of a deployment are answered, in every reachable state. */
module Replies {
  import opened Options
  import opened Gateways
  import opened Execution
  import opened Deployment
  import Approvals
  import Devices

  /** Whoever is on the way to an executor, or has been there, holds the credential minted for the call, which is
      not the caller's token. */
  lemma CredentialsAreMinted(
      cfg: Config, rows: Approvals.Rows, gateways: nat, world: World, events: seq<Event>, j: nat)
    requires
      var jobs := Run(cfg, Start(rows, gateways, world), events).jobs;
      j < |jobs| && (jobs[j].phase.Granted? || jobs[j].phase.Ran?)
    ensures
      var job := Run(cfg, Start(rows, gateways, world), events).jobs[j];
      job.phase.credential == job.inp.credential && job.inp.credential != job.inp.req.callerToken
  {
    RunKeeps(cfg, Start(rows, gateways, world), events, rows);
    assert JobOk(cfg, Run(cfg, Start(rows, gateways, world), events).jobs[j]);
  }

  /* ---------- Every answer stems from an invocation ---------- */

  /** Job `j` was an invocation of the tool with the key, and the result is its own. */
  predicate Made(s: System, j: nat, tool: string, key: string, r: Devices.ActionResult) {
    && j < |s.jobs| && s.jobs[j].phase.Ran?
    && s.jobs[j].inp.req.toolName == tool && s.jobs[j].extra.key == key
    && OwnResult(r, s.jobs[j].inp.req, s.jobs[j].extra)
  }

  /** The result was there at the start, or some invocation made it. */
  ghost predicate Genuine(s: System, world0: World, tool: string, key: string, r: Devices.ActionResult) {
    (key in MemoOf(world0, tool) && MemoOf(world0, tool)[key] == r) || exists j :: Made(s, j, tool, key, r)
  }

  ghost predicate StoredGenuine(s: System, world0: World, tool: string) {
    forall key | key in MemoOf(s.world, tool) :: Genuine(s, world0, tool, key, MemoOf(s.world, tool)[key])
  }

  /** Tools without an executor answer nothing; the others answer a genuine result, or that the call's own result
      does not validate. */
  ghost predicate Answered(s: System, world0: World, job: Job)
    requires job.phase.Ran?
  {
    match job.phase.reply
    case None => !Wired(job.inp.req.toolName)
    case Some(InvalidActionResult) => Wired(job.inp.req.toolName) && !job.extra.valid
    case Some(Returned(r)) =>
      Wired(job.inp.req.toolName) && Genuine(s, world0, job.inp.req.toolName, job.extra.key, r)
  }

  ghost predicate AllAnswered(s: System, world0: World) {
    && (forall tool :: StoredGenuine(s, world0, tool))
    && (forall j | 0 <= j < |s.jobs| && s.jobs[j].phase.Ran? :: Answered(s, world0, s.jobs[j]))
  }

  lemma StepKeepsRan(cfg: Config, s: System, e: Event)
    ensures |s.jobs| <= |Step(cfg, s, e).jobs|
    ensures forall j | 0 <= j < |s.jobs| && s.jobs[j].phase.Ran? :: Step(cfg, s, e).jobs[j] == s.jobs[j]
  {}

  lemma GenuineStays(cfg: Config, s: System, e: Event, world0: World, tool: string, key: string,
                     r: Devices.ActionResult)
    requires Genuine(s, world0, tool, key, r)
    ensures Genuine(Step(cfg, s, e), world0, tool, key, r)
  {
    StepKeepsRan(cfg, s, e);
    if j :| Made(s, j, tool, key, r) {
      assert Made(Step(cfg, s, e), j, tool, key, r);
    }
  }

  lemma OtherStepStores(cfg: Config, s: System, e: Event, world0: World, tool: string)
    requires StoredGenuine(s, world0, tool)
    requires !(e.Invoke? && e.job < |s.jobs| && s.jobs[e.job].phase.Granted?)
    ensures StoredGenuine(Step(cfg, s, e), world0, tool)
  {
    var (memo, memo') := (MemoOf(s.world, tool), MemoOf(Step(cfg, s, e).world, tool));
    assert memo' == map[] || memo' == memo;
    forall key | key in memo' ensures Genuine(Step(cfg, s, e), world0, tool, key, memo'[key]) {
      GenuineStays(cfg, s, e, world0, tool, key, memo[key]);
    }
  }

  lemma AnsweredStays(cfg: Config, s: System, e: Event, world0: World, job: Job)
    requires job.phase.Ran? && Answered(s, world0, job)
    ensures Answered(Step(cfg, s, e), world0, job)
  {
    if job.phase.reply.Some? && job.phase.reply.value.Returned? {
      GenuineStays(cfg, s, e, world0, job.inp.req.toolName, job.extra.key, job.phase.reply.value.result);
    }
  }

  lemma OtherStepRuns(cfg: Config, s: System, e: Event, j: nat)
    requires !(e.Invoke? && e.job < |s.jobs| && s.jobs[e.job].phase.Granted?)
    requires j < |Step(cfg, s, e).jobs| && Step(cfg, s, e).jobs[j].phase.Ran?
    ensures j < |s.jobs| && s.jobs[j] == Step(cfg, s, e).jobs[j]
  {}

  lemma InvokeStores(cfg: Config, s: System, e: Event, world0: World, tool: string)
    requires e.Invoke? && e.job < |s.jobs| && s.jobs[e.job].phase.Granted? && StoredGenuine(s, world0, tool)
    ensures StoredGenuine(Step(cfg, s, e), world0, tool)
  {
    var (s', job) := (Step(cfg, s, e), s.jobs[e.job]);
    var (memo, memo') := (MemoOf(s.world, tool), MemoOf(s'.world, tool));
    ExecutorReplies(s.world, job.inp.req, job.extra);
    forall key | key in memo' ensures Genuine(s', world0, tool, key, memo'[key]) {
      if key in memo && memo'[key] == memo[key] {
        GenuineStays(cfg, s, e, world0, tool, key, memo[key]);
      } else {
        if job.inp.req.toolName != tool { OtherMemosStay(s.world, job.inp.req, job.extra, tool); }
        assert Made(s', e.job, tool, key, memo'[key]);
      }
    }
  }

  lemma InvokeAnswers(cfg: Config, s: System, e: Event, world0: World)
    requires e.Invoke? && e.job < |s.jobs| && s.jobs[e.job].phase.Granted?
    requires StoredGenuine(s, world0, s.jobs[e.job].inp.req.toolName)
    ensures Step(cfg, s, e).jobs[e.job].phase.Ran?
    ensures Answered(Step(cfg, s, e), world0, Step(cfg, s, e).jobs[e.job])
  {
    var (s', job) := (Step(cfg, s, e), s.jobs[e.job]);
    var tool := job.inp.req.toolName;
    ExecutorReplies(s.world, job.inp.req, job.extra);
    InvokeStores(cfg, s, e, world0, tool);
    if Wired(tool) && s'.jobs[e.job].phase.reply.value.Returned? {
      assert job.extra.key in MemoOf(s'.world, tool);
    }
  }

  lemma InvokeKeepsOthers(cfg: Config, s: System, e: Event, j: nat)
    requires e.Invoke? && e.job < |s.jobs| && s.jobs[e.job].phase.Granted? && j != e.job
    requires j < |Step(cfg, s, e).jobs|
    ensures j < |s.jobs| && s.jobs[j] == Step(cfg, s, e).jobs[j]
  {}

  lemma StepAnswers(cfg: Config, s: System, e: Event, world0: World)
    requires AllAnswered(s, world0)
    ensures AllAnswered(Step(cfg, s, e), world0)
  {
    var s' := Step(cfg, s, e);
    var invokes := e.Invoke? && e.job < |s.jobs| && s.jobs[e.job].phase.Granted?;
    forall tool ensures StoredGenuine(s', world0, tool) {
      assert StoredGenuine(s, world0, tool);
      if invokes { InvokeStores(cfg, s, e, world0, tool); } else { OtherStepStores(cfg, s, e, world0, tool); }
    }
    forall j | 0 <= j < |s'.jobs| && s'.jobs[j].phase.Ran? ensures Answered(s', world0, s'.jobs[j]) {
      if invokes && j == e.job {
        InvokeAnswers(cfg, s, e, world0);
      } else {
        if invokes { InvokeKeepsOthers(cfg, s, e, j); } else { OtherStepRuns(cfg, s, e, j); }
        AnsweredStays(cfg, s, e, world0, s.jobs[j]);
      }
    }
  }

  lemma {:induction false} RunAnswers(cfg: Config, s: System, events: seq<Event>, world0: World)
    requires AllAnswered(s, world0)
    ensures AllAnswered(Run(cfg, s, events), world0)
    decreases |events|
  {
    if events != [] {
      StepAnswers(cfg, s, events[0], world0);
      RunAnswers(cfg, Step(cfg, s, events[0]), events[1..], world0);
    }
  }

  /** In every reachable state, whatever crashed in between, each invocation of a wired tool was answered with a
      result that was stored at the start or that some invocation of the same tool and key made, or was told that
      its own result does not validate; tools without an executor answer nothing. */
  lemma AnswersAreGenuine(
      cfg: Config, rows: Approvals.Rows, gateways: nat, world: World, events: seq<Event>, j: nat)
    requires
      var jobs := Run(cfg, Start(rows, gateways, world), events).jobs;
      j < |jobs| && jobs[j].phase.Ran?
    ensures
      var s := Run(cfg, Start(rows, gateways, world), events);
      Answered(s, world, s.jobs[j])
  {
    RunAnswers(cfg, Start(rows, gateways, world), events, world);
  }

  /* ---------- One key, one answer ---------- */

  predicate ReturnedResult(job: Job) {
    job.phase.Ran? && job.phase.reply.Some? && job.phase.reply.value.Returned?
  }

  /** A result this invocation returned is still what the store holds for its key. */
  predicate StillStored(s: System, job: Job) {
    ReturnedResult(job) ==>
      && job.extra.key in MemoOf(s.world, job.inp.req.toolName)
      && MemoOf(s.world, job.inp.req.toolName)[job.extra.key] == job.phase.reply.value.result
  }

  predicate AllStillStored(s: System) { forall j | 0 <= j < |s.jobs| :: StillStored(s, s.jobs[j]) }

  lemma MemoGrows(cfg: Config, s: System, e: Event, tool: string, key: string)
    requires !(e.Crash? && e.forget) && key in MemoOf(s.world, tool)
    ensures
      var memo' := MemoOf(Step(cfg, s, e).world, tool);
      key in memo' && memo'[key] == MemoOf(s.world, tool)[key]
  {
    if e.Invoke? && e.job < |s.jobs| && s.jobs[e.job].phase.Granted? {
      var job := s.jobs[e.job];
      if job.inp.req.toolName == tool {
        ExecutorReplies(s.world, job.inp.req, job.extra);
      } else {
        OtherMemosStay(s.world, job.inp.req, job.extra, tool);
      }
    }
  }

  lemma StepStillStores(cfg: Config, s: System, e: Event)
    requires !(e.Crash? && e.forget) && AllStillStored(s)
    ensures AllStillStored(Step(cfg, s, e))
  {
    var s' := Step(cfg, s, e);
    forall j | 0 <= j < |s'.jobs| ensures StillStored(s', s'.jobs[j]) {
      if j < |s.jobs| && s.jobs[j].phase.Ran? {
        StepKeepsRan(cfg, s, e);
        assert StillStored(s, s.jobs[j]);
        var job := s.jobs[j];
        if ReturnedResult(job) {
          MemoGrows(cfg, s, e, job.inp.req.toolName, job.extra.key);
        }
      } else if s'.jobs[j].phase.Ran? {
        ExecutorReplies(s.world, s.jobs[j].inp.req, s.jobs[j].extra);
      }
    }
  }

  lemma {:induction false} RunStillStores(cfg: Config, s: System, events: seq<Event>)
    requires forall e | e in events :: !(e.Crash? && e.forget)
    requires AllStillStored(s)
    ensures AllStillStored(Run(cfg, s, events))
    decreases |events|
  {
    if events != [] {
      assert events[0] in events;
      StepStillStores(cfg, s, events[0]);
      RunStillStores(cfg, Step(cfg, s, events[0]), events[1..]);
    }
  }

  /** In a run in which no crash forgets keys, any two invocations of one tool with one key, through whichever
      gateways, that were answered with a result were answered with the same one. */
  lemma OneKeyOneAnswer(
      cfg: Config, rows: Approvals.Rows, gateways: nat, world: World, events: seq<Event>, i: nat, j: nat)
    requires forall e | e in events :: !(e.Crash? && e.forget)
    requires
      var jobs := Run(cfg, Start(rows, gateways, world), events).jobs;
      && i < |jobs| && j < |jobs| && ReturnedResult(jobs[i]) && ReturnedResult(jobs[j])
      && jobs[i].inp.req.toolName == jobs[j].inp.req.toolName && jobs[i].extra.key == jobs[j].extra.key
    ensures
      var jobs := Run(cfg, Start(rows, gateways, world), events).jobs;
      jobs[i].phase.reply == jobs[j].phase.reply
  {
    var s := Run(cfg, Start(rows, gateways, world), events);
    RunStillStores(cfg, Start(rows, gateways, world), events);
    assert StillStored(s, s.jobs[i]) && StillStored(s, s.jobs[j]);
  }
}
