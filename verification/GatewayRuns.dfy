/** Whole runs of one gateway, over either store. */
module GatewayRuns {
  import opened Options
  import opened Gateways
  import opened PlanHash
  import opened RateLimiting
  import Approvals
  import Json

  function RunGateway(cfg: Config, s: GatewayState, inputs: seq<Input>): (r: (GatewayState, seq<Outcome>))
    ensures |r.1| == |inputs|
    decreases |inputs|
  {
    if inputs == [] then (s, [])
    else
      var (s', outcome) := Decision(cfg, s, inputs[0]);
      var (last, outcomes) := RunGateway(cfg, s', inputs[1..]);
      (last, [outcome] + outcomes)
  }

  predicate TimesInOrder(inputs: seq<Input>) {
    forall i, j | 0 <= i < j < |inputs| :: inputs[i].now <= inputs[j].now
  }

  /* ---------- The rate limit bounds what a gateway lets through ---------- */

  /** Calls of unknown tools and of tools out of scope never reach the limiter. */
  predicate ReachesLimiter(cfg: Config, inp: Input) {
    inp.req.toolName in cfg.catalog && cfg.catalog[inp.req.toolName].sideEffectClass !in DENIED_IN_P0
  }

  function AttemptOf(cfg: Config, inp: Input): Attempt
    requires ReachesLimiter(cfg, inp)
  {
    var tool := cfg.catalog[inp.req.toolName];
    Attempt(tool.name, tool.callsPerMinute, inp.now)
  }

  function AttemptsOf(cfg: Config, inputs: seq<Input>): seq<Attempt> {
    if inputs == [] then []
    else if ReachesLimiter(cfg, inputs[0]) then [AttemptOf(cfg, inputs[0])] + AttemptsOf(cfg, inputs[1..])
    else AttemptsOf(cfg, inputs[1..])
  }

  predicate LetThrough(inp: Input, outcome: Outcome, tool: string, lo: int, hi: int) {
    outcome.Allowed? && inp.req.toolName == tool && lo < inp.now <= hi
  }

  /** How many calls of a tool were allowed in (lo, hi]. */
  function AllowedCount(inputs: seq<Input>, outcomes: seq<Outcome>, tool: string, lo: int, hi: int): nat
    requires |inputs| == |outcomes|
  {
    if inputs == [] then 0
    else (if LetThrough(inputs[0], outcomes[0], tool, lo, hi) then 1 else 0)
         + AllowedCount(inputs[1..], outcomes[1..], tool, lo, hi)
  }

  lemma AllowedIsAdmitted(cfg: Config, s: GatewayState, inp: Input)
    ensures
      var (s', outcome) := Decision(cfg, s, inp);
      if ReachesLimiter(cfg, inp) then
        var a := AttemptOf(cfg, inp);
        s'.calls == Check(s.calls, a.tool, a.limit, a.now).0
        && (outcome.Allowed? ==> Check(s.calls, a.tool, a.limit, a.now).1)
      else s'.calls == s.calls && !outcome.Allowed?
  {}

  lemma {:induction false} AllowedAtMostAdmitted(
      cfg: Config, s: GatewayState, inputs: seq<Input>, tool: string, lo: int, hi: int)
    requires ValidCatalog(cfg.catalog)
    ensures AllowedCount(inputs, RunGateway(cfg, s, inputs).1, tool, lo, hi)
         <= Admitted(AttemptsOf(cfg, inputs), Run(s.calls, AttemptsOf(cfg, inputs)).1, tool, lo, hi)
    decreases |inputs|
  {
    if inputs != [] {
      var s' := Decision(cfg, s, inputs[0]).0;
      var attempts := AttemptsOf(cfg, inputs);
      AllowedIsAdmitted(cfg, s, inputs[0]);
      AllowedAtMostAdmitted(cfg, s', inputs[1..], tool, lo, hi);
      assert RunGateway(cfg, s, inputs).1[1..] == RunGateway(cfg, s', inputs[1..]).1;
      if ReachesLimiter(cfg, inputs[0]) {
        assert attempts[1..] == AttemptsOf(cfg, inputs[1..]);
        assert Run(s.calls, attempts).1[1..] == Run(s'.calls, attempts[1..]).1;
        AdmittedCons(attempts, Run(s.calls, attempts).1, tool, lo, hi);
      }
    }
  }

  lemma {:induction false} AttemptsInOrder(cfg: Config, inputs: seq<Input>)
    requires TimesInOrder(inputs)
    ensures InOrder(AttemptsOf(cfg, inputs))
    ensures forall a | a in AttemptsOf(cfg, inputs) ::
      (inputs != [] ==> inputs[0].now <= a.now)
      && exists key | key in cfg.catalog ::
          a.tool == cfg.catalog[key].name && a.limit == cfg.catalog[key].callsPerMinute
  {
    if inputs != [] {
      AttemptsInOrder(cfg, inputs[1..]);
    }
  }

  /** A fresh gateway whose clock does not go back lets at most k times a tool's limit through in any k
      minutes, whatever else it is asked in between. */
  lemma ThroughputBounded(cfg: Config, store: StoreState, inputs: seq<Input>, tool: string, x: int, k: nat)
    requires ValidCatalog(cfg.catalog) && tool in cfg.catalog && TimesInOrder(inputs)
    ensures AllowedCount(inputs, RunGateway(cfg, GatewayState(map[], store), inputs).1, tool, x, x + k * 60_000_000)
         <= k * cfg.catalog[tool].callsPerMinute
  {
    AttemptsInOrder(cfg, inputs);
    AllowedAtMostAdmitted(cfg, GatewayState(map[], store), inputs, tool, x, x + k * WINDOW);
    AdmissionsBounded(AttemptsOf(cfg, inputs), tool, cfg.catalog[tool].callsPerMinute, x, k);
  }

  /* ---------- Approvals spent are executions allowed ---------- */

  /** An `execute` that was allowed on the strength of an approval. */
  predicate AllowedOnApproval(cfg: Config, inp: Input, outcome: Outcome) {
    && inp.req.toolName in cfg.catalog
    && UsesApproval(cfg.catalog[inp.req.toolName], inp.req)
    && outcome.Allowed?
  }

  function IdOf(inp: Input): set<string> {
    if inp.req.approval.Some? && inp.req.approval.value.approvalId.Some?
    then {inp.req.approval.value.approvalId.value} else {}
  }

  /** The approval ids of the executions allowed on them. */
  function UsedIds(cfg: Config, inputs: seq<Input>, outcomes: seq<Outcome>): set<string>
    requires |inputs| == |outcomes|
  {
    if inputs == [] then {}
    else (if AllowedOnApproval(cfg, inputs[0], outcomes[0]) then IdOf(inputs[0]) else {})
         + UsedIds(cfg, inputs[1..], outcomes[1..])
  }

  function ApprovalsUsed(cfg: Config, inputs: seq<Input>, outcomes: seq<Outcome>): nat
    requires |inputs| == |outcomes|
  {
    if inputs == [] then 0
    else (if AllowedOnApproval(cfg, inputs[0], outcomes[0]) then 1 else 0)
         + ApprovalsUsed(cfg, inputs[1..], outcomes[1..])
  }

  /** Whether the decision gets as far as the store with an approval whose fields are valid. */
  predicate ReachesStore(cfg: Config, s: GatewayState, inp: Input) {
    && inp.req.toolName in cfg.catalog
    && var tool := cfg.catalog[inp.req.toolName];
    && UsesApproval(tool, inp.req) && Permitted(cfg, tool, inp)
    && Check(s.calls, tool.name, tool.callsPerMinute, inp.now).1
  }

  /** The call gets past every check, its id is new, and then the approval is lost: the database fails after
      committing, or the minted credential is the caller's token. */
  predicate LosesApproval(cfg: Config, s: GatewayState, inp: Input) {
    && ReachesStore(cfg, s, inp) && IdOf(inp) !! Spent(s.store)
    && (if s.store.Durable? && inp.disk != Approvals.Answers then inp.disk == Approvals.FailsCommitted
        else inp.credential == inp.req.callerToken)
  }

  lemma DecisionMoves(cfg: Config, s: GatewayState, inp: Input)
    ensures ReachesStore(cfg, s, inp) ==> IdOf(inp) != {}
    ensures Spent(Decision(cfg, s, inp).0.store)
         == Spent(s.store)
            + if ReachesStore(cfg, s, inp) && (s.store.Durable? ==> inp.disk != Approvals.FailsUncommitted)
              then IdOf(inp) else {}
  {
    if ReachesLimiter(cfg, inp) {
      var tool := cfg.catalog[inp.req.toolName];
      ScreenMeansPermitted(cfg, tool, inp);
      if Screen(cfg, tool, inp).NeedsApproval? {
        ConsumeMeans(cfg.digest, s.store, CallOf(inp), inp.disk);
      }
    }
  }

  /** One decision spends the approval of an execution it allows, or one it loses, and otherwise nothing. */
  lemma DecisionSpends(cfg: Config, s: GatewayState, inp: Input)
    ensures
      var (s', outcome) := Decision(cfg, s, inp);
      var used := AllowedOnApproval(cfg, inp, outcome);
      var lost := LosesApproval(cfg, s, inp);
      && !(used && lost)
      && (used || lost ==> IdOf(inp) != {} && IdOf(inp) !! Spent(s.store))
      && Spent(s'.store) == Spent(s.store) + if used || lost then IdOf(inp) else {}
  {
    AllowedIff(cfg, s, inp);
    DecisionMoves(cfg, s, inp);
  }

  /** What one decision uses and loses. */
  function UsedNow(cfg: Config, s: GatewayState, inp: Input): set<string> {
    if AllowedOnApproval(cfg, inp, Decision(cfg, s, inp).1) then IdOf(inp) else {}
  }

  function LostNow(cfg: Config, s: GatewayState, inp: Input): set<string> {
    if LosesApproval(cfg, s, inp) then IdOf(inp) else {}
  }

  /** The approvals lost along a run. */
  function LostIds(cfg: Config, s: GatewayState, inputs: seq<Input>): set<string>
    decreases |inputs|
  {
    if inputs == [] then {}
    else LostNow(cfg, s, inputs[0])
         + LostIds(cfg, Decision(cfg, s, inputs[0]).0, inputs[1..])
  }

  /** Some decision of the run loses an approval. */
  predicate LosesSome(cfg: Config, s: GatewayState, inputs: seq<Input>)
    decreases |inputs|
  {
    inputs != []
    && (LosesApproval(cfg, s, inputs[0]) || LosesSome(cfg, Decision(cfg, s, inputs[0]).0, inputs[1..]))
  }

  /** `used` and `lost`, of which `count` were used, are what was spent between `spent` and `spent'`. */
  ghost predicate Accounts(spent: set<string>, spent': set<string>, used: set<string>, lost: set<string>, count: nat) {
    spent' == spent + used + lost && used !! lost && used + lost !! spent && |used| == count
  }

  lemma AccountsAdd(spent: set<string>, used: set<string>, lost: set<string>, count: nat, mid: set<string>,
                    used': set<string>, lost': set<string>, count': nat, spent': set<string>)
    requires Accounts(spent, mid, used, lost, count) && Accounts(mid, spent', used', lost', count')
    ensures Accounts(spent, spent', used + used', lost + lost', count + count')
  {}

  lemma DecisionAccounts(cfg: Config, s: GatewayState, inp: Input)
    ensures Accounts(Spent(s.store), Spent(Decision(cfg, s, inp).0.store), UsedNow(cfg, s, inp), LostNow(cfg, s, inp),
                     if AllowedOnApproval(cfg, inp, Decision(cfg, s, inp).1) then 1 else 0)
    ensures LostNow(cfg, s, inp) != {} <==> LosesApproval(cfg, s, inp)
  {
    DecisionSpends(cfg, s, inp);
  }

  lemma RunCons(cfg: Config, s: GatewayState, inputs: seq<Input>)
    requires inputs != []
    ensures
      var (s', outcome) := Decision(cfg, s, inputs[0]);
      var (last, outcomes) := RunGateway(cfg, s', inputs[1..]);
      var all := RunGateway(cfg, s, inputs).1;
      && RunGateway(cfg, s, inputs).0 == last
      && UsedIds(cfg, inputs, all) == UsedNow(cfg, s, inputs[0]) + UsedIds(cfg, inputs[1..], outcomes)
      && ApprovalsUsed(cfg, inputs, all)
           == (if AllowedOnApproval(cfg, inputs[0], outcome) then 1 else 0) + ApprovalsUsed(cfg, inputs[1..], outcomes)
  {
    var (s', outcome) := Decision(cfg, s, inputs[0]);
    var (last, outcomes) := RunGateway(cfg, s', inputs[1..]);
    assert RunGateway(cfg, s, inputs) == (last, [outcome] + outcomes);
    assert ([outcome] + outcomes)[1..] == outcomes;
  }

  /** Over any run the ids newly spent are those of the allowed executions that needed an approval and those of
      the approvals lost; the two never meet, and no id is used twice. */
  lemma {:induction false} RunSpends(cfg: Config, s: GatewayState, inputs: seq<Input>)
    ensures
      var (s', outcomes) := RunGateway(cfg, s, inputs);
      Accounts(Spent(s.store), Spent(s'.store), UsedIds(cfg, inputs, outcomes), LostIds(cfg, s, inputs),
               ApprovalsUsed(cfg, inputs, outcomes))
    ensures LostIds(cfg, s, inputs) != {} <==> LosesSome(cfg, s, inputs)
    decreases |inputs|
  {
    if inputs != [] {
      var (s', outcome) := Decision(cfg, s, inputs[0]);
      var (last, outcomes) := RunGateway(cfg, s', inputs[1..]);
      DecisionAccounts(cfg, s, inputs[0]);
      RunSpends(cfg, s', inputs[1..]);
      RunCons(cfg, s, inputs);
      AccountsAdd(Spent(s.store), UsedNow(cfg, s, inputs[0]), LostNow(cfg, s, inputs[0]),
                  if AllowedOnApproval(cfg, inputs[0], outcome) then 1 else 0, Spent(s'.store),
                  UsedIds(cfg, inputs[1..], outcomes), LostIds(cfg, s', inputs[1..]),
                  ApprovalsUsed(cfg, inputs[1..], outcomes), Spent(last.store));
    }
  }

  /** Over a run the spent ids grow by exactly the ids of the allowed executions that needed an approval, each
      once, if and only if no decision of the run loses an approval. */
  lemma RunSpendsWhatItAllows(cfg: Config, s: GatewayState, inputs: seq<Input>)
    ensures
      var (s', outcomes) := RunGateway(cfg, s, inputs);
      var used := UsedIds(cfg, inputs, outcomes);
      && (Spent(s'.store) == Spent(s.store) + used <==> !LosesSome(cfg, s, inputs))
      && (|Spent(s'.store)| == |Spent(s.store)| + ApprovalsUsed(cfg, inputs, outcomes) <==> !LosesSome(cfg, s, inputs))
      && used !! Spent(s.store) && |used| == ApprovalsUsed(cfg, inputs, outcomes)
  {
    RunSpends(cfg, s, inputs);
    var (s', outcomes) := RunGateway(cfg, s, inputs);
    var used, lost := UsedIds(cfg, inputs, outcomes), LostIds(cfg, s, inputs);
    assert |Spent(s'.store)| == |Spent(s.store)| + |used| + |lost|;
  }

  /** A call that would be allowed with any other credential spends its approval and raises when the minted one
      equals the caller's token. */
  lemma TokenCollisionLosesApproval(cfg: Config, s: GatewayState, inp: Input)
    requires Decision(cfg, s, inp.(credential := inp.req.callerToken + "x")).1.Allowed?
    requires UsesApproval(cfg.catalog[inp.req.toolName], inp.req) && inp.credential == inp.req.callerToken
    ensures
      var (s', outcome) := Decision(cfg, s, inp);
      outcome == Raised(TokenPassthrough) && Spent(s'.store) == Spent(s.store) + IdOf(inp) != Spent(s.store)
  {
    var other := inp.(credential := inp.req.callerToken + "x");
    var tool := cfg.catalog[inp.req.toolName];
    AllowedIff(cfg, s, other);
    ScreenMeansPermitted(cfg, tool, other);
    ConsumeMeans(cfg.digest, s.store, CallOf(inp), inp.disk);
    assert Screen(cfg, tool, inp) == Screen(cfg, tool, other);
  }

  /** A call that would be allowed with a database that answers is denied, its approval spent, when the
      database fails after committing. */
  lemma CommitFailureLosesApproval(cfg: Config, s: GatewayState, inp: Input)
    requires s.store.Durable? && Decision(cfg, s, inp.(disk := Approvals.Answers)).1.Allowed?
    requires UsesApproval(cfg.catalog[inp.req.toolName], inp.req) && inp.disk == Approvals.FailsCommitted
    ensures
      var (s', outcome) := Decision(cfg, s, inp);
      && outcome == Denied(ApprovalRefused(Approvals.StorageUnavailable))
      && Spent(s'.store) == Spent(s.store) + IdOf(inp) != Spent(s.store)
  {
    var other := inp.(disk := Approvals.Answers);
    var tool := cfg.catalog[inp.req.toolName];
    AllowedIff(cfg, s, other);
    ScreenMeansPermitted(cfg, tool, other);
    Approvals.AcceptedIffFieldsValid(cfg.digest, CallOf(inp));
    assert Screen(cfg, tool, inp) == Screen(cfg, tool, other);
  }

  /* ---------- One signature, one plan ---------- */

  /** The two executions are of one tool, target, action and safety envelope. */
  predicate SamePlanned(inp: Input, inp': Input) {
    && inp.req.safetyEnvelope.Some? && inp'.req.safetyEnvelope.Some?
    && inp.req.toolName == inp'.req.toolName && inp.req.target == inp'.req.target && inp.req.action == inp'.req.action
    && inp.req.safetyEnvelope.value.envelopeHash == inp'.req.safetyEnvelope.value.envelopeHash
  }

  lemma SameBoundPlan(cfg: Config, inp: Input, inp': Input)
    requires ValidCatalog(cfg.catalog) && inp.req.toolName in cfg.catalog && inp'.req.toolName in cfg.catalog
    requires inp.req.safetyEnvelope.Some? && inp.req.safetyEnvelope.value.envelopeHash.Some?
    requires inp'.req.safetyEnvelope.Some? && inp'.req.safetyEnvelope.value.envelopeHash.Some?
    requires SamePlan(BoundPlan(inp.req, cfg.catalog[inp.req.toolName]),
                      BoundPlan(inp'.req, cfg.catalog[inp'.req.toolName]))
    ensures SamePlanned(inp, inp')
  {
    var p := BoundPlan(inp.req, cfg.catalog[inp.req.toolName]).params;
    var q := BoundPlan(inp'.req, cfg.catalog[inp'.req.toolName]).params;
    assert Json.Equal(Json.Obj(p), Json.Obj(q));
    assert Json.SameMember(p[0], q[0]);
    assert Json.Equal(p[0].value, q[0].value);
  }

  /** Whatever happened in between, two executions allowed on one signature are of the same plan, unless two
      of the texts hashed for them collide. */
  lemma OneSignatureOnePlan(cfg: Config, s: GatewayState, inp: Input, s': GatewayState, inp': Input)
    requires ValidCatalog(cfg.catalog)
    requires AllowedOnApproval(cfg, inp, Decision(cfg, s, inp).1)
    requires AllowedOnApproval(cfg, inp', Decision(cfg, s', inp').1)
    requires inp.req.approval.Some? && inp'.req.approval.Some?
    requires inp.req.approval.value.signatureRef == inp'.req.approval.value.signatureRef
    ensures inp.req.approval.value.approvalId.Some? && inp'.req.approval.value.approvalId.Some?
    ensures
      var p := BoundPlan(inp.req, cfg.catalog[inp.req.toolName]);
      var q := BoundPlan(inp'.req, cfg.catalog[inp'.req.toolName]);
      var (id, id') := (inp.req.approval.value.approvalId.value, inp'.req.approval.value.approvalId.value);
      || (id == id' && SamePlanned(inp, inp'))
      || Collision(cfg.digest, PlanText(p), PlanText(q))
      || Collision(cfg.digest, SignatureText(id, ComputePlanHash(cfg.digest, p)),
                               SignatureText(id', ComputePlanHash(cfg.digest, q)))
  {
    AllowedOnSignature(cfg, s, inp);
    AllowedOnSignature(cfg, s', inp');
    var p := BoundPlan(inp.req, cfg.catalog[inp.req.toolName]);
    var q := BoundPlan(inp'.req, cfg.catalog[inp'.req.toolName]);
    SignatureBindsPlan(cfg.digest, inp.req.approval.value.approvalId.value, p,
                       inp'.req.approval.value.approvalId.value, q);
    if SamePlan(p, q) {
      SameBoundPlan(cfg, inp, inp');
    }
  }
}
