/** `mcp_gateway.Gateway`: the one decision between a request and an executor. */
module Gateways {
  import opened Options
  import opened Json
  import opened PlanHash
  import opened RateLimiting
  import opened Approvals

  /* ---------- Data ---------- */

  datatype SideEffect = ReadOnly | DryRunOnly | ReversibleWrite | Irreversible | Destructive

  const DENIED_IN_P0 := {Irreversible, Destructive}

  datatype Risk = Low | Medium | High | Critical

  datatype Tool = Tool(
    name: string,
    riskLevel: Risk,
    mode: seq<string>,
    requiredScope: string,
    approvalRequired: bool,
    targetAllowlistRequired: bool,
    sideEffectClass: SideEffect,
    callsPerMinute: int)

  type Catalog = map<string, Tool>

  /** What loading and schema-checking the catalog guarantees. */
  predicate ValidCatalog(catalog: Catalog) {
    forall key | key in catalog ::
      && catalog[key].name == key
      && catalog[key].callsPerMinute >= 1
      && (catalog[key].riskLevel in {High, Critical} ==>
            catalog[key].approvalRequired && catalog[key].targetAllowlistRequired)
  }

  datatype Config = Config(catalog: Catalog, allowlists: map<string, set<string>>, digest: Digest)

  /** Fields read with `.get`; a hash that is not text reads as `None`. */
  datatype Envelope = Envelope(
    envelopeHash: Option<string>,
    validUntil: Stamp,
    targetSet: Option<seq<string>>,
    allowedActions: Option<seq<string>>,
    requiredRunbook: Option<string>)

  datatype Verification = Verification(
    state: Option<string>,
    envelopeHash: Option<string>,
    toolName: Option<string>,
    target: Option<string>)

  datatype Request = Request(
    toolName: string,
    target: string,
    action: string,
    subject: string,
    callerToken: string,
    grantedScopes: set<string>,
    approval: Option<Approval>,
    safetyEnvelope: Option<Envelope>,
    verificationResult: Option<Verification>)

  datatype SafetyIssue =
    | NoEnvelope | BadEnvelopeHash | NoValidUntil | EnvelopeExpired | UnreadableValidUntil
    | TargetNotCovered | ActionNotCovered | WrongRunbook
    | NoVerification | NotVerified | OtherEnvelope | OtherToolOrTarget

  datatype Stage =
    | OutOfP0 | RateLimited | Mode | Scope | Allowlist
    | Safety(issue: SafetyIssue)
    | NoApproval | NoPlanHash | PlanHashUnbound
    | ApprovalRefused(reason: Reason)

  datatype Exception = ToolNotFound | TokenPassthrough | Field(fault: Fault)

  datatype Outcome = Allowed(credential: string) | Denied(stage: Stage) | Raised(exception: Exception)

  /* ---------- The safety chain ---------- */

  /** `^sha256:[a-f0-9]{64}$` as `re.match` reads it: `$` also matches before one final newline. */
  predicate IsHashRef(s: string) {
    && (|s| == 71 || (|s| == 72 && s[71] == '\n'))
    && s[..7] == PREFIX
    && forall i | 7 <= i < 71 :: IsHex(s[i])
  }

  /** What the pattern documents: `sha256:` and 64 hexadecimal digits. */
  ghost predicate CanonicalRef(s: string) {
    exists h: Hex64 :: s == PREFIX + h
  }

  /** What it accepts is that, or that and one newline. */
  lemma HashRefIff(s: string)
    ensures IsHashRef(s) <==> CanonicalRef(s) || exists r | CanonicalRef(r) :: s == r + "\n"
  {
    if IsHashRef(s) {
      var h := s[7..71];
      assert forall i | 0 <= i < |h| :: h[i] == s[i + 7];
      var r := PREFIX + h;
      assert CanonicalRef(r);
      assert s[..71] == r && s == r + s[71..];
    }
    forall h: Hex64 ensures IsHashRef(PREFIX + h) && IsHashRef(PREFIX + h + "\n") {
      var r, n := PREFIX + h, PREFIX + h + "\n";
      assert r[..7] == n[..7] == PREFIX;
      assert forall i | 7 <= i < 71 :: r[i] == h[i - 7] && n[i] == h[i - 7];
    }
  }

  function Runbook(tool: string): string { "runbooks/" + tool + ".md" }

  function Listed(list: Option<seq<string>>): seq<string> {
    if list.Some? then list.value else []
  }

  datatype SafetyVerdict = Safe | Unsafe(issue: SafetyIssue) | Broken(fault: Fault)

  function CheckSafetyChain(req: Request, tool: Tool, now: int): SafetyVerdict {
    if req.safetyEnvelope.None? then Unsafe(NoEnvelope)
    else
      var e := req.safetyEnvelope.value;
      if e.envelopeHash.None? || !IsHashRef(e.envelopeHash.value) then Unsafe(BadEnvelopeHash)
      else
        match e.validUntil
        case Absent => Unsafe(NoValidUntil)
        case NotText => Unsafe(NoValidUntil)
        case Unreadable => Unsafe(UnreadableValidUntil)
        case Naive => Broken(TypeError)
        case At(us) =>
          if now > us then Unsafe(EnvelopeExpired) else CheckBindings(req, tool, e)
  }

  function CheckBindings(req: Request, tool: Tool, e: Envelope): SafetyVerdict {
    if req.target !in Listed(e.targetSet) then Unsafe(TargetNotCovered)
    else if req.action !in Listed(e.allowedActions) then Unsafe(ActionNotCovered)
    else if e.requiredRunbook != Some(Runbook(tool.name)) then Unsafe(WrongRunbook)
    else if req.verificationResult.None? then Unsafe(NoVerification)
    else
      var v := req.verificationResult.value;
      if v.state != Some("VERIFIED") then Unsafe(NotVerified)
      else if v.envelopeHash != e.envelopeHash then Unsafe(OtherEnvelope)
      else if v.toolName != Some(tool.name) || v.target != Some(req.target) then Unsafe(OtherToolOrTarget)
      else Safe
  }

  predicate EnvelopeValid(e: Envelope, req: Request, tool: Tool, now: int) {
    && e.envelopeHash.Some? && IsHashRef(e.envelopeHash.value)
    && e.validUntil.At? && now <= e.validUntil.us
    && req.target in Listed(e.targetSet) && req.action in Listed(e.allowedActions)
    && e.requiredRunbook == Some(Runbook(tool.name))
  }

  /** The evidence an `execute` needs, in no particular order of checking. */
  predicate SafetyValid(req: Request, tool: Tool, now: int) {
    && req.safetyEnvelope.Some? && EnvelopeValid(req.safetyEnvelope.value, req, tool, now)
    && req.verificationResult == Some(Verification(
         Some("VERIFIED"), req.safetyEnvelope.value.envelopeHash, Some(tool.name), Some(req.target)))
  }

  lemma SafeIffSafetyValid(req: Request, tool: Tool, now: int)
    ensures CheckSafetyChain(req, tool, now) == Safe <==> SafetyValid(req, tool, now)
  {}

  /** The envelope is there, is well formed and has not expired. */
  predicate Live(req: Request, now: int) {
    && req.safetyEnvelope.Some?
    && var e := req.safetyEnvelope.value;
    && e.envelopeHash.Some? && IsHashRef(e.envelopeHash.value)
    && e.validUntil.At? && now <= e.validUntil.us
  }

  /** The list is given and names it. */
  predicate Covers(list: Option<seq<string>>, name: string) { list.Some? && name in list.value }

  /** It is bound to this target, this action and this tool's runbook. */
  predicate Bound(req: Request, tool: Tool, now: int) {
    && Live(req, now)
    && var e := req.safetyEnvelope.value;
    && Covers(e.targetSet, req.target) && Covers(e.allowedActions, req.action)
    && e.requiredRunbook == Some("runbooks/" + tool.name + ".md")
  }

  /** The answer names the first check that fails, in the order: envelope, its hash, its expiry, target, action,
      runbook; then the verification, its state, its envelope, its tool and target. */
  predicate SafetyAnswer(req: Request, tool: Tool, now: int, answer: SafetyVerdict) {
    match answer
    case Safe => Bound(req, tool, now) && SafetyValid(req, tool, now)
    case Unsafe(NoEnvelope) => req.safetyEnvelope.None?
    case _ => req.safetyEnvelope.Some? && EnvelopeAnswer(req, req.safetyEnvelope.value, tool, now, answer)
  }

  predicate EnvelopeAnswer(req: Request, e: Envelope, tool: Tool, now: int, answer: SafetyVerdict) {
    var hashed := e.envelopeHash.Some? && IsHashRef(e.envelopeHash.value);
    var covers := Covers(e.targetSet, req.target);
    match answer
    case Unsafe(BadEnvelopeHash) => !hashed
    case Unsafe(NoValidUntil) => hashed && e.validUntil in {Absent, NotText}
    case Unsafe(UnreadableValidUntil) => hashed && e.validUntil == Unreadable
    case Broken(fault) => hashed && e.validUntil == Naive && fault == TypeError
    case Unsafe(EnvelopeExpired) => hashed && e.validUntil.At? && now > e.validUntil.us
    case Unsafe(TargetNotCovered) => Live(req, now) && !covers
    case Unsafe(ActionNotCovered) => Live(req, now) && covers && !Covers(e.allowedActions, req.action)
    case Unsafe(WrongRunbook) =>
      && Live(req, now) && covers && Covers(e.allowedActions, req.action)
      && e.requiredRunbook != Some("runbooks/" + tool.name + ".md")
    case Unsafe(NoVerification) => Bound(req, tool, now) && req.verificationResult.None?
    case _ =>
      && Bound(req, tool, now) && req.verificationResult.Some?
      && VerificationAnswer(req, e, req.verificationResult.value, tool, answer)
  }

  predicate VerificationAnswer(req: Request, e: Envelope, v: Verification, tool: Tool, answer: SafetyVerdict) {
    var verified := v.state == Some("VERIFIED");
    match answer
    case Unsafe(NotVerified) => !verified
    case Unsafe(OtherEnvelope) => verified && v.envelopeHash != e.envelopeHash
    case Unsafe(OtherToolOrTarget) =>
      verified && v.envelopeHash == e.envelopeHash && !(v.toolName == Some(tool.name) && v.target == Some(req.target))
    case _ => false
  }

  lemma SafetyAnswerIsFirst(req: Request, tool: Tool, now: int)
    ensures SafetyAnswer(req, tool, now, CheckSafetyChain(req, tool, now))
  {
    SafeIffSafetyValid(req, tool, now);
  }

  function WithHash(req: Request, hash: string): Request
    requires req.safetyEnvelope.Some? && req.verificationResult.Some?
  {
    req.(safetyEnvelope := Some(req.safetyEnvelope.value.(envelopeHash := Some(hash))),
         verificationResult := Some(req.verificationResult.value.(envelopeHash := Some(hash))))
  }

  /** Evidence that passes still passes, and evidence that fails still fails, with a newline after its hash. */
  lemma TrailingNewlinePasses(req: Request, tool: Tool, now: int, hash: string)
    requires req.safetyEnvelope.Some? && req.verificationResult.Some? && CanonicalRef(hash)
    ensures !CanonicalRef(hash + "\n")
    ensures CheckSafetyChain(WithHash(req, hash + "\n"), tool, now) == CheckSafetyChain(WithHash(req, hash), tool, now)
  {
    HashRefIff(hash);
    HashRefIff(hash + "\n");
  }

  /* ---------- The decision, in the source's order ---------- */

  datatype StoreState = InMemory(ids: set<string>) | Durable(rows: Rows)

  function Spent(s: StoreState): set<string> {
    match s
    case InMemory(ids) => ids
    case Durable(rows) => rows.Keys
  }

  function Consume(digest: Digest, s: StoreState, c: Call, disk: Disk): (StoreState, Verdict) {
    match s
    case InMemory(ids) => var (ids', v) := ConsumeInMemory(digest, ids, c); (InMemory(ids'), v)
    case Durable(rows) => var (rows', v) := ConsumeDurable(digest, rows, c, disk); (Durable(rows'), v)
  }

  const EXECUTOR_ID := "mcp_gateway"

  /** The plan an approval for this request must have been signed for. */
  function BoundPlan(req: Request, tool: Tool): Plan {
    Plan(tool.name, req.target, req.action,
         [Member("safety_envelope_hash",
                 if req.safetyEnvelope.Some? && req.safetyEnvelope.value.envelopeHash.Some?
                 then Str(req.safetyEnvelope.value.envelopeHash.value) else Null)])
  }

  /** `current_plan_hash` is `None` when the caller passes none. */
  datatype Input = Input(req: Request, planHash: Option<string>, now: int, disk: Disk, credential: string)

  datatype Screening = Stop(outcome: Outcome) | Clear | NeedsApproval(call: Call)

  /** The checks between the rate limiter and the store. */
  function Screen(cfg: Config, tool: Tool, inp: Input): Screening {
    var req := inp.req;
    if req.action !in tool.mode then Stop(Denied(Mode))
    else if tool.requiredScope !in req.grantedScopes then Stop(Denied(Scope))
    else if tool.targetAllowlistRequired
            && !(tool.name in cfg.allowlists && req.target in cfg.allowlists[tool.name]) then Stop(Denied(Allowlist))
    else if req.action != "execute" then Clear
    else
      match CheckSafetyChain(req, tool, inp.now)
      case Unsafe(issue) => Stop(Denied(Safety(issue)))
      case Broken(fault) => Stop(Raised(Field(fault)))
      case Safe => if tool.approvalRequired then ScreenApproval(cfg, tool, inp) else Clear
  }

  function ScreenApproval(cfg: Config, tool: Tool, inp: Input): Screening {
    if inp.req.approval.None? then Stop(Denied(NoApproval))
    else if inp.planHash.None? then Stop(Denied(NoPlanHash))
    else if inp.planHash.value != ComputePlanHash(cfg.digest, BoundPlan(inp.req, tool))
    then Stop(Denied(PlanHashUnbound))
    else NeedsApproval(Call(inp.req.approval.value, inp.planHash.value, inp.req.subject, EXECUTOR_ID, inp.now))
  }

  function Mint(inp: Input): Outcome {
    if inp.credential == inp.req.callerToken then Raised(TokenPassthrough) else Allowed(inp.credential)
  }

  function AfterStore(v: Verdict, inp: Input): Outcome {
    match v
    case Accepted => Mint(inp)
    case Rejected(reason) => Denied(ApprovalRefused(reason))
    case Failed(fault) => Raised(Field(fault))
  }

  datatype GatewayState = GatewayState(calls: Calls, store: StoreState)

  function Decision(cfg: Config, s: GatewayState, inp: Input): (GatewayState, Outcome) {
    if inp.req.toolName !in cfg.catalog then (s, Raised(ToolNotFound))
    else
      var tool := cfg.catalog[inp.req.toolName];
      if tool.sideEffectClass in DENIED_IN_P0 then (s, Denied(OutOfP0))
      else
        var (calls', admitted) := Check(s.calls, tool.name, tool.callsPerMinute, inp.now);
        var s' := s.(calls := calls');
        if !admitted then (s', Denied(RateLimited))
        else
          match Screen(cfg, tool, inp)
          case Stop(outcome) => (s', outcome)
          case Clear => (s', Mint(inp))
          case NeedsApproval(call) =>
            var (store', v) := Consume(cfg.digest, s'.store, call, inp.disk);
            (s'.(store := store'), AfterStore(v, inp))
  }

  /* ---------- The object ---------- */

  datatype Store = MemoryStore(memory: ApprovalStore) | DurableStore(durable: DurableApprovalStore)

  class Gateway {
    const config: Config
    const limiter: RateLimiter
    const store: Store

    constructor (config: Config, limiter: RateLimiter, store: Store)
      ensures this.config == config && this.limiter == limiter && this.store == store
    {
      this.config := config;
      this.limiter := limiter;
      this.store := store;
    }

    ghost function Repr(): set<object> {
      {limiter} + match store case MemoryStore(m) => {m} case DurableStore(d) => {d.table}
    }

    ghost function View(): GatewayState
      reads Repr()
    {
      GatewayState(limiter.calls,
                   match store
                   case MemoryStore(m) => InMemory(m.consumed)
                   case DurableStore(d) => Durable(d.table.rows))
    }

    method Authorize(inp: Input) returns (outcome: Outcome)
      modifies Repr()
      ensures (View(), outcome) == Decision(config, old(View()), inp)
    {
      if inp.req.toolName !in config.catalog {
        return Raised(ToolNotFound);
      }
      var tool := config.catalog[inp.req.toolName];
      if tool.sideEffectClass in DENIED_IN_P0 {
        return Denied(OutOfP0);
      }
      var admitted := limiter.CheckAndRecord(tool.name, tool.callsPerMinute, inp.now);
      if !admitted {
        return Denied(RateLimited);
      }
      var screening := Screen(config, tool, inp);
      if screening.Stop? {
        return screening.outcome;
      }
      if screening.NeedsApproval? {
        var v;
        match store {
          case MemoryStore(m) => v := m.ValidateAndConsume(config.digest, screening.call);
          case DurableStore(d) => v := d.ValidateAndConsume(config.digest, screening.call, inp.disk);
        }
        return AfterStore(v, inp);
      }
      return Mint(inp);
    }
  }

  /* ---------- What a decision means ---------- */

  predicate WithinAllowlist(cfg: Config, tool: Tool, target: string) {
    tool.targetAllowlistRequired ==> tool.name in cfg.allowlists && target in cfg.allowlists[tool.name]
  }

  predicate UsesApproval(tool: Tool, req: Request) { req.action == "execute" && tool.approvalRequired }

  /** Everything about a request that does not depend on what happened before it. */
  predicate Permitted(cfg: Config, tool: Tool, inp: Input) {
    && tool.sideEffectClass !in DENIED_IN_P0
    && inp.req.action in tool.mode
    && tool.requiredScope in inp.req.grantedScopes
    && WithinAllowlist(cfg, tool, inp.req.target)
    && (inp.req.action == "execute" ==> SafetyValid(inp.req, tool, inp.now))
    && (UsesApproval(tool, inp.req) ==> ApprovalFits(cfg, tool, inp))
  }

  function CallOf(inp: Input): Call
    requires inp.req.approval.Some? && inp.planHash.Some?
  {
    Call(inp.req.approval.value, inp.planHash.value, inp.req.subject, EXECUTOR_ID, inp.now)
  }

  /** The approval is signed for the plan this request's own envelope determines. */
  predicate ApprovalFits(cfg: Config, tool: Tool, inp: Input) {
    && inp.req.approval.Some?
    && inp.planHash == Some(ComputePlanHash(cfg.digest, BoundPlan(inp.req, tool)))
    && FieldsValid(cfg.digest, CallOf(inp))
  }

  predicate StoreTakes(s: StoreState, tool: Tool, inp: Input)
    requires UsesApproval(tool, inp.req) ==> inp.req.approval.Some? && inp.req.approval.value.approvalId.Some?
  {
    UsesApproval(tool, inp.req) ==>
      inp.req.approval.value.approvalId.value !in Spent(s) && (s.Durable? ==> inp.disk == Answers)
  }

  lemma ScreenMeansPermitted(cfg: Config, tool: Tool, inp: Input)
    requires tool.sideEffectClass !in DENIED_IN_P0
    ensures Screen(cfg, tool, inp) == Clear <==> Permitted(cfg, tool, inp) && !UsesApproval(tool, inp.req)
    ensures Permitted(cfg, tool, inp) && UsesApproval(tool, inp.req) <==>
      Screen(cfg, tool, inp).NeedsApproval? && FieldsValid(cfg.digest, Screen(cfg, tool, inp).call)
    ensures Screen(cfg, tool, inp).NeedsApproval? ==>
      UsesApproval(tool, inp.req) && inp.req.approval.Some? && inp.planHash.Some?
      && Screen(cfg, tool, inp).call == CallOf(inp)
  {
    SafeIffSafetyValid(inp.req, tool, inp.now);
  }

  /** The store takes a call exactly when its fields are valid, its id is unspent and the disk answers.  Whenever
      the fields are valid and the disk does not fail first, that id and nothing else is spent afterwards. */
  lemma ConsumeMeans(digest: Digest, s: StoreState, c: Call, disk: Disk)
    ensures
      var (s', v) := Consume(digest, s, c, disk);
      && (v == Accepted <==>
            FieldsValid(digest, c) && c.approval.approvalId.value !in Spent(s) && (s.Durable? ==> disk == Answers))
      && Spent(s') == Spent(s) + if FieldsValid(digest, c) && (s.Durable? ==> disk != FailsUncommitted)
                                 then {c.approval.approvalId.value} else {}
  {
    AcceptedIffFieldsValid(digest, c);
  }

  /** `authorize` says yes to exactly these calls, whatever order it checks things in. */
  lemma AllowedIff(cfg: Config, s: GatewayState, inp: Input)
    ensures
      Decision(cfg, s, inp).1.Allowed? <==>
        && inp.req.toolName in cfg.catalog
        && var tool := cfg.catalog[inp.req.toolName];
        && Permitted(cfg, tool, inp)
        && Check(s.calls, tool.name, tool.callsPerMinute, inp.now).1
        && StoreTakes(s.store, tool, inp)
        && inp.credential != inp.req.callerToken
  {
    if inp.req.toolName in cfg.catalog && cfg.catalog[inp.req.toolName].sideEffectClass !in DENIED_IN_P0 {
      var tool := cfg.catalog[inp.req.toolName];
      ScreenMeansPermitted(cfg, tool, inp);
      if Screen(cfg, tool, inp).NeedsApproval? {
        ConsumeMeans(cfg.digest, s.store, CallOf(inp), inp.disk);
      }
    }
  }

  /** An allowed call carries the minted credential, never the caller's own token. */
  lemma AllowedIsMinted(cfg: Config, s: GatewayState, inp: Input, credential: string)
    requires Decision(cfg, s, inp).1 == Allowed(credential)
    ensures credential == inp.credential && credential != inp.req.callerToken
  {
    AllowedIff(cfg, s, inp);
  }

  /** Tools whose effect is irreversible or destructive are refused before anything else, whatever the request;
      no other tool is refused so. */
  lemma OutOfP0Iff(cfg: Config, s: GatewayState, inp: Input)
    requires inp.req.toolName in cfg.catalog
    ensures
      var effect := cfg.catalog[inp.req.toolName].sideEffectClass;
      && (Decision(cfg, s, inp).1 == Denied(OutOfP0) <==> effect.Irreversible? || effect.Destructive?)
      && (effect.Irreversible? || effect.Destructive? ==> Decision(cfg, s, inp).0 == s)
  {
    RefusalsAreTrue(cfg, s, inp);
  }

  /** What a permitted request is, in the names the catalog, the envelope and the approval use. */
  lemma PermittedReads(cfg: Config, tool: Tool, inp: Input)
    ensures
      var req := inp.req;
      Permitted(cfg, tool, inp) <==>
        && !tool.sideEffectClass.Irreversible? && !tool.sideEffectClass.Destructive?
        && req.action in tool.mode && tool.requiredScope in req.grantedScopes
        && (tool.targetAllowlistRequired ==> tool.name in cfg.allowlists && req.target in cfg.allowlists[tool.name])
        && (req.action == "execute" ==>
              && Bound(req, tool, inp.now)
              && var hash := req.safetyEnvelope.value.envelopeHash;
              && req.verificationResult == Some(Verification(Some("VERIFIED"), hash, Some(tool.name), Some(req.target)))
              && (tool.approvalRequired ==>
                    && req.approval.Some? && inp.planHash.Some?
                    && ApprovalReads(cfg.digest, req.approval.value, req.subject, inp.planHash.value, inp.now)
                    && inp.planHash.value == "sha256:" + cfg.digest(PlanText(
                         Plan(tool.name, req.target, req.action, [Member("safety_envelope_hash", Str(hash.value))])))))
  {
    SafeIffSafetyValid(inp.req, tool, inp.now);
    assert PREFIX == "sha256:";
  }

  /** Approved by someone other than the requester and the gateway, not expired, signed for this plan hash. */
  predicate ApprovalReads(digest: Digest, a: Approval, requester: string, planHash: string, now: int) {
    && a.decision == Some("APPROVE")
    && a.approverId.Some? && a.approverId.value != requester && a.approverId.value != "mcp_gateway"
    && a.expiresAt.At? && now <= a.expiresAt.us
    && a.approvalId.Some? && a.signatureRef == Some("sha256:" + digest(a.approvalId.value + ":" + planHash))
  }

  /** What each stage claims about the request it denies. */
  predicate StageIsTrue(cfg: Config, s: GatewayState, inp: Input, tool: Tool, stage: Stage) {
    var req := inp.req;
    match stage
    case OutOfP0 => tool.sideEffectClass in DENIED_IN_P0
    case RateLimited => !Check(s.calls, tool.name, tool.callsPerMinute, inp.now).1
    case Mode => req.action !in tool.mode
    case Scope => tool.requiredScope !in req.grantedScopes
    case Allowlist => !WithinAllowlist(cfg, tool, req.target)
    case Safety(_) => req.action == "execute" && !SafetyValid(req, tool, inp.now)
    case NoApproval => UsesApproval(tool, req) && req.approval.None?
    case NoPlanHash => UsesApproval(tool, req) && inp.planHash.None?
    case PlanHashUnbound =>
      && UsesApproval(tool, req) && inp.planHash.Some?
      && inp.planHash.value != ComputePlanHash(cfg.digest, BoundPlan(req, tool))
    case ApprovalRefused(reason) =>
      && UsesApproval(tool, req) && req.approval.Some? && inp.planHash.Some?
      && RefusalIsTrue(cfg.digest, Spent(s.store), CallOf(inp), inp.disk, reason)
  }

  predicate RefusalIsTrue(digest: Digest, spent: set<string>, c: Call, disk: Disk, reason: Reason) {
    var a := c.approval;
    match reason
    case Replay => a.approvalId.Some? && a.approvalId.value in spent
    case ApproverIsRequester => a.approverId == Some(c.requester)
    case ApproverIsExecutor => a.approverId == Some(c.executor)
    case NotApproved => a.decision.Some? && a.decision != Some("APPROVE")
    case Expired => a.expiresAt.At? && c.now > a.expiresAt.us
    case WrongSignature =>
      a.approvalId.Some? && a.signatureRef.Some?
      && a.signatureRef.value != ComputeSignatureRef(digest, a.approvalId.value, c.planHash)
    case StorageUnavailable => FieldsValid(digest, c) && disk != Answers
  }

  lemma ConsumeRefusesTruly(digest: Digest, s: StoreState, c: Call, disk: Disk)
    ensures
      match Consume(digest, s, c, disk).1
      case Rejected(reason) => RefusalIsTrue(digest, Spent(s), c, disk, reason)
      case Failed(_) => !FieldsValid(digest, c)
      case Accepted => FieldsValid(digest, c)
  {
    AcceptedIffFieldsValid(digest, c);
  }

  /** A denial names a condition that really fails, and an exception a request that really lacks something:
      an unknown tool, unreadable evidence, or a credential that would leak the caller's token. */
  lemma RefusalsAreTrue(cfg: Config, s: GatewayState, inp: Input)
    ensures
      match Decision(cfg, s, inp).1
      case Allowed(_) => true
      case Denied(stage) =>
        inp.req.toolName in cfg.catalog && StageIsTrue(cfg, s, inp, cfg.catalog[inp.req.toolName], stage)
      case Raised(ToolNotFound) => inp.req.toolName !in cfg.catalog
      case Raised(TokenPassthrough) =>
        inp.req.toolName in cfg.catalog && Permitted(cfg, cfg.catalog[inp.req.toolName], inp)
        && inp.credential == inp.req.callerToken
      case Raised(Field(_)) =>
        inp.req.toolName in cfg.catalog && !Permitted(cfg, cfg.catalog[inp.req.toolName], inp)
  {
    if inp.req.toolName in cfg.catalog && cfg.catalog[inp.req.toolName].sideEffectClass !in DENIED_IN_P0 {
      var tool := cfg.catalog[inp.req.toolName];
      SafeIffSafetyValid(inp.req, tool, inp.now);
      ScreenMeansPermitted(cfg, tool, inp);
      if Screen(cfg, tool, inp).NeedsApproval? {
        ConsumeRefusesTruly(cfg.digest, s.store, CallOf(inp), inp.disk);
      }
    }
  }

  /** The checks of `authorize` in their order. */
  predicate Fails(cfg: Config, s: GatewayState, inp: Input, tool: Tool, check: nat) {
    match check
    case 0 => tool.sideEffectClass.Irreversible? || tool.sideEffectClass.Destructive?
    case 1 => !Check(s.calls, tool.name, tool.callsPerMinute, inp.now).1
    case 2 => inp.req.action !in tool.mode
    case 3 => tool.requiredScope !in inp.req.grantedScopes
    case 4 => !WithinAllowlist(cfg, tool, inp.req.target)
    case 5 => inp.req.action == "execute" && CheckSafetyChain(inp.req, tool, inp.now) != Safe
    case 6 => UsesApproval(tool, inp.req) && inp.req.approval.None?
    case 7 => UsesApproval(tool, inp.req) && inp.planHash.None?
    case 8 =>
      && UsesApproval(tool, inp.req)
      && inp.planHash != Some(ComputePlanHash(cfg.digest, BoundPlan(inp.req, tool)))
    case _ => false
  }

  function Position(stage: Stage): nat {
    match stage
    case OutOfP0 => 0 case RateLimited => 1 case Mode => 2 case Scope => 3 case Allowlist => 4
    case Safety(_) => 5 case NoApproval => 6 case NoPlanHash => 7 case PlanHashUnbound => 8 case ApprovalRefused(_) => 9
  }

  ghost predicate PassesBefore(cfg: Config, s: GatewayState, inp: Input, tool: Tool, n: nat) {
    forall check: nat | check < n :: !Fails(cfg, s, inp, tool, check)
  }

  lemma PassesNine(cfg: Config, s: GatewayState, inp: Input, tool: Tool)
    requires !Fails(cfg, s, inp, tool, 0) && !Fails(cfg, s, inp, tool, 1)
    requires Screen(cfg, tool, inp).Clear? || Screen(cfg, tool, inp).NeedsApproval?
    ensures PassesBefore(cfg, s, inp, tool, 9)
  {}

  /** The checks after the rate limiter, in their order. */
  lemma ScreenIsFirst(cfg: Config, s: GatewayState, inp: Input, tool: Tool)
    requires !Fails(cfg, s, inp, tool, 0) && !Fails(cfg, s, inp, tool, 1)
    ensures
      match Screen(cfg, tool, inp)
      case Stop(Denied(stage)) =>
        && 2 <= Position(stage) < 9
        && PassesBefore(cfg, s, inp, tool, Position(stage)) && Fails(cfg, s, inp, tool, Position(stage))
        && (stage.Safety? ==> CheckSafetyChain(inp.req, tool, inp.now) == Unsafe(stage.issue))
      case Stop(Raised(exception)) =>
        && exception.Field? && CheckSafetyChain(inp.req, tool, inp.now) == Broken(exception.fault)
        && PassesBefore(cfg, s, inp, tool, 5)
      case Stop(Allowed(_)) => false
      case Clear => PassesBefore(cfg, s, inp, tool, 9)
      case NeedsApproval(call) =>
        PassesBefore(cfg, s, inp, tool, 9) && inp.req.approval.Some? && inp.planHash.Some? && call == CallOf(inp)
  {
    if Screen(cfg, tool, inp).Clear? || Screen(cfg, tool, inp).NeedsApproval? {
      PassesNine(cfg, s, inp, tool);
    }
  }

  /** A denial names the first check that fails, and quotes what the safety chain or the store answered; so does
      an exception. */
  predicate FirstFailure(cfg: Config, s: GatewayState, inp: Input, tool: Tool, outcome: Outcome) {
    match outcome
    case Allowed(_) => true
    case Denied(stage) =>
      && (Position(stage) < 9 ==> Fails(cfg, s, inp, tool, Position(stage)))
      && (stage.Safety? ==> CheckSafetyChain(inp.req, tool, inp.now) == Unsafe(stage.issue))
      && (stage.ApprovalRefused? ==>
            && inp.req.approval.Some? && inp.planHash.Some?
            && Consume(cfg.digest, s.store, CallOf(inp), inp.disk).1 == Rejected(stage.reason))
    case Raised(ToolNotFound) => false
    case Raised(TokenPassthrough) => inp.credential == inp.req.callerToken
    case Raised(Field(fault)) =>
      || CheckSafetyChain(inp.req, tool, inp.now) == Broken(fault)
      || (inp.req.approval.Some? && inp.planHash.Some?
          && Consume(cfg.digest, s.store, CallOf(inp), inp.disk).1 == Failed(fault))
  }

  /** How many checks passed before this outcome. */
  function Passed(cfg: Config, inp: Input, tool: Tool, outcome: Outcome): nat {
    match outcome
    case Denied(stage) => Position(stage)
    case Raised(Field(_)) => if CheckSafetyChain(inp.req, tool, inp.now).Broken? then 5 else 9
    case _ => 9
  }

  lemma OutcomeIsFirst(cfg: Config, s: GatewayState, inp: Input)
    requires inp.req.toolName in cfg.catalog
    ensures
      var (tool, outcome) := (cfg.catalog[inp.req.toolName], Decision(cfg, s, inp).1);
      FirstFailure(cfg, s, inp, tool, outcome) && PassesBefore(cfg, s, inp, tool, Passed(cfg, inp, tool, outcome))
  {
    var tool := cfg.catalog[inp.req.toolName];
    if !Fails(cfg, s, inp, tool, 0) && !Fails(cfg, s, inp, tool, 1) {
      ScreenIsFirst(cfg, s, inp, tool);
    }
  }

  /** What an execution allowed on an approval shows about its signature. */
  lemma AllowedOnSignature(cfg: Config, s: GatewayState, inp: Input)
    requires inp.req.toolName in cfg.catalog && UsesApproval(cfg.catalog[inp.req.toolName], inp.req)
    requires Decision(cfg, s, inp).1.Allowed?
    ensures
      var tool := cfg.catalog[inp.req.toolName];
      && inp.req.safetyEnvelope.Some? && inp.req.safetyEnvelope.value.envelopeHash.Some?
      && inp.req.approval.Some? && inp.req.approval.value.approvalId.Some?
      && inp.req.approval.value.signatureRef == Some(ComputeSignatureRef(
           cfg.digest, inp.req.approval.value.approvalId.value, ComputePlanHash(cfg.digest, BoundPlan(inp.req, tool))))
  {
    AllowedIff(cfg, s, inp);
  }

  /** The plan names the request's tool, target and action, and its only parameter is the envelope's hash. */
  ghost predicate PlanIsFor(plan: Plan, req: Request, tool: Tool) {
    && plan.tool == tool.name && plan.target == req.target && plan.action == req.action
    && req.safetyEnvelope.Some? && req.safetyEnvelope.value.envelopeHash.Some?
    && plan.params == [Member("safety_envelope_hash", Str(req.safetyEnvelope.value.envelopeHash.value))]
  }

  lemma SamePlanIsFor(plan: Plan, req: Request, tool: Tool)
    requires SamePlan(plan, BoundPlan(req, tool))
    requires req.safetyEnvelope.Some? && req.safetyEnvelope.value.envelopeHash.Some?
    ensures PlanIsFor(plan, req, tool)
  {
    var ps, qs := plan.params, BoundPlan(req, tool).params;
    assert Equal(Obj(ps), Obj(qs));
    assert SameMember(ps[0], qs[0]);
    assert Equal(ps[0].value, qs[0].value);
    assert ps == [ps[0]];
  }

  /** An approval made for one plan is accepted only for requests with that tool, target, action and
      envelope hash, unless two of the hashed texts collide. */
  lemma ApprovalBindsPlan(cfg: Config, s: GatewayState, inp: Input, id: string, plan: Plan)
    requires inp.req.toolName in cfg.catalog && ValidPlan(plan)
    requires UsesApproval(cfg.catalog[inp.req.toolName], inp.req) && Decision(cfg, s, inp).1.Allowed?
    requires inp.req.approval.Some?
          && inp.req.approval.value.signatureRef
               == Some(ComputeSignatureRef(cfg.digest, id, ComputePlanHash(cfg.digest, plan)))
    ensures
      var tool := cfg.catalog[inp.req.toolName];
      var bound := BoundPlan(inp.req, tool);
      && inp.req.approval.value.approvalId.Some?
      && var id' := inp.req.approval.value.approvalId.value;
      || (id' == id && PlanIsFor(plan, inp.req, tool))
      || Collision(cfg.digest, PlanText(plan), PlanText(bound))
      || Collision(cfg.digest, SignatureText(id, ComputePlanHash(cfg.digest, plan)),
                               SignatureText(id', ComputePlanHash(cfg.digest, bound)))
  {
    AllowedOnSignature(cfg, s, inp);
    var bound := BoundPlan(inp.req, cfg.catalog[inp.req.toolName]);
    SignatureBindsPlan(cfg.digest, id, plan, inp.req.approval.value.approvalId.value, bound);
    if SamePlan(plan, bound) {
      SamePlanIsFor(plan, inp.req, cfg.catalog[inp.req.toolName]);
    }
  }

  /** With a schema-checked catalog an executed high-risk tool always spent an approval, inside its allowlist. */
  lemma HighRiskNeedsApproval(cfg: Config, s: GatewayState, inp: Input)
    requires ValidCatalog(cfg.catalog) && inp.req.toolName in cfg.catalog
    requires cfg.catalog[inp.req.toolName].riskLevel in {High, Critical}
    requires inp.req.action == "execute" && Decision(cfg, s, inp).1.Allowed?
    ensures
      var (s', tool) := (Decision(cfg, s, inp).0, cfg.catalog[inp.req.toolName]);
      && tool.name in cfg.allowlists && inp.req.target in cfg.allowlists[tool.name]
      && exists id :: id !in Spent(s.store) && Spent(s'.store) == Spent(s.store) + {id}
  {
    AllowedIff(cfg, s, inp);
    ConsumeMeans(cfg.digest, s.store, CallOf(inp), inp.disk);
    ScreenMeansPermitted(cfg, cfg.catalog[inp.req.toolName], inp);
    assert inp.req.approval.value.approvalId.value !in Spent(s.store);
  }
}
