/** Privilege escalation findings over a built graph. */
module Escalation {
  import opened Options
  import opened Sequences
  import opened Graphs
  import BlastRadius

  datatype Reason = TotalWildcard | GrantsRbac | PodExec | ReadsSecrets

  datatype Severity = Critical | High

  /** `kind` and `reason` determine the path text. */
  datatype Finding = Finding(subject: string, kind: string, rule: PolicyRule, reason: Reason, severity: Severity)

  datatype Pattern = Pattern(resources: set<string>, verbs: set<string>, reason: Reason)

  const PATTERNS: seq<Pattern> := [
    Pattern({"*"}, {"*"}, TotalWildcard),
    Pattern({"roles", "clusterroles", "rolebindings", "clusterrolebindings"}, {"bind", "escalate", "impersonate", "*"},
            GrantsRbac),
    Pattern({"pods/exec", "pods/attach"}, {"create", "*"}, PodExec),
    Pattern({"secrets"}, {"get", "list", "watch", "*"}, ReadsSecrets)
  ]

  predicate RuleMatches(rule: PolicyRule, p: Pattern) {
    var resources, verbs := set r | r in rule.resources, set v | v in rule.verbs;
    ("*" in resources || resources * p.resources != {}) && ("*" in verbs || verbs * p.verbs != {})
  }

  function FindingFor(s: Subject, rule: PolicyRule, p: Pattern): Finding {
    Finding(BlastRadius.Label(s), s.kind, rule, p.reason, if p.resources == {"*"} then Critical else High)
  }

  predicate Subsumes(p: Pattern) { p.resources == {"*"} && p.verbs == {"*"} }

  /** The findings of one rule over the remaining patterns, stopping after the total wildcard. */
  function Scan(s: Subject, rule: PolicyRule, patterns: seq<Pattern>): seq<Finding> {
    if patterns == [] then []
    else if !RuleMatches(rule, patterns[0]) then Scan(s, rule, patterns[1..])
    else [FindingFor(s, rule, patterns[0])] + if Subsumes(patterns[0]) then [] else Scan(s, rule, patterns[1..])
  }

  function RuleFindings(s: Subject): PolicyRule -> seq<Finding> {
    (rule: PolicyRule) => Scan(s, rule, PATTERNS)
  }

  function SubjectFindings(g: Graph): Subject -> seq<Finding> {
    (s: Subject) => FlatMap(RuleFindings(s), RulesOf(g, s))
  }

  function SubjectsIn(rb: RoleBindingDef): seq<Subject> { rb.subjects }

  /** Every bound subject once, in the order first seen. */
  function BoundSubjects(g: Graph): seq<Subject> {
    Distinct(FlatMap(SubjectsIn, g.roleBindings))
  }

  function Findings(g: Graph): seq<Finding> {
    FlatMap(SubjectFindings(g), BoundSubjects(g))
  }

  /* ---------- The loops ---------- */

  /** One binding's subjects, after those of the bindings `before` it. */
  method SeeSubjects(seen: seq<Subject>, subjects: seq<Subject>, ghost before: seq<Subject>) returns (r: seq<Subject>)
    requires seen == Distinct(before)
    ensures r == Distinct(before + subjects)
  {
    r := seen;
    ghost var past := before;
    for k := 0 to |subjects|
      invariant |past| == |before| + k && past + subjects[k..] == before + subjects
      invariant r == Distinct(past)
    {
      DistinctSnoc(past, subjects[k]);
      past := past + [subjects[k]];
      if subjects[k] !in r {
        r := r + [subjects[k]];
      }
    }
    assert past + subjects[|subjects|..] == past;
  }

  method SeenSubjects(bindings: seq<RoleBindingDef>) returns (seen: seq<Subject>)
    ensures seen == Distinct(FlatMap(SubjectsIn, bindings))
  {
    seen := [];
    for i := 0 to |bindings|
      invariant seen == Distinct(FlatMap(SubjectsIn, bindings[..i]))
    {
      seen := SeeSubjects(seen, bindings[i].subjects, FlatMap(SubjectsIn, bindings[..i]));
      assert bindings[..i + 1] == bindings[..i] + [bindings[i]];
      FlatMapConcat(SubjectsIn, bindings[..i], [bindings[i]]);
      FlatMapOne(SubjectsIn, bindings[i]);
    }
    assert bindings[..|bindings|] == bindings;
  }

  method ScanPatterns(s: Subject, rule: PolicyRule) returns (findings: seq<Finding>)
    ensures findings == RuleFindings(s)(rule)
  {
    findings := [];
    for i := 0 to |PATTERNS|
      invariant findings + Scan(s, rule, PATTERNS[i..]) == Scan(s, rule, PATTERNS)
    {
      var p := PATTERNS[i];
      assert PATTERNS[i..][0] == p && PATTERNS[i..][1..] == PATTERNS[i + 1..];
      if !RuleMatches(rule, p) {
        continue;
      }
      findings := findings + [FindingFor(s, rule, p)];
      if Subsumes(p) {
        break;
      }
    }
  }

  method FindPrivilegeEscalations(g: Graph) returns (findings: seq<Finding>)
    ensures findings == Findings(g)
  {
    var seen := SeenSubjects(g.roleBindings);
    findings := [];
    for i := 0 to |seen|
      invariant findings == FlatMap(SubjectFindings(g), seen[..i])
    {
      var rules := RulesOf(g, seen[i]);
      var found := [];
      for k := 0 to |rules|
        invariant found == FlatMap(RuleFindings(seen[i]), rules[..k])
      {
        var more := ScanPatterns(seen[i], rules[k]);
        FlatMapNext(RuleFindings(seen[i]), rules, k);
        found := found + more;
      }
      assert rules[..|rules|] == rules;
      FlatMapNext(SubjectFindings(g), seen, i);
      findings := findings + found;
    }
    assert seen[..|seen|] == seen;
  }

  /* ---------- What the findings say ---------- */

  predicate IsTotal(rule: PolicyRule) { "*" in rule.resources && "*" in rule.verbs }

  /** Some name the rule gives, or its wildcard, falls in the list. */
  predicate Hits(names: seq<string>, wanted: set<string>) {
    "*" in names || exists n | n in names :: n in wanted
  }

  lemma MatchesMeans(rule: PolicyRule, p: Pattern)
    ensures RuleMatches(rule, p) <==> Hits(rule.resources, p.resources) && Hits(rule.verbs, p.verbs)
  {
    var resources, verbs := set r | r in rule.resources, set v | v in rule.verbs;
    if resources * p.resources != {} {
      var r :| r in resources * p.resources;
    }
    if verbs * p.verbs != {} {
      var v :| v in verbs * p.verbs;
    }
    assert forall n | n in rule.resources && n in p.resources :: n in resources * p.resources;
    assert forall n | n in rule.verbs && n in p.verbs :: n in verbs * p.verbs;
  }

  ghost predicate Flagged(s: Subject, rule: PolicyRule, patterns: seq<Pattern>, f: Finding) {
    exists p | p in patterns :: RuleMatches(rule, p) && f == FindingFor(s, rule, p)
  }

  /** Among patterns none of which stops the scan, each one hit is found once. */
  lemma {:induction false} ScanFindsEach(s: Subject, rule: PolicyRule, patterns: seq<Pattern>, f: Finding)
    requires forall p | p in patterns :: !Subsumes(p)
    requires forall i, j | 0 <= i < j < |patterns| :: patterns[i].reason != patterns[j].reason
    ensures multiset(Scan(s, rule, patterns))[f] == if Flagged(s, rule, patterns, f) then 1 else 0
  {
    if patterns != [] {
      ScanFindsEach(s, rule, patterns[1..], f);
      assert Flagged(s, rule, patterns, f) <==>
        Flagged(s, rule, patterns[1..], f) || (RuleMatches(rule, patterns[0]) && f == FindingFor(s, rule, patterns[0]));
    }
  }

  lemma SpecificPatterns()
    ensures forall p | p in PATTERNS[1..] :: !Subsumes(p)
    ensures forall i, j | 1 <= i < j < |PATTERNS| :: PATTERNS[i].reason != PATTERNS[j].reason
  {
    assert "secrets" in PATTERNS[3].resources && "pods/exec" in PATTERNS[2].resources;
    assert "roles" in PATTERNS[1].resources;
    assert "secrets"[0] != '*' && "pods/exec"[0] != '*' && "roles"[0] != '*';
  }

  /** One critical finding for a rule with both wildcards; otherwise one high finding per pattern it hits. */
  lemma RuleFindingsExact(s: Subject, rule: PolicyRule, f: Finding)
    ensures
      var count := multiset(RuleFindings(s)(rule))[f];
      if IsTotal(rule) then
        count == if f == Finding(BlastRadius.Label(s), s.kind, rule, TotalWildcard, Critical) then 1 else 0
      else
        count == if Flagged(s, rule, PATTERNS[1..], f) then 1 else 0
    ensures Flagged(s, rule, PATTERNS[1..], f) ==> f.severity == High
  {
    MatchesMeans(rule, PATTERNS[0]);
    assert RuleMatches(rule, PATTERNS[0]) <==> IsTotal(rule);
    SpecificPatterns();
    ScanFindsEach(s, rule, PATTERNS[1..], f);
  }

  /** What stopping early leaves out is implied: a total rule hits every pattern. */
  lemma TotalHitsEverything(rule: PolicyRule, p: Pattern)
    requires IsTotal(rule)
    ensures RuleMatches(rule, p)
  {
    MatchesMeans(rule, p);
  }

  lemma FindingsMembers(g: Graph, f: Finding)
    ensures f in Findings(g) <==>
      exists s, rule :: s in BoundSubjects(g) && rule in RulesOf(g, s) && f in RuleFindings(s)(rule)
  {
    FlatMapMember(SubjectFindings(g), BoundSubjects(g), f);
    forall s { FlatMapMember(RuleFindings(s), RulesOf(g, s), f); }
  }

  /** Some name the rule gives is wanted, or is the wildcard. */
  predicate Gives(names: seq<string>, wanted: set<string>) {
    exists n | n in names :: n == "*" || n in wanted
  }

  /** What the rule is reported for. */
  predicate ReportedFor(rule: PolicyRule, reason: Reason) {
    if "*" in rule.resources && "*" in rule.verbs then reason == TotalWildcard
    else
      match reason
      case TotalWildcard => false
      case GrantsRbac =>
        && Gives(rule.resources, {"roles", "clusterroles", "rolebindings", "clusterrolebindings"})
        && Gives(rule.verbs, {"bind", "escalate", "impersonate"})
      case PodExec => Gives(rule.resources, {"pods/exec", "pods/attach"}) && Gives(rule.verbs, {"create"})
      case ReadsSecrets => Gives(rule.resources, {"secrets"}) && Gives(rule.verbs, {"get", "list", "watch"})
  }

  function SeverityOf(reason: Reason): Severity { if reason == TotalWildcard then Critical else High }

  lemma HitsIsGives(names: seq<string>, wanted: set<string>)
    ensures Hits(names, wanted) <==> Gives(names, wanted)
    ensures Gives(names, wanted) <==> Gives(names, wanted + {"*"})
  {
    if "*" in names {
      assert Gives(names, wanted) && Gives(names, wanted + {"*"});
    }
  }

  /** The pattern of a reason, and whether a rule that is not total hits it. */
  lemma PatternReads(rule: PolicyRule, p: Pattern)
    requires p in PATTERNS[1..] && !IsTotal(rule)
    ensures RuleMatches(rule, p) <==> ReportedFor(rule, p.reason)
    ensures p.reason != TotalWildcard && SeverityOf(p.reason) == High
  {
    MatchesMeans(rule, p);
    assert p == PATTERNS[1] || p == PATTERNS[2] || p == PATTERNS[3];
    HitsIsGives(rule.resources, p.resources);
    HitsIsGives(rule.verbs, {"bind", "escalate", "impersonate"});
    HitsIsGives(rule.verbs, {"create"});
    HitsIsGives(rule.verbs, {"get", "list", "watch"});
    HitsIsGives(rule.verbs, p.verbs);
    assert {"bind", "escalate", "impersonate"} + {"*"} == {"bind", "escalate", "impersonate", "*"};
    assert {"create"} + {"*"} == {"create", "*"};
    assert {"get", "list", "watch"} + {"*"} == {"get", "list", "watch", "*"};
  }

  lemma PatternOf(reason: Reason) returns (p: Pattern)
    requires reason != TotalWildcard
    ensures p in PATTERNS[1..] && p.reason == reason
  {
    p := PATTERNS[if reason == GrantsRbac then 1 else if reason == PodExec then 2 else 3];
    assert PATTERNS[1..][0] == PATTERNS[1] && PATTERNS[1..][1] == PATTERNS[2] && PATTERNS[1..][2] == PATTERNS[3];
  }

  lemma RuleFindingReads(s: Subject, rule: PolicyRule, f: Finding)
    ensures f in RuleFindings(s)(rule) <==>
      ReportedFor(rule, f.reason) && f == Finding(BlastRadius.Label(s), s.kind, rule, f.reason, SeverityOf(f.reason))
  {
    RuleFindingsExact(s, rule, f);
    assert f in RuleFindings(s)(rule) <==> f in multiset(RuleFindings(s)(rule));
    if !IsTotal(rule) {
      forall p | p in PATTERNS[1..] { PatternReads(rule, p); }
      if ReportedFor(rule, f.reason) && f == Finding(BlastRadius.Label(s), s.kind, rule, f.reason, High) {
        var p := PatternOf(f.reason);
        assert RuleMatches(rule, p) && f == FindingFor(s, rule, p);
      }
    }
  }

  predicate Reports(g: Graph, s: Subject, f: Finding) {
    && f.rule in RulesOf(g, s) && ReportedFor(f.rule, f.reason)
    && f.subject == BlastRadius.Label(s) && f.kind == s.kind && f.severity == SeverityOf(f.reason)
  }

  lemma BoundSubjectsAre(g: Graph, s: Subject)
    ensures s in BoundSubjects(g) <==> exists rb :: rb in g.roleBindings && s in rb.subjects
  {
    DistinctMeans(FlatMap(SubjectsIn, g.roleBindings));
    FlatMapMember(SubjectsIn, g.roleBindings, s);
  }

  lemma FindingIsReported(g: Graph, f: Finding) returns (s: Subject)
    requires f in Findings(g)
    ensures s in BoundSubjects(g) && Reports(g, s, f)
  {
    FindingsMembers(g, f);
    var t, r :| t in BoundSubjects(g) && r in RulesOf(g, t) && f in RuleFindings(t)(r);
    s := t;
    RuleFindingReads(s, r, f);
  }

  /** The findings of a graph, in the names of resources and verbs: for a subject of some binding and a rule some
      binding gives it, the total wildcard alone if the rule is total, otherwise each danger it gives. */
  lemma FindingsRead(g: Graph, f: Finding)
    ensures f in Findings(g) <==> exists s :: s in BoundSubjects(g) && Reports(g, s, f)
  {
    if f in Findings(g) {
      var s := FindingIsReported(g, f);
    }
    forall s | s in BoundSubjects(g) && Reports(g, s, f) ensures f in Findings(g) {
      FindingsMembers(g, f);
      RuleFindingReads(s, f.rule, f);
    }
  }

  /* ---------- More manifests never unflag a subject ---------- */

  /** No role manifest of `extra` redefines a key of `ms`. */
  ghost predicate FreshRoles(ms: seq<Manifest>, extra: seq<Manifest>) {
    forall m, n | m in ms && n in extra && IsRole(m) && IsRole(n) && Valid(m) && Valid(n) ::
      RoleOf(m).key != RoleOf(n).key
  }

  /** The second graph has every binding of the first and resolves every key as the first does. */
  ghost predicate Extends(g: Graph, h: Graph) {
    && (forall rb | rb in g.roleBindings :: rb in h.roleBindings)
    && (forall key | key in g.roles :: key in h.roles && h.roles[key] == g.roles[key])
  }

  lemma AddExtends(g: Graph, h: Graph, m: Manifest)
    requires Extends(g, h) && Valid(m)
    requires IsRole(m) ==> RoleOf(m).key !in g.roles
    ensures Extends(g, Add(h, m))
  {}

  lemma FreshKey(ms: seq<Manifest>, roles: map<RoleKey, RoleDef>, m: Manifest)
    requires HoldsRoles(roles, ms) && FreshRoles(ms, [m]) && IsRole(m) && Valid(m)
    ensures RoleOf(m).key !in roles
  {
    assert m in [m];
  }

  lemma {:induction false} ExtraManifestsExtend(ms: seq<Manifest>, extra: seq<Manifest>)
    requires AllValid(ms + extra) && FreshRoles(ms, extra)
    ensures Build(ms).Ok? && Build(ms + extra).Ok?
    ensures Extends(Build(ms).value, Build(ms + extra).value)
  {
    assert forall m | m in ms :: m in ms + extra;
    BuildHolds(ms);
    if extra == [] {
      assert ms + extra == ms;
    } else {
      var (before, m) := (extra[..|extra| - 1], extra[|extra| - 1]);
      assert ms + extra == (ms + before) + [m];
      assert (ms + extra)[..|ms + extra| - 1] == ms + before;
      assert m in extra && forall n | n in before :: n in extra;
      ExtraManifestsExtend(ms, before);
      if IsRole(m) { FreshKey(ms, Build(ms).value.roles, m); }
      AddExtends(Build(ms).value, Build(ms + before).value, m);
    }
  }

  lemma FindingsExtend(g: Graph, h: Graph, f: Finding)
    requires Extends(g, h) && f in Findings(g)
    ensures f in Findings(h)
  {
    FindingsMembers(g, f);
    FindingsMembers(h, f);
    var s, rule :| s in BoundSubjects(g) && rule in RulesOf(g, s) && f in RuleFindings(s)(rule);
    DistinctMeans(FlatMap(SubjectsIn, g.roleBindings));
    DistinctMeans(FlatMap(SubjectsIn, h.roleBindings));
    FlatMapMember(SubjectsIn, g.roleBindings, s);
    FlatMapMember(SubjectsIn, h.roleBindings, s);
    FlatMapMember(Through(g.roles), BindingsForSubject(g, s), rule);
    FlatMapMember(Through(h.roles), BindingsForSubject(h, s), rule);
  }

  /** New manifests that redefine no role, bindings included, keep every finding. */
  lemma FindingsPersist(ms: seq<Manifest>, extra: seq<Manifest>, f: Finding)
    requires AllValid(ms + extra) && FreshRoles(ms, extra)
    ensures Build(ms).Ok? && Build(ms + extra).Ok?
    ensures f in Findings(Build(ms).value) ==> f in Findings(Build(ms + extra).value)
  {
    ExtraManifestsExtend(ms, extra);
    if f in Findings(Build(ms).value) {
      FindingsExtend(Build(ms).value, Build(ms + extra).value, f);
    }
  }

  /* ---------- The order of manifests does not matter ---------- */

  /** Manifests that define one role key define one role. */
  ghost predicate RolesAgree(ms: seq<Manifest>) {
    forall m, n | m in ms && n in ms && IsRole(m) && IsRole(n) && Valid(m) && Valid(n) ::
      RoleOf(m).key == RoleOf(n).key ==> RoleOf(m) == RoleOf(n)
  }

  lemma KeyDefinedAlike(roles: map<RoleKey, RoleDef>, roles': map<RoleKey, RoleDef>,
                        ms: seq<Manifest>, ns: seq<Manifest>, key: RoleKey)
    requires HoldsRoles(roles, ms) && HoldsRoles(roles', ns) && RolesAgree(ms)
    requires key in roles && forall m :: m in ms <==> m in ns
    ensures key in roles' && roles'[key] == roles[key]
  {
    var m :| m in ms && DefinesRole(m, key) && roles[key] == RoleOf(m);
    assert m in ns;
    var n :| n in ns && DefinesRole(n, key) && roles'[key] == RoleOf(n);
    assert n in ms;
  }

  lemma SameRoles(roles: map<RoleKey, RoleDef>, roles': map<RoleKey, RoleDef>, ms: seq<Manifest>, ns: seq<Manifest>)
    requires HoldsRoles(roles, ms) && HoldsRoles(roles', ns) && RolesAgree(ms)
    requires forall m :: m in ms <==> m in ns
    ensures roles == roles'
  {
    forall key | key in roles ensures key in roles' && roles'[key] == roles[key] {
      KeyDefinedAlike(roles, roles', ms, ns, key);
    }
    forall key | key in roles' ensures key in roles {
      KeyDefinedAlike(roles', roles, ns, ms, key);
    }
  }

  lemma SubjectFindingsPermuted(g: Graph, h: Graph, s: Subject)
    requires multiset(g.roleBindings) == multiset(h.roleBindings) && g.roles == h.roles
    ensures multiset(SubjectFindings(g)(s)) == multiset(SubjectFindings(h)(s))
  {
    FilterPermutation(Binds(s), g.roleBindings, h.roleBindings);
    FlatMapPermutation(Through(g.roles), Through(g.roles), BindingsForSubject(g, s), BindingsForSubject(h, s));
    FlatMapPermutation(RuleFindings(s), RuleFindings(s), RulesOf(g, s), RulesOf(h, s));
  }

  lemma FindingsPermuted(g: Graph, h: Graph)
    requires multiset(g.roleBindings) == multiset(h.roleBindings) && g.roles == h.roles
    ensures multiset(Findings(g)) == multiset(Findings(h))
  {
    FlatMapPermutation(SubjectsIn, SubjectsIn, g.roleBindings, h.roleBindings);
    PermutationMembers(FlatMap(SubjectsIn, g.roleBindings), FlatMap(SubjectsIn, h.roleBindings));
    DistinctMeans(FlatMap(SubjectsIn, g.roleBindings));
    DistinctMeans(FlatMap(SubjectsIn, h.roleBindings));
    SameElements(BoundSubjects(g), BoundSubjects(h));
    forall s | s in BoundSubjects(g) ensures multiset(SubjectFindings(g)(s)) == multiset(SubjectFindings(h)(s)) {
      SubjectFindingsPermuted(g, h, s);
    }
    FlatMapPermutation(SubjectFindings(g), SubjectFindings(h), BoundSubjects(g), BoundSubjects(h));
  }

  /** When no two manifests disagree about a role, permuting the manifests permutes the findings. */
  lemma {:induction false} FindingsIgnoreOrder(ms: seq<Manifest>, ns: seq<Manifest>)
    requires multiset(ms) == multiset(ns) && AllValid(ms) && RolesAgree(ms)
    ensures Build(ms).Ok? && Build(ns).Ok?
    ensures multiset(Findings(Build(ms).value)) == multiset(Findings(Build(ns).value))
  {
    BlastRadius.PermutedManifests(ms, ns);
    PermutationMembers(ms, ns);
    BuildHolds(ms);
    BuildHolds(ns);
    var (g, h) := (Build(ms).value, Build(ns).value);
    SameRoles(g.roles, h.roles, ms, ns);
    FindingsPermuted(g, h);
  }
}
