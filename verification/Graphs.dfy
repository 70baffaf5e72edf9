/** The RBAC and network graph built from a list of manifests. */
module Graphs {
  import opened Options
  import opened Ordering
  import opened Sequences

  /* ---------- The graph ---------- */

  datatype Subject = Subject(kind: string, name: string, namespace: Option<string>)

  datatype PolicyRule =
    PolicyRule(apiGroups: seq<string>, resources: seq<string>, verbs: seq<string>, resourceNames: seq<string>)

  datatype RoleKey = RoleKey(kind: string, name: string, namespace: Option<string>)

  datatype RoleDef = RoleDef(key: RoleKey, rules: seq<PolicyRule>)

  datatype RoleBindingDef = RoleBindingDef(
    kind: string, name: string, namespace: Option<string>,
    roleRefKind: string, roleRefName: string, subjects: seq<Subject>)

  /** Items of a dict of labels. */
  type Labels = seq<(string, string)>

  datatype ServiceKey = ServiceKey(namespace: string, name: string)

  datatype ServiceDef = ServiceDef(key: ServiceKey, selector: Labels, serviceType: string, ports: seq<int>)

  datatype IngressDef = IngressDef(name: string, namespace: string, backendService: string, host: Option<string>)

  datatype NetworkPolicyDef =
    NetworkPolicyDef(name: string, namespace: string, podSelector: Labels, isDefaultDeny: bool)

  /** `services` lists the dict's values in the dict's order, each key once. */
  datatype Graph = Graph(
    roles: map<RoleKey, RoleDef>,
    roleBindings: seq<RoleBindingDef>,
    services: seq<ServiceDef>,
    ingresses: seq<IngressDef>,
    networkPolicies: seq<NetworkPolicyDef>)

  const EMPTY := Graph(map[], [], [], [], [])

  /** The key a binding's roleRef is looked up under. */
  function ResolvedKey(rb: RoleBindingDef): RoleKey {
    RoleKey(rb.roleRefKind, rb.roleRefName, if rb.roleRefKind == "Role" then rb.namespace else None)
  }

  function RulesThrough(roles: map<RoleKey, RoleDef>, rb: RoleBindingDef): seq<PolicyRule> {
    if ResolvedKey(rb) in roles then roles[ResolvedKey(rb)].rules else []
  }

  function Through(roles: map<RoleKey, RoleDef>): RoleBindingDef -> seq<PolicyRule> {
    (rb: RoleBindingDef) => RulesThrough(roles, rb)
  }

  function Binds(subject: Subject): RoleBindingDef -> bool {
    (rb: RoleBindingDef) => subject in rb.subjects
  }

  function BindingsForSubject(g: Graph, subject: Subject): seq<RoleBindingDef> {
    Filter(Binds(subject), g.roleBindings)
  }

  function RulesOf(g: Graph, subject: Subject): seq<PolicyRule> {
    FlatMap(Through(g.roles), BindingsForSubject(g, subject))
  }

  /* ---------- Manifests ---------- */

  datatype RoleRef = RoleRef(kind: Option<string>, name: Option<string>)

  datatype RawSubject = RawSubject(kind: Option<string>, name: Option<string>, namespace: Option<string>)

  datatype IngressRule = IngressRule(host: Option<string>, backends: seq<Option<string>>)

  /** The fields of a manifest that reach the graph, of whatever kind it is.  `labels` is a Service's selector or a
      NetworkPolicy's pod selector, a port is `None` where the entry has none, a backend where the path names no
      service; `hasIngress` and `hasEgress` say whether those lists of a NetworkPolicy are non-empty. */
  datatype Manifest = Manifest(
    kind: Option<string>, name: Option<string>, namespace: Option<string>,
    rules: seq<PolicyRule>, roleRef: Option<RoleRef>, subjects: seq<RawSubject>,
    labels: Labels, serviceType: Option<string>, ports: seq<Option<int>>, ingressRules: seq<IngressRule>,
    policyTypes: seq<string>, hasIngress: bool, hasEgress: bool)

  datatype Problem = InvalidManifest | KeyError

  datatype Result<T> = Ok(value: T) | Err(problem: Problem)

  predicate Present(s: Option<string>) { s.Some? && s.value != "" }

  /** `_metadata`: the checks every handler starts with. */
  predicate MetadataOk(m: Manifest, namespaceRequired: bool) {
    Present(m.name) && (namespaceRequired ==> Present(m.namespace))
  }

  predicate Complete(s: RawSubject) { s.kind.Some? && s.name.Some? }

  function SubjectOf(s: RawSubject): Subject
    requires Complete(s)
  {
    Subject(s.kind.value, s.name.value, s.namespace)
  }

  const HANDLED :=
    {"Role", "ClusterRole", "RoleBinding", "ClusterRoleBinding", "Service", "Ingress", "NetworkPolicy"}

  predicate IsRole(m: Manifest) { m.kind in {Some("Role"), Some("ClusterRole")} }

  predicate IsBinding(m: Manifest) { m.kind in {Some("RoleBinding"), Some("ClusterRoleBinding")} }

  /** What is wrong with a manifest, if anything; kinds without a handler are ignored. */
  function ProblemOf(m: Manifest): Option<Problem> {
    if m.kind.None? || m.kind.value !in HANDLED then None
    else if !MetadataOk(m, m.kind.value !in {"ClusterRole", "ClusterRoleBinding"}) then Some(InvalidManifest)
    else if !IsBinding(m) then None
    else if m.roleRef.None? || m.roleRef.value.kind.None? || m.roleRef.value.name.None? then Some(InvalidManifest)
    else if exists i | 0 <= i < |m.subjects| :: !Complete(m.subjects[i]) then Some(KeyError)
    else None
  }

  predicate Valid(m: Manifest) { ProblemOf(m) == None }

  /** The namespace a definition is stored with: none for the cluster-wide kinds. */
  function Scope(m: Manifest): Option<string> {
    if m.kind in {Some("ClusterRole"), Some("ClusterRoleBinding")} then None else m.namespace
  }

  function RoleOf(m: Manifest): RoleDef
    requires IsRole(m) && Valid(m)
  {
    RoleDef(RoleKey(m.kind.value, m.name.value, Scope(m)), m.rules)
  }

  function BindingOf(m: Manifest): RoleBindingDef
    requires IsBinding(m) && Valid(m)
  {
    RoleBindingDef(m.kind.value, m.name.value, Scope(m), m.roleRef.value.kind.value, m.roleRef.value.name.value,
                   seq(|m.subjects|, i requires 0 <= i < |m.subjects| => SubjectOf(m.subjects[i])))
  }

  function LabelName(item: (string, string)): string { item.0 }

  function SortedLabels(labels: Labels): Labels { SortBy(LabelName, labels) }

  /** A dict of labels is kept the same whatever order its items came in. */
  lemma LabelsIgnoreOrder(a: Labels, b: Labels)
    requires multiset(a) == multiset(b) && forall x, y | x in a && y in a && x.0 == y.0 :: x == y
    ensures SortedLabels(a) == SortedLabels(b)
    ensures multiset(SortedLabels(a)) == multiset(a) && SortedBy(LabelName, SortedLabels(a))
  {
    SortForgetsOrder(LabelName, a, b);
    SortByIsSorted(LabelName, a);
  }

  function PortIn(port: Option<int>): seq<int> { if port.Some? then [port.value] else [] }

  function ServiceOf(m: Manifest): ServiceDef
    requires m.kind == Some("Service") && Valid(m)
  {
    ServiceDef(ServiceKey(m.namespace.value, m.name.value), SortedLabels(m.labels),
               if m.serviceType.Some? then m.serviceType.value else "ClusterIP",
               FlatMap(PortIn, m.ports))
  }

  /** One ingress for each path that names a service. */
  function IngressesOf(m: Manifest): seq<IngressDef>
    requires m.kind == Some("Ingress") && Valid(m)
  {
    FlatMap(IngressesIn(m.name.value, m.namespace.value), m.ingressRules)
  }

  function IngressesIn(name: string, namespace: string): IngressRule -> seq<IngressDef> {
    (rule: IngressRule) => FlatMap(IngressTo(name, namespace, rule.host), rule.backends)
  }

  function IngressTo(name: string, namespace: string, host: Option<string>): Option<string> -> seq<IngressDef> {
    (backend: Option<string>) =>
      if Present(backend) then [IngressDef(name, namespace, backend.value, host)] else []
  }

  function PolicyOf(m: Manifest): NetworkPolicyDef
    requires m.kind == Some("NetworkPolicy") && Valid(m)
  {
    NetworkPolicyDef(m.name.value, m.namespace.value, SortedLabels(m.labels),
                     ("Ingress" in m.policyTypes && !m.hasIngress) || ("Egress" in m.policyTypes && !m.hasEgress))
  }

  /** Assignment to a dict: an existing key keeps its place and gets the new value. */
  function PutService(services: seq<ServiceDef>, svc: ServiceDef): seq<ServiceDef> {
    if services == [] then [svc]
    else if services[0].key == svc.key then [svc] + services[1..]
    else [services[0]] + PutService(services[1..], svc)
  }

  function Add(g: Graph, m: Manifest): Graph
    requires Valid(m)
  {
    if IsRole(m) then g.(roles := g.roles[RoleOf(m).key := RoleOf(m)])
    else if IsBinding(m) then g.(roleBindings := g.roleBindings + [BindingOf(m)])
    else if m.kind == Some("Service") then g.(services := PutService(g.services, ServiceOf(m)))
    else if m.kind == Some("Ingress") then g.(ingresses := g.ingresses + IngressesOf(m))
    else if m.kind == Some("NetworkPolicy") then g.(networkPolicies := g.networkPolicies + [PolicyOf(m)])
    else g
  }

  /** `build_graph`: the manifests in order, up to the first problem. */
  function Build(ms: seq<Manifest>): Result<Graph> {
    if ms == [] then Ok(EMPTY)
    else
      match Build(ms[..|ms| - 1])
      case Err(p) => Err(p)
      case Ok(g) =>
        var m := ms[|ms| - 1];
        if Valid(m) then Ok(Add(g, m)) else Err(ProblemOf(m).value)
  }

  class ClusterGraph {
    var roles: map<RoleKey, RoleDef>
    var roleBindings: seq<RoleBindingDef>
    var services: seq<ServiceDef>
    var ingresses: seq<IngressDef>
    var networkPolicies: seq<NetworkPolicyDef>

    constructor ()
      ensures View() == EMPTY
    {
      roles, roleBindings, services, ingresses, networkPolicies := map[], [], [], [], [];
    }

    function View(): Graph
      reads this
    {
      Graph(roles, roleBindings, services, ingresses, networkPolicies)
    }

    /** The handler of one manifest; with a problem the graph stays as it was. */
    method Handle(m: Manifest) returns (problem: Option<Problem>)
      modifies this
      ensures problem == ProblemOf(m)
      ensures View() == if Valid(m) then Add(old(View()), m) else old(View())
    {
      problem := ProblemOf(m);
      if problem.Some? {
        return;
      }
      if IsRole(m) {
        var role := RoleOf(m);
        roles := roles[role.key := role];
      } else if IsBinding(m) {
        roleBindings := roleBindings + [BindingOf(m)];
      } else if m.kind == Some("Service") {
        services := PutService(services, ServiceOf(m));
      } else if m.kind == Some("Ingress") {
        ingresses := ingresses + IngressesOf(m);
      } else if m.kind == Some("NetworkPolicy") {
        networkPolicies := networkPolicies + [PolicyOf(m)];
      }
    }

    method EffectiveRules(subject: Subject) returns (rules: seq<PolicyRule>)
      ensures rules == RulesOf(View(), subject)
    {
      rules := [];
      var bindings := BindingsForSubject(View(), subject);
      for i := 0 to |bindings|
        invariant rules == FlatMap(Through(roles), bindings[..i])
      {
        FlatMapNext(Through(roles), bindings, i);
        rules := rules + RulesThrough(roles, bindings[i]);
      }
      assert bindings[..|bindings|] == bindings;
    }
  }

  method BuildGraph(ms: seq<Manifest>) returns (g: ClusterGraph, problem: Option<Problem>)
    ensures fresh(g)
    ensures problem.None? ==> Build(ms) == Ok(g.View())
    ensures problem.Some? ==> Build(ms) == Err(problem.value)
  {
    g := new ClusterGraph();
    problem := None;
    for i := 0 to |ms|
      invariant fresh(g) && problem == None
      invariant Build(ms[..i]) == Ok(g.View())
    {
      problem := g.Handle(ms[i]);
      assert ms[..i + 1][..i] == ms[..i];
      if problem.Some? {
        BuildStops(ms, i + 1);
        return;
      }
    }
    assert ms[..|ms|] == ms;
  }

  lemma {:induction false} BuildStops(ms: seq<Manifest>, i: nat)
    requires i <= |ms| && Build(ms[..i]).Err?
    ensures Build(ms) == Build(ms[..i])
    decreases |ms|
  {
    if i == |ms| {
      assert ms[..i] == ms;
    } else {
      assert ms[..|ms| - 1][..i] == ms[..i];
      BuildStops(ms[..|ms| - 1], i);
    }
  }

  /* ---------- What a built graph holds ---------- */

  predicate AllValid(ms: seq<Manifest>) { forall m | m in ms :: Valid(m) }

  function BindingsIn(m: Manifest): seq<RoleBindingDef> {
    if IsBinding(m) && Valid(m) then [BindingOf(m)] else []
  }

  function PoliciesIn(m: Manifest): seq<NetworkPolicyDef> {
    if m.kind == Some("NetworkPolicy") && Valid(m) then [PolicyOf(m)] else []
  }

  function IngressesFrom(m: Manifest): seq<IngressDef> {
    if m.kind == Some("Ingress") && Valid(m) then IngressesOf(m) else []
  }

  predicate DefinesService(m: Manifest, key: ServiceKey) {
    m.kind == Some("Service") && Valid(m) && ServiceOf(m).key == key
  }

  /** What the last manifest of a service says. */
  function LastService(ms: seq<Manifest>, key: ServiceKey): Option<ServiceDef> {
    if ms == [] then None
    else if DefinesService(ms[|ms| - 1], key) then Some(ServiceOf(ms[|ms| - 1]))
    else LastService(ms[..|ms| - 1], key)
  }

  function ServiceAt(services: seq<ServiceDef>, key: ServiceKey): Option<ServiceDef> {
    if services == [] then None
    else if services[0].key == key then Some(services[0])
    else ServiceAt(services[1..], key)
  }

  function ServiceKeys(services: seq<ServiceDef>): (r: seq<ServiceKey>)
    ensures |r| == |services| && forall i | 0 <= i < |r| :: r[i] == services[i].key
  {
    seq(|services|, i requires 0 <= i < |services| => services[i].key)
  }

  predicate DefinesRole(m: Manifest, key: RoleKey) {
    IsRole(m) && Valid(m) && RoleOf(m).key == key
  }

  /** Lists in manifest order. */
  ghost predicate HoldsLists(g: Graph, ms: seq<Manifest>) {
    && g.roleBindings == FlatMap(BindingsIn, ms) && g.networkPolicies == FlatMap(PoliciesIn, ms)
    && g.ingresses == FlatMap(IngressesFrom, ms)
  }

  /** Dict keys once each, with the value of the last manifest that defines them. */
  ghost predicate HoldsServices(services: seq<ServiceDef>, ms: seq<Manifest>) {
    NoDuplicates(ServiceKeys(services)) && forall key :: ServiceAt(services, key) == LastService(ms, key)
  }

  ghost predicate HoldsRoles(roles: map<RoleKey, RoleDef>, ms: seq<Manifest>) {
    && (forall m | m in ms && IsRole(m) && Valid(m) :: RoleOf(m).key in roles)
    && (forall key | key in roles :: exists m :: m in ms && DefinesRole(m, key) && roles[key] == RoleOf(m))
  }

  /** What the last manifest of a role says. */
  function LastRole(ms: seq<Manifest>, key: RoleKey): Option<RoleDef> {
    if ms == [] then None
    else if DefinesRole(ms[|ms| - 1], key) then Some(RoleOf(ms[|ms| - 1]))
    else LastRole(ms[..|ms| - 1], key)
  }

  function RoleAt(roles: map<RoleKey, RoleDef>, key: RoleKey): Option<RoleDef> {
    if key in roles then Some(roles[key]) else None
  }

  ghost predicate HoldsLastRoles(roles: map<RoleKey, RoleDef>, ms: seq<Manifest>) {
    forall key :: RoleAt(roles, key) == LastRole(ms, key)
  }

  ghost predicate Holds(g: Graph, ms: seq<Manifest>) {
    HoldsLists(g, ms) && HoldsServices(g.services, ms) && HoldsLastRoles(g.roles, ms) && HoldsRoles(g.roles, ms)
  }

  lemma FlatMapSnoc<B>(f: Manifest -> seq<B>, ms: seq<Manifest>, m: Manifest)
    ensures FlatMap(f, ms + [m]) == FlatMap(f, ms) + f(m)
  {
    FlatMapConcat(f, ms, [m]);
    FlatMapOne(f, m);
  }

  /** What one manifest adds to the lists. */
  lemma AddToLists(g: Graph, m: Manifest)
    requires Valid(m)
    ensures Add(g, m).roleBindings == g.roleBindings + BindingsIn(m)
    ensures Add(g, m).networkPolicies == g.networkPolicies + PoliciesIn(m)
    ensures Add(g, m).ingresses == g.ingresses + IngressesFrom(m)
  {}

  lemma AddHoldsLists(g: Graph, ms: seq<Manifest>, m: Manifest)
    requires HoldsLists(g, ms) && Valid(m)
    ensures HoldsLists(Add(g, m), ms + [m])
  {
    AddToLists(g, m);
    FlatMapSnoc(BindingsIn, ms, m);
    FlatMapSnoc(PoliciesIn, ms, m);
    FlatMapSnoc(IngressesFrom, ms, m);
  }

  lemma {:induction false} PutServiceMeans(services: seq<ServiceDef>, svc: ServiceDef, key: ServiceKey)
    ensures ServiceAt(PutService(services, svc), key) == if key == svc.key then Some(svc) else ServiceAt(services, key)
  {
    if services != [] && services[0].key != svc.key {
      PutServiceMeans(services[1..], svc, key);
    }
  }

  lemma KeysCons(svc: ServiceDef, services: seq<ServiceDef>)
    ensures ServiceKeys([svc] + services) == [svc.key] + ServiceKeys(services)
  {}

  lemma {:induction false} PutServiceKeys(services: seq<ServiceDef>, svc: ServiceDef)
    ensures ServiceKeys(PutService(services, svc))
         == ServiceKeys(services) + if svc.key in ServiceKeys(services) then [] else [svc.key]
  {
    if services != [] {
      var (first, rest) := (services[0], services[1..]);
      assert services == [first] + rest;
      KeysCons(first, rest);
      if first.key == svc.key {
        KeysCons(svc, rest);
      } else {
        PutServiceKeys(rest, svc);
        KeysCons(first, PutService(rest, svc));
      }
    }
  }

  lemma AddHoldsServices(g: Graph, ms: seq<Manifest>, m: Manifest)
    requires HoldsServices(g.services, ms) && Valid(m)
    ensures HoldsServices(Add(g, m).services, ms + [m])
  {
    assert (ms + [m])[..|ms|] == ms;
    if m.kind == Some("Service") {
      var (svc, keys) := (ServiceOf(m), ServiceKeys(g.services));
      forall key { PutServiceMeans(g.services, svc, key); }
      PutServiceKeys(g.services, svc);
      if svc.key in keys {
        assert keys + [] == keys;
      } else {
        assert forall i | 0 <= i < |keys| :: keys[i] != svc.key;
        assert NoDuplicates(keys + [svc.key]);
      }
    }
  }

  /** A service is in the graph when some manifest defines it. */
  lemma {:induction false} LastServiceMeans(ms: seq<Manifest>, key: ServiceKey)
    ensures LastService(ms, key).Some? <==> exists m :: m in ms && DefinesService(m, key)
  {
    if ms != [] {
      LastServiceMeans(ms[..|ms| - 1], key);
      assert ms == ms[..|ms| - 1] + [ms[|ms| - 1]];
    }
  }

  lemma {:induction false} ServiceAtMeans(services: seq<ServiceDef>, key: ServiceKey)
    ensures ServiceAt(services, key).Some? <==> key in ServiceKeys(services)
  {
    if services != [] {
      ServiceAtMeans(services[1..], key);
      assert ServiceKeys(services) == [services[0].key] + ServiceKeys(services[1..]);
    }
  }

  lemma AddHoldsRoles(g: Graph, ms: seq<Manifest>, m: Manifest)
    requires HoldsLastRoles(g.roles, ms) && Valid(m)
    ensures HoldsLastRoles(Add(g, m).roles, ms + [m])
  {
    assert (ms + [m])[..|ms|] == ms;
    forall key ensures RoleAt(Add(g, m).roles, key) == LastRole(ms + [m], key) {
      assert RoleAt(g.roles, key) == LastRole(ms, key);
    }
  }

  lemma {:induction false} LastRoleMeans(ms: seq<Manifest>, key: RoleKey)
    ensures
      match LastRole(ms, key)
      case None => forall m | m in ms :: !DefinesRole(m, key)
      case Some(role) => exists m :: m in ms && DefinesRole(m, key) && RoleOf(m) == role
  {
    if ms != [] {
      LastRoleMeans(ms[..|ms| - 1], key);
      assert ms == ms[..|ms| - 1] + [ms[|ms| - 1]];
    }
  }

  lemma LastRolesAreRoles(roles: map<RoleKey, RoleDef>, ms: seq<Manifest>)
    requires HoldsLastRoles(roles, ms)
    ensures HoldsRoles(roles, ms)
  {
    forall key ensures RoleAt(roles, key) == LastRole(ms, key) {
      LastRoleMeans(ms, key);
    }
    forall m | m in ms && IsRole(m) && Valid(m) ensures RoleOf(m).key in roles {
      LastRoleMeans(ms, RoleOf(m).key);
      assert DefinesRole(m, RoleOf(m).key) && RoleAt(roles, RoleOf(m).key) == LastRole(ms, RoleOf(m).key);
    }
    forall key | key in roles ensures exists m :: m in ms && DefinesRole(m, key) && roles[key] == RoleOf(m) {
      LastRoleMeans(ms, key);
      assert RoleAt(roles, key) == LastRole(ms, key);
    }
  }

  /** Building succeeds exactly when every manifest is valid on its own, and then holds exactly their content. */
  lemma {:induction false} BuildHolds(ms: seq<Manifest>)
    ensures Build(ms).Ok? <==> AllValid(ms)
    ensures AllValid(ms) ==> Holds(Build(ms).value, ms)
  {
    if ms != [] {
      var (before, m) := (ms[..|ms| - 1], ms[|ms| - 1]);
      assert ms == before + [m];
      BuildHolds(before);
      if AllValid(ms) {
        var g := Build(before).value;
        AddHoldsLists(g, before, m);
        AddHoldsServices(g, before, m);
        AddHoldsRoles(g, before, m);
        LastRolesAreRoles(Add(g, m).roles, ms);
      }
    }
  }
}
