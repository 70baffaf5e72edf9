/** The graph, the assessment and the findings stated on the manifests themselves, in the names Kubernetes uses. */
module FromManifests {
  import opened Options
  import opened Sequences
  import opened Graphs
  import opened BlastRadius
  import Escalation

  /* ---------- Which manifests are valid ---------- */

  /** What a manifest of each kind must have. */
  predicate Sound(m: Manifest) {
    match m.kind
    case None => true
    case Some(kind) =>
      if kind in {"Role", "Service", "Ingress", "NetworkPolicy"} then Present(m.name) && Present(m.namespace)
      else if kind == "ClusterRole" then Present(m.name)
      else if kind == "RoleBinding" then Present(m.name) && Present(m.namespace) && RefAndSubjects(m)
      else if kind == "ClusterRoleBinding" then Present(m.name) && RefAndSubjects(m)
      else true
  }

  predicate RefGiven(m: Manifest) {
    m.roleRef.Some? && m.roleRef.value.kind.Some? && m.roleRef.value.name.Some?
  }

  predicate RefAndSubjects(m: Manifest) {
    RefGiven(m) && forall i | 0 <= i < |m.subjects| :: m.subjects[i].kind.Some? && m.subjects[i].name.Some?
  }

  /** An unsound manifest is invalid, unless all it lacks is a subject's kind or name, which raises. */
  lemma ProblemReads(m: Manifest)
    ensures Valid(m) <==> Sound(m)
    ensures ProblemOf(m) == Some(KeyError) <==>
      !Sound(m) && IsBindingManifest(m) && RefGiven(m)
      && Present(m.name) && (m.kind == Some("RoleBinding") ==> Present(m.namespace))
  {}

  predicate IsBindingManifest(m: Manifest) { m.kind == Some("RoleBinding") || m.kind == Some("ClusterRoleBinding") }

  /* ---------- Bindings ---------- */

  /** The manifest is a binding that lists the subject. */
  predicate Lists(m: Manifest, s: Subject) {
    IsBindingManifest(m) && RawSubject(Some(s.kind), Some(s.name), s.namespace) in m.subjects
  }

  lemma BindingReads(m: Manifest, s: Subject)
    requires IsBindingManifest(m) && Valid(m)
    ensures
      var rb := BindingOf(m);
      && Some(rb.kind) == m.kind && Some(rb.name) == m.name
      && rb.namespace == (if m.kind == Some("RoleBinding") then m.namespace else None)
      && m.roleRef == Some(RoleRef(Some(rb.roleRefKind), Some(rb.roleRefName)))
      && (s in rb.subjects <==> Lists(m, s))
  {
    var subjects := BindingOf(m).subjects;
    if s in subjects {
      var i :| 0 <= i < |subjects| && subjects[i] == s;
      assert m.subjects[i] == RawSubject(Some(s.kind), Some(s.name), s.namespace);
    }
    if Lists(m, s) {
      var i :| 0 <= i < |m.subjects| && m.subjects[i] == RawSubject(Some(s.kind), Some(s.name), s.namespace);
      assert subjects[i] == s;
    }
  }

  /** The bindings of a graph are those of its binding manifests. */
  lemma BindingsAre(ms: seq<Manifest>, rb: RoleBindingDef)
    requires AllValid(ms)
    ensures Build(ms).Ok?
    ensures rb in Build(ms).value.roleBindings <==>
      exists m :: m in ms && IsBindingManifest(m) && Valid(m) && BindingOf(m) == rb
  {
    BuildHolds(ms);
    FlatMapMember(BindingsIn, ms, rb);
  }

  /* ---------- Default deny ---------- */

  /** A NetworkPolicy of the namespace that lists a direction in its policy types and no rules for it. */
  predicate Closes(m: Manifest, namespace: string) {
    && m.kind == Some("NetworkPolicy") && m.namespace == Some(namespace)
    && (("Ingress" in m.policyTypes && !m.hasIngress) || ("Egress" in m.policyTypes && !m.hasEgress))
  }

  ghost predicate Closed(ms: seq<Manifest>, namespace: string) { exists m :: m in ms && Closes(m, namespace) }

  lemma DefaultDenyIff(ms: seq<Manifest>, namespace: string)
    requires AllValid(ms)
    ensures Build(ms).Ok?
    ensures HasDefaultDeny(Build(ms).value, namespace) <==> Closed(ms, namespace)
  {
    BuildHolds(ms);
    var policies := Build(ms).value.networkPolicies;
    forall np ensures np in policies <==> exists m :: m in ms && np in PoliciesIn(m) {
      FlatMapMember(PoliciesIn, ms, np);
    }
    forall m | m in ms && Closes(m, namespace) ensures HasDefaultDeny(Build(ms).value, namespace) {
      assert PolicyOf(m) in PoliciesIn(m);
    }
  }

  /* ---------- The assessment ---------- */

  predicate OtherService(m: Manifest, namespace: string, name: string, other: string) {
    m.kind == Some("Service") && m.namespace == Some(namespace) && m.name == Some(other) && other != name
  }

  /** Two binding manifests with one roleRef, one listing `a` and the other `b`. */
  predicate Shares(m: Manifest, n: Manifest, a: Subject, b: Subject) {
    Lists(m, a) && Lists(n, b) && m.roleRef == n.roleRef
  }

  /** Among the manifests the two subjects are listed with one roleRef. */
  ghost predicate SharedIn(ms: seq<Manifest>, a: Subject, b: Subject) {
    exists m, n :: m in ms && n in ms && Shares(m, n, a, b)
  }

  lemma ServicesAre(ms: seq<Manifest>, namespace: string, other: string)
    requires AllValid(ms)
    ensures Build(ms).Ok?
    ensures ServiceKey(namespace, other) in ServiceKeys(Build(ms).value.services) <==>
      exists m :: m in ms && m.kind == Some("Service") && m.namespace == Some(namespace) && m.name == Some(other)
  {
    BuildHolds(ms);
    var key := ServiceKey(namespace, other);
    ServiceAtMeans(Build(ms).value.services, key);
    LastServiceMeans(ms, key);
    forall m | m in ms
      ensures DefinesService(m, key)
         <==> m.kind == Some("Service") && m.namespace == Some(namespace) && m.name == Some(other) {}
  }

  lemma SharesIff(ms: seq<Manifest>, a: Subject, b: Subject)
    requires AllValid(ms)
    ensures Build(ms).Ok?
    ensures (exists ra, rb :: SameRef(Build(ms).value, a, b, ra, rb)) <==> SharedIn(ms, a, b)
  {
    BuildHolds(ms);
    var g := Build(ms).value;
    if ra, rb :| SameRef(g, a, b, ra, rb) {
      BindingsAre(ms, ra);
      BindingsAre(ms, rb);
      var m :| m in ms && IsBindingManifest(m) && Valid(m) && BindingOf(m) == ra;
      var n :| n in ms && IsBindingManifest(n) && Valid(n) && BindingOf(n) == rb;
      BindingReads(m, a);
      BindingReads(n, b);
      assert Shares(m, n, a, b);
    }
    if m, n :| m in ms && n in ms && Shares(m, n, a, b) {
      BindingReads(m, a);
      BindingReads(n, b);
      BindingsAre(ms, BindingOf(m));
      BindingsAre(ms, BindingOf(n));
      assert SameRef(g, a, b, BindingOf(m), BindingOf(n));
    }
  }

  /** GO: no other subject is listed with a roleRef the subject is listed with, and the namespace is closed or has
      no other service. */
  lemma GoFromManifests(ms: seq<Manifest>, namespace: string, name: string, subject: Subject)
    requires AllValid(ms)
    ensures Build(ms).Ok?
    ensures Assess(Build(ms).value, namespace, name, subject).recommendation == Go <==>
      && (forall other | SharedIn(ms, subject, other) :: other == subject)
      && (Closed(ms, namespace) || forall m, other | m in ms :: !OtherService(m, namespace, name, other))
  {
    BuildHolds(ms);
    GoIff(Build(ms).value, namespace, name, subject);
    NobodyFromManifests(ms, subject);
    NoOtherFromManifests(ms, namespace, name);
    DefaultDenyIff(ms, namespace);
  }

  lemma ReachedIff(ms: seq<Manifest>, a: Subject, b: Subject)
    requires AllValid(ms)
    ensures Build(ms).Ok?
    ensures Reached(Build(ms).value.roleBindings, a, b) <==> a != b && SharedIn(ms, a, b)
  {
    SharesIff(ms, a, b);
    ReachedBySameRef(Build(ms).value, a, b);
  }

  lemma NobodyFromManifests(ms: seq<Manifest>, subject: Subject)
    requires AllValid(ms)
    ensures Build(ms).Ok?
    ensures (forall s :: !Reached(Build(ms).value.roleBindings, subject, s)) <==>
      forall other | SharedIn(ms, subject, other) :: other == subject
  {
    BuildHolds(ms);
    forall s { ReachedIff(ms, subject, s); }
  }

  lemma NoOtherFromManifests(ms: seq<Manifest>, namespace: string, name: string)
    requires AllValid(ms)
    ensures Build(ms).Ok?
    ensures
      (forall svc | svc in Build(ms).value.services :: svc.key.namespace == namespace ==> svc.key.name == name) <==>
      forall m, other | m in ms :: !OtherService(m, namespace, name, other)
  {
    BuildHolds(ms);
    var services := Build(ms).value.services;
    forall other ensures ServiceKey(namespace, other) in ServiceKeys(services) <==>
      exists m :: m in ms && m.kind == Some("Service") && m.namespace == Some(namespace) && m.name == Some(other)
    {
      ServicesAre(ms, namespace, other);
    }
    forall svc | svc in services && svc.key.namespace == namespace && svc.key.name != name
      ensures exists m, other :: m in ms && OtherService(m, namespace, name, other)
    {
      KeyOfService(services, svc);
      var m :| m in ms && m.kind == Some("Service") && m.namespace == Some(namespace) && m.name == Some(svc.key.name);
      assert OtherService(m, namespace, name, svc.key.name);
    }
    forall m, other | m in ms && OtherService(m, namespace, name, other)
      ensures exists svc :: svc in services && svc.key == ServiceKey(namespace, other)
    {
      var svc := ServiceOfKey(services, ServiceKey(namespace, other));
    }
  }

  /** How a subject is named. */
  function Named(s: Subject): string {
    match s.namespace
    case None => s.name
    case Some(namespace) => if namespace == "" then s.name else namespace + "/" + s.name
  }

  lemma LabelReads(s: Subject)
    ensures Label(s) == Named(s)
  {}

  /** The subjects an assessment lists are the other ones of a shared roleRef, by name. */
  lemma SubjectsFromManifests(ms: seq<Manifest>, namespace: string, name: string, subject: Subject, text: string)
    requires AllValid(ms)
    ensures Build(ms).Ok?
    ensures text in Assess(Build(ms).value, namespace, name, subject).affectedSubjects <==>
      exists other :: SharedIn(ms, subject, other) && other != subject && text == Named(other)
  {
    LabelsFromManifests(ms, subject, text);
    AssessFields(Build(ms).value, namespace, name, subject);
  }

  lemma LabelsFromManifests(ms: seq<Manifest>, subject: Subject, text: string)
    requires AllValid(ms)
    ensures Build(ms).Ok?
    ensures text in AffectedSubjectsOf(Build(ms).value, subject) <==>
      exists other :: SharedIn(ms, subject, other) && other != subject && text == Named(other)
  {
    BuildHolds(ms);
    var bindings := Build(ms).value.roleBindings;
    AffectedSubjectsExact(Build(ms).value, subject, text);
    if s :| Reached(bindings, subject, s) && text == Label(s) {
      ReachedIff(ms, subject, s);
      LabelReads(s);
    }
    if s :| SharedIn(ms, subject, s) && s != subject && text == Named(s) {
      ReachedIff(ms, subject, s);
      LabelReads(s);
    }
  }

  /** The services it lists are the other ones of a namespace that is not closed. */
  lemma ServicesFromManifests(ms: seq<Manifest>, namespace: string, name: string, subject: Subject, text: string)
    requires AllValid(ms)
    ensures Build(ms).Ok?
    ensures text in Assess(Build(ms).value, namespace, name, subject).affectedServices <==>
      && !Closed(ms, namespace)
      && exists m, other :: m in ms && OtherService(m, namespace, name, other) && text == namespace + "/" + other
  {
    NamesFromManifests(ms, namespace, name, text);
    AssessFields(Build(ms).value, namespace, name, subject);
  }

  lemma NamesFromManifests(ms: seq<Manifest>, namespace: string, name: string, text: string)
    requires AllValid(ms)
    ensures Build(ms).Ok?
    ensures text in AffectedServices(Build(ms).value, namespace, name) <==>
      && !Closed(ms, namespace)
      && exists m, other :: m in ms && OtherService(m, namespace, name, other) && text == namespace + "/" + other
  {
    BuildHolds(ms);
    var services := Build(ms).value.services;
    AffectedServicesExact(Build(ms).value, namespace, name, text);
    DefaultDenyIff(ms, namespace);
    if svc :| svc in services && svc.key.namespace == namespace && svc.key.name != name
              && text == QualifiedName(namespace, svc.key.name) {
      KeyOfService(services, svc);
      ServicesAre(ms, namespace, svc.key.name);
      var m :| m in ms && m.kind == Some("Service") && m.namespace == Some(namespace) && m.name == Some(svc.key.name);
      assert OtherService(m, namespace, name, svc.key.name);
    }
    if m, other :| m in ms && OtherService(m, namespace, name, other) && text == namespace + "/" + other {
      ServicesAre(ms, namespace, other);
      var svc := ServiceOfKey(services, ServiceKey(namespace, other));
    }
  }

  lemma KeyOfService(services: seq<ServiceDef>, svc: ServiceDef)
    requires svc in services
    ensures svc.key in ServiceKeys(services)
  {
    var i :| 0 <= i < |services| && services[i] == svc;
    assert ServiceKeys(services)[i] == svc.key;
  }

  lemma ServiceOfKey(services: seq<ServiceDef>, key: ServiceKey) returns (svc: ServiceDef)
    requires key in ServiceKeys(services)
    ensures svc in services && svc.key == key
  {
    var i :| 0 <= i < |services| && ServiceKeys(services)[i] == key;
    svc := services[i];
  }

  lemma TargetReads(g: Graph, namespace: string, name: string, subject: Subject)
    ensures Assess(g, namespace, name, subject).targetService == namespace + "/" + name
  {
    AssessFields(g, namespace, name, subject);
  }

  lemma LowerCons(s: string)
    requires s != ""
    ensures Lower(s) == [Lower(s)[0]] + Lower(s[1..]) && Lower(s)[0] == Lower([s[0]])[0]
  {}

  lemma {:induction false} LowerConcat(s: string, t: string)
    ensures Lower(s + t) == Lower(s) + Lower(t)
  {
    if s == "" {
      assert s + t == t;
    } else {
      var u := s + t;
      LowerConcat(s[1..], t);
      assert u[0] == s[0] && u[1..] == s[1..] + t;
      LowerCons(u);
      LowerCons(s);
    }
  }

  lemma {:induction false} LowerStays(s: string)
    requires forall i | 0 <= i < |s| :: 'a' <= s[i] <= 'z'
    ensures Lower(s) == s
  {
    if s != "" {
      LowerStays(s[1..]);
      assert s == [s[0]] + s[1..];
    }
  }

  /** A capitalised word. */
  lemma LowerWord(first: string, rest: string, lowered: string)
    requires forall i | 0 <= i < |rest| :: 'a' <= rest[i] <= 'z'
    requires Lower(first) == lowered
    ensures Lower(first + rest) == lowered + rest
  {
    LowerConcat(first, rest);
    LowerStays(rest);
  }

  lemma LowerRole()
    ensures Lower("Role") == "role"
  {
    LowerLetters();
    LowerWord("R", "ole", "r");
    assert "R" + "ole" == "Role" && "r" + "ole" == "role";
  }

  lemma LowerBinding()
    ensures Lower("Binding") == "binding"
  {
    LowerLetters();
    LowerWord("B", "inding", "b");
    assert "B" + "inding" == "Binding" && "b" + "inding" == "binding";
  }

  lemma LowerCluster()
    ensures Lower("Cluster") == "cluster"
  {
    LowerLetters();
    LowerWord("C", "luster", "c");
    assert "C" + "luster" == "Cluster" && "c" + "luster" == "cluster";
  }

  lemma LowerRoleBinding()
    ensures Lower("RoleBinding") == "rolebinding"
  {
    LowerRole();
    LowerBinding();
    LowerConcat("Role", "Binding");
    assert "Role" + "Binding" == "RoleBinding" && "role" + "binding" == "rolebinding";
  }

  lemma LowerClusterRoleBinding()
    ensures Lower("ClusterRoleBinding") == "clusterrolebinding"
  {
    LowerCluster();
    LowerRoleBinding();
    LowerConcat("Cluster", "RoleBinding");
    ClusterKind();
  }

  lemma ClusterKind()
    ensures "Cluster" + "RoleBinding" == "ClusterRoleBinding" && "cluster" + "rolebinding" == "clusterrolebinding"
  {}

  lemma LowerLetters()
    ensures Lower("C") == "c" && Lower("R") == "r" && Lower("B") == "b"
  {
    assert "C"[1..] == "" && "R"[1..] == "" && "B"[1..] == "";
  }

  /** How a policy and a binding are cited. */
  function Citation(m: Manifest): string
    requires Sound(m) && (m.kind == Some("NetworkPolicy") || IsBindingManifest(m))
  {
    if m.kind == Some("NetworkPolicy") then "networkpolicy/" + m.namespace.value + "/" + m.name.value
    else if m.kind == Some("RoleBinding") then "rolebinding" + "/" + m.namespace.value + "/" + m.name.value
    else "clusterrolebinding" + "/" + "cluster" + "/" + m.name.value
  }

  /** The evidence of an assessment cites the policies of the namespace and the bindings that list the subject. */
  lemma EvidenceFromManifests(ms: seq<Manifest>, namespace: string, name: string, subject: Subject, text: string)
    requires AllValid(ms)
    ensures Build(ms).Ok?
    ensures text in Assess(Build(ms).value, namespace, name, subject).evidenceRefs <==>
      || CitesPolicyOf(ms, namespace, text)
      || CitesBindingOf(ms, subject, text)
  {
    BuildHolds(ms);
    var g := Build(ms).value;
    AssessFields(g, namespace, name, subject);
    SortedMember(FlatMap(PolicyRef(namespace), g.networkPolicies), text);
    SortedMember(FlatMap(BindingRef(subject), g.roleBindings), text);
    PoliciesCited(ms, namespace, text);
    BindingsCited(ms, subject, text);
  }

  ghost predicate CitesPolicyOf(ms: seq<Manifest>, namespace: string, text: string) {
    exists m ::
      m in ms && Sound(m) && m.kind == Some("NetworkPolicy") && m.namespace == Some(namespace) && text == Citation(m)
  }

  ghost predicate CitesBindingOf(ms: seq<Manifest>, subject: Subject, text: string) {
    exists m :: m in ms && Sound(m) && Lists(m, subject) && text == Citation(m)
  }

  lemma PoliciesCited(ms: seq<Manifest>, namespace: string, text: string)
    requires AllValid(ms)
    ensures Build(ms).Ok?
    ensures text in FlatMap(PolicyRef(namespace), Build(ms).value.networkPolicies)
       <==> CitesPolicyOf(ms, namespace, text)
  {
    BuildHolds(ms);
    var policies := Build(ms).value.networkPolicies;
    FlatMapMember(PolicyRef(namespace), policies, text);
    if np :| np in policies && text in PolicyRef(namespace)(np) {
      FlatMapMember(PoliciesIn, ms, np);
      var m :| m in ms && np in PoliciesIn(m);
      ProblemReads(m);
      assert text == Citation(m);
    }
    if m :| m in ms && Sound(m) && m.kind == Some("NetworkPolicy") && m.namespace == Some(namespace)
            && text == Citation(m) {
      ProblemReads(m);
      FlatMapMember(PoliciesIn, ms, PolicyOf(m));
      assert text in PolicyRef(namespace)(PolicyOf(m));
    }
  }

  lemma RoleBindingRef(rb: RoleBindingDef, subject: Subject)
    requires rb.kind == "RoleBinding" && Present(rb.namespace)
    ensures BindingRef(subject)(rb)
         == if subject in rb.subjects then ["rolebinding" + "/" + rb.namespace.value + "/" + rb.name] else []
  {
    LowerRoleBinding();
  }

  lemma ClusterBindingRef(rb: RoleBindingDef, subject: Subject)
    requires rb.kind == "ClusterRoleBinding" && rb.namespace == None
    ensures BindingRef(subject)(rb)
         == if subject in rb.subjects then ["clusterrolebinding" + "/" + "cluster" + "/" + rb.name] else []
  {
    LowerClusterRoleBinding();
  }

  lemma BindingRefReads(m: Manifest, subject: Subject)
    requires IsBindingManifest(m) && Valid(m)
    ensures Sound(m) && BindingRef(subject)(BindingOf(m)) == if Lists(m, subject) then [Citation(m)] else []
  {
    var rb := BindingOf(m);
    ProblemReads(m);
    BindingReads(m, subject);
    if m.kind == Some("RoleBinding") {
      RoleBindingRef(rb, subject);
    } else {
      ClusterBindingRef(rb, subject);
    }
  }

  lemma BindingsCited(ms: seq<Manifest>, subject: Subject, text: string)
    requires AllValid(ms)
    ensures Build(ms).Ok?
    ensures text in FlatMap(BindingRef(subject), Build(ms).value.roleBindings) <==> CitesBindingOf(ms, subject, text)
  {
    BuildHolds(ms);
    FlatMapMember(BindingRef(subject), Build(ms).value.roleBindings, text);
    if rb :| rb in Build(ms).value.roleBindings && text in BindingRef(subject)(rb) {
      BindingIsCited(ms, subject, rb, text);
    }
    if m :| m in ms && Sound(m) && Lists(m, subject) && text == Citation(m) {
      ListedIsCited(ms, subject, m);
    }
  }

  lemma ListedIsCited(ms: seq<Manifest>, subject: Subject, m: Manifest)
    requires AllValid(ms) && Build(ms).Ok? && m in ms && Sound(m) && Lists(m, subject)
    ensures exists rb :: rb in Build(ms).value.roleBindings && Citation(m) in BindingRef(subject)(rb)
  {
    ProblemReads(m);
    BindingRefReads(m, subject);
    BindingsAre(ms, BindingOf(m));
  }

  lemma BindingIsCited(ms: seq<Manifest>, subject: Subject, rb: RoleBindingDef, text: string)
    requires AllValid(ms) && Build(ms).Ok? && rb in Build(ms).value.roleBindings && text in BindingRef(subject)(rb)
    ensures CitesBindingOf(ms, subject, text)
  {
    var m := ManifestOf(ms, rb);
    BindingRefReads(m, subject);
    assert Sound(m) && Lists(m, subject) && text == Citation(m);
  }

  lemma ManifestOf(ms: seq<Manifest>, rb: RoleBindingDef) returns (m: Manifest)
    requires AllValid(ms) && Build(ms).Ok? && rb in Build(ms).value.roleBindings
    ensures m in ms && IsBindingManifest(m) && Valid(m) && BindingOf(m) == rb
  {
    BindingsAre(ms, rb);
    m :| m in ms && IsBindingManifest(m) && Valid(m) && BindingOf(m) == rb;
  }

  /* ---------- Rules ---------- */

  predicate IsRoleManifest(m: Manifest) { m.kind == Some("Role") || m.kind == Some("ClusterRole") }

  /** The two manifests define one role: of one kind and name, and for a Role of one namespace. */
  predicate SameRoleKey(m: Manifest, n: Manifest) {
    && IsRoleManifest(m) && m.kind == n.kind && m.name == n.name
    && (m.kind == Some("Role") ==> m.namespace == n.namespace)
  }

  /** Manifest `i` defines a role and no later one redefines it. */
  ghost predicate LastOfItsRole(ms: seq<Manifest>, i: nat) {
    i < |ms| && IsRoleManifest(ms[i]) && forall j | i < j < |ms| :: !SameRoleKey(ms[i], ms[j])
  }

  /** The binding refers to this role; to a Role only from a RoleBinding of its namespace. */
  predicate RefersTo(b: Manifest, role: Manifest) {
    && IsBindingManifest(b) && IsRoleManifest(role)
    && b.roleRef == Some(RoleRef(role.kind, role.name))
    && (role.kind == Some("Role") ==> b.kind == Some("RoleBinding") && b.namespace == role.namespace)
  }

  /** Binding manifest `b` lists the subject and refers to the role manifest `i` defines last, which has the rule. */
  ghost predicate GrantsRule(ms: seq<Manifest>, b: Manifest, i: nat, subject: Subject, rule: PolicyRule) {
    b in ms && Lists(b, subject) && LastOfItsRole(ms, i) && RefersTo(b, ms[i]) && rule in ms[i].rules
  }

  lemma SameKeyIff(m: Manifest, n: Manifest)
    requires IsRoleManifest(m) && Valid(m) && Valid(n)
    ensures SameRoleKey(m, n) <==> DefinesRole(n, RoleOf(m).key)
  {}

  lemma {:induction false} LastRoleIs(ms: seq<Manifest>, key: RoleKey, i: nat)
    requires AllValid(ms) && i < |ms| && IsRoleManifest(ms[i]) && RoleOf(ms[i]).key == key
    requires forall j | i < j < |ms| :: !SameRoleKey(ms[i], ms[j])
    ensures LastRole(ms, key) == Some(RoleOf(ms[i]))
    decreases |ms|
  {
    var last := |ms| - 1;
    if i < last {
      assert Valid(ms[i]) && Valid(ms[last]) && !SameRoleKey(ms[i], ms[last]);
      SameKeyIff(ms[i], ms[last]);
      LastRoleIs(ms[..last], key, i);
    }
  }

  lemma {:induction false} LastRoleAt(ms: seq<Manifest>, key: RoleKey) returns (i: nat)
    requires AllValid(ms) && LastRole(ms, key).Some?
    ensures i < |ms| && IsRoleManifest(ms[i]) && RoleOf(ms[i]).key == key && LastRole(ms, key) == Some(RoleOf(ms[i]))
    ensures LastOfItsRole(ms, i)
    decreases |ms|
  {
    var last := |ms| - 1;
    if DefinesRole(ms[last], key) {
      i := last;
    } else {
      i := LastRoleAt(ms[..last], key);
      assert ms[..last][i] == ms[i] && Valid(ms[last]);
      forall j | i < j < |ms| ensures !SameRoleKey(ms[i], ms[j]) {
        if j < last { assert ms[..last][j] == ms[j]; }
      }
    }
  }

  lemma ResolvedRole(ms: seq<Manifest>, b: Manifest, i: nat)
    requires AllValid(ms) && b in ms && IsBindingManifest(b) && Valid(b)
    requires LastOfItsRole(ms, i) && RefersTo(b, ms[i])
    ensures Build(ms).Ok? && Valid(ms[i])
    ensures
      var (roles, key) := (Build(ms).value.roles, ResolvedKey(BindingOf(b)));
      key in roles && roles[key].rules == ms[i].rules
  {
    BuildHolds(ms);
    assert Valid(ms[i]);
    var key := ResolvedKey(BindingOf(b));
    assert RoleOf(ms[i]).key == key;
    LastRoleIs(ms, key, i);
    assert RoleAt(Build(ms).value.roles, key) == LastRole(ms, key);
  }

  lemma DefinerIsReferred(b: Manifest, role: Manifest)
    requires IsBindingManifest(b) && Valid(b) && IsRoleManifest(role) && Valid(role)
    requires RoleOf(role).key == ResolvedKey(BindingOf(b))
    ensures RefersTo(b, role)
  {
    ProblemReads(role);
  }

  lemma ResolvedManifest(ms: seq<Manifest>, b: Manifest) returns (i: nat)
    requires AllValid(ms) && b in ms && IsBindingManifest(b) && Valid(b)
    requires Build(ms).Ok? && ResolvedKey(BindingOf(b)) in Build(ms).value.roles
    ensures LastOfItsRole(ms, i) && RefersTo(b, ms[i])
    ensures Build(ms).value.roles[ResolvedKey(BindingOf(b))].rules == ms[i].rules
  {
    BuildHolds(ms);
    var key := ResolvedKey(BindingOf(b));
    assert RoleAt(Build(ms).value.roles, key) == LastRole(ms, key);
    i := LastRoleAt(ms, key);
    assert Valid(ms[i]);
    DefinerIsReferred(b, ms[i]);
  }

  lemma RuleIsGranted(ms: seq<Manifest>, rb: RoleBindingDef, subject: Subject, rule: PolicyRule)
    requires AllValid(ms) && Build(ms).Ok? && rb in Build(ms).value.roleBindings
    requires Grants(Build(ms).value, rb, subject, rule)
    ensures exists b, i :: GrantsRule(ms, b, i, subject, rule)
  {
    var b := ManifestOf(ms, rb);
    BindingReads(b, subject);
    var i := ResolvedManifest(ms, b);
    assert GrantsRule(ms, b, i, subject, rule);
  }

  /** A subject has exactly the rules of the roles its bindings refer to, each role as its last manifest says. */
  lemma RulesFromManifests(ms: seq<Manifest>, subject: Subject, rule: PolicyRule)
    requires AllValid(ms)
    ensures Build(ms).Ok?
    ensures rule in RulesOf(Build(ms).value, subject) <==> exists b, i :: GrantsRule(ms, b, i, subject, rule)
  {
    BuildHolds(ms);
    var g := Build(ms).value;
    RolesStayInTheirNamespace(ms, g, subject, rule);
    if rb :| rb in g.roleBindings && Grants(g, rb, subject, rule) {
      RuleIsGranted(ms, rb, subject, rule);
    }
    if b, i :| GrantsRule(ms, b, i, subject, rule) {
      GrantedRule(ms, b, i, subject, rule);
    }
  }

  lemma GrantedRule(ms: seq<Manifest>, b: Manifest, i: nat, subject: Subject, rule: PolicyRule)
    requires AllValid(ms) && GrantsRule(ms, b, i, subject, rule)
    ensures Build(ms).Ok?
    ensures exists rb :: rb in Build(ms).value.roleBindings && Grants(Build(ms).value, rb, subject, rule)
  {
    BuildHolds(ms);
    assert Valid(b) && Valid(ms[i]);
    BindingReads(b, subject);
    BindingsAre(ms, BindingOf(b));
    ResolvedRole(ms, b, i);
    ProblemReads(b);
    ProblemReads(ms[i]);
    assert Grants(Build(ms).value, BindingOf(b), subject, rule);
  }

  /* ---------- Findings ---------- */

  /** The subject some binding lists, with a rule it has that is reported for this reason. */
  ghost predicate Warrants(ms: seq<Manifest>, s: Subject, f: Escalation.Finding) {
    && (exists b, i :: GrantsRule(ms, b, i, s, f.rule))
    && Escalation.ReportedFor(f.rule, f.reason)
    && f.subject == Named(s) && f.kind == s.kind && f.severity == Escalation.SeverityOf(f.reason)
  }

  lemma FindingsFromManifests(ms: seq<Manifest>, f: Escalation.Finding)
    requires AllValid(ms)
    ensures Build(ms).Ok?
    ensures f in Escalation.Findings(Build(ms).value) <==> exists s :: Warrants(ms, s, f)
  {
    BuildHolds(ms);
    var g := Build(ms).value;
    Escalation.FindingsRead(g, f);
    if s :| s in Escalation.BoundSubjects(g) && Escalation.Reports(g, s, f) {
      RulesFromManifests(ms, s, f.rule);
      LabelReads(s);
      assert Warrants(ms, s, f);
    }
    if s :| Warrants(ms, s, f) {
      RulesFromManifests(ms, s, f.rule);
      LabelReads(s);
      HasRulesIsBound(g, s, f.rule);
    }
  }

  lemma HasRulesIsBound(g: Graph, s: Subject, rule: PolicyRule)
    requires rule in RulesOf(g, s)
    ensures s in Escalation.BoundSubjects(g)
  {
    FlatMapMember(Through(g.roles), BindingsForSubject(g, s), rule);
    Escalation.BoundSubjectsAre(g, s);
  }

  /* ---------- Services, ingresses, policies ---------- */

  /** What the graph keeps of a service: sorted selector, a type that is ClusterIP unless given, the ports given. */
  lemma ServiceReads(m: Manifest)
    requires m.kind == Some("Service") && Valid(m)
    ensures
      var svc := ServiceOf(m);
      && Some(svc.key.namespace) == m.namespace && Some(svc.key.name) == m.name
      && svc.selector == SortedLabels(m.labels)
      && svc.serviceType == (match m.serviceType case None => "ClusterIP" case Some(t) => t)
      && forall port :: port in svc.ports <==> Some(port) in m.ports
  {
    forall port ensures port in ServiceOf(m).ports <==> Some(port) in m.ports {
      FlatMapMember(PortIn, m.ports, port);
    }
  }

  /** An ingress is kept for exactly each path of an Ingress manifest that names a service. */
  lemma IngressesFromManifests(ms: seq<Manifest>, ingress: IngressDef)
    requires AllValid(ms)
    ensures Build(ms).Ok?
    ensures ingress in Build(ms).value.ingresses <==> exists m, rule :: m in ms && Routes(m, rule, ingress)
  {
    BuildHolds(ms);
    FlatMapMember(IngressesFrom, ms, ingress);
    forall m | m in ms ensures ingress in IngressesFrom(m) <==> exists rule :: Routes(m, rule, ingress) {
      if m.kind == Some("Ingress") && Valid(m) {
        IngressesOfReads(m, ingress);
      }
    }
  }

  predicate Routes(m: Manifest, rule: IngressRule, ingress: IngressDef) {
    && m.kind == Some("Ingress") && rule in m.ingressRules
    && Some(ingress.name) == m.name && Some(ingress.namespace) == m.namespace
    && ingress.host == rule.host && Some(ingress.backendService) in rule.backends && ingress.backendService != ""
  }

  lemma IngressesOfReads(m: Manifest, ingress: IngressDef)
    requires m.kind == Some("Ingress") && Valid(m)
    ensures ingress in IngressesOf(m) <==> exists rule :: Routes(m, rule, ingress)
  {
    var of := IngressesIn(m.name.value, m.namespace.value);
    FlatMapMember(of, m.ingressRules, ingress);
    if rule :| rule in m.ingressRules && ingress in of(rule) {
      BackendsRead(m.name.value, m.namespace.value, rule, ingress);
      assert Routes(m, rule, ingress);
    }
    if rule :| Routes(m, rule, ingress) {
      BackendsRead(m.name.value, m.namespace.value, rule, ingress);
    }
  }

  lemma BackendsRead(name: string, namespace: string, rule: IngressRule, ingress: IngressDef)
    ensures ingress in IngressesIn(name, namespace)(rule) <==>
      ingress.name == name && ingress.namespace == namespace
      && ingress.host == rule.host && Some(ingress.backendService) in rule.backends && ingress.backendService != ""
  {
    FlatMapMember(IngressTo(name, namespace, rule.host), rule.backends, ingress);
    if Some(ingress.backendService) in rule.backends && ingress.backendService != ""
       && ingress == IngressDef(name, namespace, ingress.backendService, rule.host) {
      assert ingress in IngressTo(name, namespace, rule.host)(Some(ingress.backendService));
    }
  }
}
