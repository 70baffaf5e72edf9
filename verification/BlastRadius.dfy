/** Blast radius of containing a compromised service and subject. */
module BlastRadius {
  import opened Options
  import opened Ordering
  import opened Sequences
  import opened Graphs

  datatype Recommendation = Go | Narrow | Stop

  /** Which of the three texts is given, with the total it quotes. */
  datatype Reason = Isolated | Limited(total: nat) | Wide(total: nat)

  datatype Assessment = Assessment(
    targetService: string,
    affectedServices: seq<string>,
    affectedSubjects: seq<string>,
    recommendation: Recommendation,
    reason: Reason,
    evidenceRefs: seq<string>)

  /* ---------- Network ---------- */

  predicate HasDefaultDeny(g: Graph, namespace: string) {
    exists np | np in g.networkPolicies :: np.namespace == namespace && np.isDefaultDeny
  }

  function QualifiedName(namespace: string, name: string): string { namespace + "/" + name }

  function SiblingNames(namespace: string, name: string): ServiceDef -> seq<string> {
    (svc: ServiceDef) =>
      if svc.key.namespace == namespace && svc.key.name != name
      then [QualifiedName(svc.key.namespace, svc.key.name)] else []
  }

  function SiblingName(namespace: string, name: string): ServiceKey -> seq<string> {
    (key: ServiceKey) =>
      if key.namespace == namespace && key.name != name then [QualifiedName(key.namespace, key.name)] else []
  }

  function AffectedServices(g: Graph, namespace: string, name: string): seq<string> {
    if HasDefaultDeny(g, namespace) then [] else Sorted(FlatMap(SiblingNames(namespace, name), g.services))
  }

  function PolicyRef(namespace: string): NetworkPolicyDef -> seq<string> {
    (np: NetworkPolicyDef) => if np.namespace == namespace then ["networkpolicy/" + namespace + "/" + np.name] else []
  }

  /* ---------- RBAC ---------- */

  function Lower(s: string): string {
    if s == "" then ""
    else [if 'A' <= s[0] <= 'Z' then (s[0] as int + 32) as char else s[0]] + Lower(s[1..])
  }

  function BindingRef(subject: Subject): RoleBindingDef -> seq<string> {
    (rb: RoleBindingDef) =>
      if subject in rb.subjects
      then [Lower(rb.kind) + "/" + (if Present(rb.namespace) then rb.namespace.value else "cluster") + "/" + rb.name]
      else []
  }

  function Label(s: Subject): string {
    if Present(s.namespace) then s.namespace.value + "/" + s.name else s.name
  }

  /** Some binding of `subject` has the same roleRef kind and name. */
  predicate SharesRef(bindings: seq<RoleBindingDef>, subject: Subject, rb: RoleBindingDef) {
    exists own | own in bindings ::
      subject in own.subjects && own.roleRefKind == rb.roleRefKind && own.roleRefName == rb.roleRefName
  }

  /** `s` is another subject reached through a shared roleRef. */
  predicate Reached(bindings: seq<RoleBindingDef>, subject: Subject, s: Subject) {
    s != subject && exists rb | rb in bindings :: s in rb.subjects && SharesRef(bindings, subject, rb)
  }

  function OtherLabels(bindings: seq<RoleBindingDef>, subject: Subject): set<string> {
    set rb, s | rb in bindings && s in rb.subjects && s != subject && SharesRef(bindings, subject, rb) :: Label(s)
  }

  function AffectedSubjectsOf(g: Graph, subject: Subject): seq<string> {
    SortedSet(OtherLabels(g.roleBindings, subject))
  }

  method AffectedSubjects(g: Graph, subject: Subject) returns (r: seq<string>)
    ensures r == AffectedSubjectsOf(g, subject)
  {
    var rolesBound := set rb | rb in g.roleBindings && subject in rb.subjects :: (rb.roleRefKind, rb.roleRefName);
    var others: set<string> := {};
    for i := 0 to |g.roleBindings|
      invariant forall l :: l in others <==> exists rb, s ::
        rb in g.roleBindings[..i] && s in rb.subjects && s != subject
        && SharesRef(g.roleBindings, subject, rb) && l == Label(s)
    {
      var rb := g.roleBindings[i];
      assert (rb.roleRefKind, rb.roleRefName) in rolesBound <==> SharesRef(g.roleBindings, subject, rb);
      var labels: set<string> := {};
      if (rb.roleRefKind, rb.roleRefName) in rolesBound {
        for k := 0 to |rb.subjects|
          invariant labels == set s | s in rb.subjects[..k] && s != subject :: Label(s)
        {
          if rb.subjects[k] != subject {
            labels := labels + {Label(rb.subjects[k])};
          }
        }
        others := others + labels;
      }
    }
    assert g.roleBindings[..|g.roleBindings|] == g.roleBindings;
    assert others == OtherLabels(g.roleBindings, subject);
    r := SortedSet(others);
  }

  /* ---------- The assessment ---------- */

  function Recommend(total: nat): (Recommendation, Reason) {
    if total == 0 then (Go, Isolated) else if total <= 2 then (Narrow, Limited(total)) else (Stop, Wide(total))
  }

  function PolicyRefs(g: Graph, namespace: string): seq<string> {
    Sorted(FlatMap(PolicyRef(namespace), g.networkPolicies))
  }

  function BindingRefs(g: Graph, subject: Subject): seq<string> {
    Sorted(FlatMap(BindingRef(subject), g.roleBindings))
  }

  function EvidenceRefs(g: Graph, namespace: string, subject: Subject): seq<string> {
    PolicyRefs(g, namespace) + BindingRefs(g, subject)
  }

  function Report(target: string, services: seq<string>, subjects: seq<string>, refs: seq<string>): Assessment {
    var (recommendation, reason) := Recommend(|services| + |subjects|);
    Assessment(target, services, subjects, recommendation, reason, refs)
  }

  function Assess(g: Graph, namespace: string, name: string, subject: Subject): Assessment {
    Report(QualifiedName(namespace, name), AffectedServices(g, namespace, name), AffectedSubjectsOf(g, subject),
           EvidenceRefs(g, namespace, subject))
  }

  /* ---------- What an assessment lists ---------- */

  lemma ReportFields(target: string, services: seq<string>, subjects: seq<string>, refs: seq<string>)
    ensures
      var a := Report(target, services, subjects, refs);
      a.targetService == target && a.affectedServices == services && a.affectedSubjects == subjects
      && a.evidenceRefs == refs
  {}

  /** Which list goes into which field. */
  lemma AssessFields(g: Graph, namespace: string, name: string, subject: Subject)
    ensures
      var a := Assess(g, namespace, name, subject);
      && a.targetService == QualifiedName(namespace, name)
      && a.affectedServices == AffectedServices(g, namespace, name)
      && a.affectedSubjects == AffectedSubjectsOf(g, subject)
      && a.evidenceRefs == EvidenceRefs(g, namespace, subject)
  {
    ReportFields(QualifiedName(namespace, name), AffectedServices(g, namespace, name),
                 AffectedSubjectsOf(g, subject), EvidenceRefs(g, namespace, subject));
  }

  lemma SortedMember(s: seq<string>, x: string)
    ensures x in Sorted(s) <==> x in s
  {
    SortByIsSorted(Identity, s);
    assert x in Sorted(s) <==> x in multiset(Sorted(s));
    assert x in s <==> x in multiset(s);
  }

  /** The services listed, in order, are exactly the other ones of an open namespace. */
  lemma AffectedServicesExact(g: Graph, namespace: string, name: string, text: string)
    ensures text in AffectedServices(g, namespace, name) <==>
      && !HasDefaultDeny(g, namespace)
      && exists svc | svc in g.services ::
          svc.key.namespace == namespace && svc.key.name != name && text == QualifiedName(namespace, svc.key.name)
    ensures SortedBy(Identity, AffectedServices(g, namespace, name))
  {
    var names := FlatMap(SiblingNames(namespace, name), g.services);
    SortedMember(names, text);
    SortByIsSorted(Identity, names);
    FlatMapMember(SiblingNames(namespace, name), g.services, text);
  }

  /** The labels listed, in order and once each, are exactly those of the subjects reached. */
  lemma AffectedSubjectsExact(g: Graph, subject: Subject, text: string)
    ensures text in AffectedSubjectsOf(g, subject) <==>
      exists s :: Reached(g.roleBindings, subject, s) && text == Label(s)
    ensures SortedBy(Identity, AffectedSubjectsOf(g, subject))
    ensures |AffectedSubjectsOf(g, subject)| == |OtherLabels(g.roleBindings, subject)|
  {
    SortedSetIsSorted(OtherLabels(g.roleBindings, subject));
    if text in AffectedSubjectsOf(g, subject) {
      var rb, s :| rb in g.roleBindings && s in rb.subjects && s != subject
                   && SharesRef(g.roleBindings, subject, rb) && text == Label(s);
      assert Reached(g.roleBindings, subject, s);
    }
  }

  function CitesPolicy(namespace: string, ref: string): NetworkPolicyDef -> bool {
    (np: NetworkPolicyDef) => np.namespace == namespace && ref == "networkpolicy/" + namespace + "/" + np.name
  }

  function CitesBinding(subject: Subject, ref: string): RoleBindingDef -> bool {
    (rb: RoleBindingDef) =>
      subject in rb.subjects
      && ref == Lower(rb.kind) + "/" + (if Present(rb.namespace) then rb.namespace.value else "cluster") + "/" + rb.name
  }

  lemma {:induction false} CountCited<A(!new)>(f: A -> seq<string>, cites: A -> bool, s: seq<A>, ref: string)
    requires forall x | x in s :: |f(x)| <= 1 && (cites(x) <==> f(x) == [ref])
    ensures multiset(FlatMap(f, s))[ref] == |Filter(cites, s)|
  {
    if s != [] {
      CountCited(f, cites, s[1..], ref);
      assert |f(s[0])| == 1 ==> f(s[0]) == [f(s[0])[0]];
    }
  }

  lemma PolicyRefsExact(g: Graph, namespace: string, ref: string)
    ensures SortedBy(Identity, PolicyRefs(g, namespace))
    ensures multiset(PolicyRefs(g, namespace))[ref] == |Filter(CitesPolicy(namespace, ref), g.networkPolicies)|
  {
    SortByIsSorted(Identity, FlatMap(PolicyRef(namespace), g.networkPolicies));
    CountCited(PolicyRef(namespace), CitesPolicy(namespace, ref), g.networkPolicies, ref);
  }

  lemma BindingRefsExact(g: Graph, subject: Subject, ref: string)
    ensures SortedBy(Identity, BindingRefs(g, subject))
    ensures multiset(BindingRefs(g, subject))[ref] == |Filter(CitesBinding(subject, ref), g.roleBindings)|
  {
    SortByIsSorted(Identity, FlatMap(BindingRef(subject), g.roleBindings));
    CountCited(BindingRef(subject), CitesBinding(subject, ref), g.roleBindings, ref);
  }

  /** The evidence: first, in order, one reference for each policy of the namespace; then, in order, one for each
      binding of the subject. */
  lemma EvidenceExact(g: Graph, namespace: string, subject: Subject, ref: string)
    ensures
      var policies, bindings := PolicyRefs(g, namespace), BindingRefs(g, subject);
      && EvidenceRefs(g, namespace, subject) == policies + bindings
      && SortedBy(Identity, policies) && SortedBy(Identity, bindings)
      && multiset(policies)[ref] == |Filter(CitesPolicy(namespace, ref), g.networkPolicies)|
      && multiset(bindings)[ref] == |Filter(CitesBinding(subject, ref), g.roleBindings)|
  {
    PolicyRefsExact(g, namespace, ref);
    BindingRefsExact(g, subject, ref);
  }

  /* ---------- The order of manifests does not matter ---------- */

  lemma SortedForgetsOrder(a: seq<string>, b: seq<string>)
    requires multiset(a) == multiset(b)
    ensures Sorted(a) == Sorted(b)
  {
    SortForgetsOrder(Identity, a, b);
  }

  lemma SortedFlatMap<A(!new)>(f: A -> seq<string>, s: seq<A>, t: seq<A>)
    requires multiset(s) == multiset(t)
    ensures Sorted(FlatMap(f, s)) == Sorted(FlatMap(f, t))
  {
    FlatMapPermutation(f, f, s, t);
    SortedForgetsOrder(FlatMap(f, s), FlatMap(f, t));
  }

  /** Graphs whose lists are permutations of each other. */
  ghost predicate PermutedGraph(g: Graph, h: Graph) {
    && multiset(g.roleBindings) == multiset(h.roleBindings)
    && multiset(g.networkPolicies) == multiset(h.networkPolicies)
    && multiset(ServiceKeys(g.services)) == multiset(ServiceKeys(h.services))
  }

  /** Which definition of a service comes last depends on the order of manifests; which services there are does
      not. */
  lemma SameServices(a: seq<ServiceDef>, ms: seq<Manifest>, b: seq<ServiceDef>, ns: seq<Manifest>)
    requires HoldsServices(a, ms) && HoldsServices(b, ns) && forall m :: m in ms <==> m in ns
    ensures multiset(ServiceKeys(a)) == multiset(ServiceKeys(b))
  {
    forall key ensures key in ServiceKeys(a) <==> key in ServiceKeys(b) {
      ServiceAtMeans(a, key);
      ServiceAtMeans(b, key);
      LastServiceMeans(ms, key);
      LastServiceMeans(ns, key);
    }
    SameElements(ServiceKeys(a), ServiceKeys(b));
  }

  lemma {:induction false} SiblingsByKey(namespace: string, name: string, services: seq<ServiceDef>)
    ensures FlatMap(SiblingNames(namespace, name), services)
         == FlatMap(SiblingName(namespace, name), ServiceKeys(services))
  {
    if services != [] {
      SiblingsByKey(namespace, name, services[1..]);
      assert ServiceKeys(services)[1..] == ServiceKeys(services[1..]);
    }
  }

  lemma PermutedManifests(ms: seq<Manifest>, ns: seq<Manifest>)
    requires multiset(ms) == multiset(ns) && AllValid(ms)
    ensures AllValid(ns) && Build(ms).Ok? && Build(ns).Ok?
    ensures PermutedGraph(Build(ms).value, Build(ns).value)
  {
    PermutationMembers(ms, ns);
    BuildHolds(ms);
    BuildHolds(ns);
    FlatMapPermutation(BindingsIn, BindingsIn, ms, ns);
    FlatMapPermutation(PoliciesIn, PoliciesIn, ms, ns);
    SameServices(Build(ms).value.services, ms, Build(ns).value.services, ns);
  }

  lemma SubjectsPermuted(g: Graph, h: Graph, subject: Subject)
    requires PermutedGraph(g, h)
    ensures AffectedSubjectsOf(g, subject) == AffectedSubjectsOf(h, subject)
  {
    PermutationMembers(g.roleBindings, h.roleBindings);
    LabelsOfSameBindings(g.roleBindings, h.roleBindings, subject);
  }

  lemma LabelsOfSameBindings(a: seq<RoleBindingDef>, b: seq<RoleBindingDef>, subject: Subject)
    requires forall rb :: rb in a <==> rb in b
    ensures OtherLabels(a, subject) == OtherLabels(b, subject)
  {
    assert forall rb :: SharesRef(a, subject, rb) <==> SharesRef(b, subject, rb);
  }

  lemma EvidencePermuted(g: Graph, h: Graph, namespace: string, subject: Subject)
    requires PermutedGraph(g, h)
    ensures EvidenceRefs(g, namespace, subject) == EvidenceRefs(h, namespace, subject)
  {
    SortedFlatMap(PolicyRef(namespace), g.networkPolicies, h.networkPolicies);
    SortedFlatMap(BindingRef(subject), g.roleBindings, h.roleBindings);
  }

  lemma ServicesPermuted(g: Graph, h: Graph, namespace: string, name: string)
    requires PermutedGraph(g, h)
    ensures AffectedServices(g, namespace, name) == AffectedServices(h, namespace, name)
  {
    PermutationMembers(g.networkPolicies, h.networkPolicies);
    SiblingsByKey(namespace, name, g.services);
    SiblingsByKey(namespace, name, h.services);
    SortedFlatMap(SiblingName(namespace, name), ServiceKeys(g.services), ServiceKeys(h.services));
  }

  /** Any permutation of any list of valid manifests yields the same assessment, field by field. */
  lemma {:induction false} AssessmentIgnoresOrder(
      ms: seq<Manifest>, ns: seq<Manifest>, namespace: string, name: string, subject: Subject)
    requires multiset(ms) == multiset(ns) && AllValid(ms)
    ensures Build(ms).Ok? && Build(ns).Ok?
    ensures Assess(Build(ms).value, namespace, name, subject) == Assess(Build(ns).value, namespace, name, subject)
  {
    PermutedManifests(ms, ns);
    AssessPermuted(Build(ms).value, Build(ns).value, namespace, name, subject);
  }

  lemma AssessPermuted(g: Graph, h: Graph, namespace: string, name: string, subject: Subject)
    requires PermutedGraph(g, h)
    ensures Assess(g, namespace, name, subject) == Assess(h, namespace, name, subject)
  {
    ServicesPermuted(g, h, namespace, name);
    SubjectsPermuted(g, h, subject);
    EvidencePermuted(g, h, namespace, subject);
  }

  /* ---------- Monotonicity ---------- */

  function Rank(r: Recommendation): nat {
    match r case Go => 0 case Narrow => 1 case Stop => 2
  }

  lemma SiblingsGrow(namespace: string, name: string, services: seq<ServiceDef>, svc: ServiceDef)
    ensures |FlatMap(SiblingNames(namespace, name), services)|
         <= |FlatMap(SiblingNames(namespace, name), PutService(services, svc))|
  {
    var keys := ServiceKeys(services);
    SiblingsByKey(namespace, name, services);
    SiblingsByKey(namespace, name, PutService(services, svc));
    PutServiceKeys(services, svc);
    FlatMapConcat(SiblingName(namespace, name), keys, if svc.key in keys then [] else [svc.key]);
  }

  lemma LabelsGrow(bindings: seq<RoleBindingDef>, rb: RoleBindingDef, subject: Subject)
    ensures OtherLabels(bindings, subject) <= OtherLabels(bindings + [rb], subject)
  {
    forall b | b in bindings && SharesRef(bindings, subject, b) ensures SharesRef(bindings + [rb], subject, b) {
      var own :| own in bindings && subject in own.subjects
                 && own.roleRefKind == b.roleRefKind && own.roleRefName == b.roleRefName;
      assert own in bindings + [rb];
    }
  }

  lemma SubsetSize(a: set<string>, b: set<string>)
    requires a <= b
    ensures |a| <= |b|
  {
    assert b == a + (b - a);
  }

  lemma ServicesGrow(g: Graph, m: Manifest, namespace: string, name: string)
    requires Valid(m) && m.kind != Some("NetworkPolicy")
    ensures |AffectedServices(g, namespace, name)| <= |AffectedServices(Add(g, m), namespace, name)|
  {
    SortedSize(FlatMap(SiblingNames(namespace, name), g.services));
    SortedSize(FlatMap(SiblingNames(namespace, name), Add(g, m).services));
    if m.kind == Some("Service") {
      SiblingsGrow(namespace, name, g.services, ServiceOf(m));
    }
  }

  lemma SubjectsGrow(g: Graph, m: Manifest, subject: Subject)
    requires Valid(m)
    ensures |AffectedSubjectsOf(g, subject)| <= |AffectedSubjectsOf(Add(g, m), subject)|
  {
    AddToLists(g, m);
    if IsBinding(m) {
      LabelsGrow(g.roleBindings, BindingOf(m), subject);
      SubsetSize(OtherLabels(g.roleBindings, subject), OtherLabels(g.roleBindings + [BindingOf(m)], subject));
    }
  }

  function RankOf(g: Graph, namespace: string, name: string, subject: Subject): nat {
    Rank(Assess(g, namespace, name, subject).recommendation)
  }

  lemma RankIsByTotal(g: Graph, namespace: string, name: string, subject: Subject)
    ensures RankOf(g, namespace, name, subject)
         == Rank(Recommend(|AffectedServices(g, namespace, name)| + |AffectedSubjectsOf(g, subject)|).0)
  {}

  lemma RankByTotal(g: Graph, h: Graph, namespace: string, name: string, subject: Subject)
    requires |AffectedServices(g, namespace, name)| <= |AffectedServices(h, namespace, name)|
    requires |AffectedSubjectsOf(g, subject)| <= |AffectedSubjectsOf(h, subject)|
    ensures RankOf(g, namespace, name, subject) <= RankOf(h, namespace, name, subject)
  {
    RankIsByTotal(g, namespace, name, subject);
    RankIsByTotal(h, namespace, name, subject);
  }

  lemma ServicesShrink(g: Graph, h: Graph, namespace: string, name: string)
    requires g.services == h.services && (HasDefaultDeny(g, namespace) ==> HasDefaultDeny(h, namespace))
    ensures |AffectedServices(h, namespace, name)| <= |AffectedServices(g, namespace, name)|
  {}

  lemma DenialStays(g: Graph, m: Manifest, namespace: string)
    requires Valid(m) && m.kind == Some("NetworkPolicy") && HasDefaultDeny(g, namespace)
    ensures HasDefaultDeny(Add(g, m), namespace)
  {
    var np :| np in g.networkPolicies && np.namespace == namespace && np.isDefaultDeny;
    assert np in Add(g, m).networkPolicies;
  }

  lemma PolicyLowers(g: Graph, m: Manifest, namespace: string, name: string, subject: Subject)
    requires Valid(m) && m.kind == Some("NetworkPolicy")
    ensures RankOf(Add(g, m), namespace, name, subject) <= RankOf(g, namespace, name, subject)
  {
    var h := Add(g, m);
    assert h.services == g.services && h.roleBindings == g.roleBindings;
    if HasDefaultDeny(g, namespace) { DenialStays(g, m, namespace); }
    ServicesShrink(g, h, namespace, name);
    RankByTotal(h, g, namespace, name, subject);
  }

  lemma OtherRaises(g: Graph, m: Manifest, namespace: string, name: string, subject: Subject)
    requires Valid(m) && m.kind != Some("NetworkPolicy")
    ensures RankOf(g, namespace, name, subject) <= RankOf(Add(g, m), namespace, name, subject)
  {
    ServicesGrow(g, m, namespace, name);
    SubjectsGrow(g, m, subject);
    RankByTotal(g, Add(g, m), namespace, name, subject);
  }

  /** One more manifest never lowers the recommendation, unless it is a NetworkPolicy; and that never raises it. */
  lemma RecommendationMonotone(ms: seq<Manifest>, m: Manifest, namespace: string, name: string, subject: Subject)
    requires AllValid(ms) && Valid(m)
    ensures Build(ms).Ok? && Build(ms + [m]).Ok?
    ensures
      var before := RankOf(Build(ms).value, namespace, name, subject);
      var after := RankOf(Build(ms + [m]).value, namespace, name, subject);
      if m.kind == Some("NetworkPolicy") then after <= before else before <= after
  {
    BuildHolds(ms);
    var g := Build(ms).value;
    assert (ms + [m])[..|ms|] == ms;
    assert Build(ms + [m]) == Ok(Add(g, m));
    if m.kind == Some("NetworkPolicy") {
      PolicyLowers(g, m, namespace, name, subject);
    } else {
      OtherRaises(g, m, namespace, name, subject);
    }
  }

  /** GO: nobody else shares a role reference, and the namespace is closed or holds no other service. */
  lemma GoIff(g: Graph, namespace: string, name: string, subject: Subject)
    ensures Assess(g, namespace, name, subject).recommendation == Go <==>
      && (forall s :: !Reached(g.roleBindings, subject, s))
      && (HasDefaultDeny(g, namespace)
          || forall svc | svc in g.services :: svc.key.namespace == namespace ==> svc.key.name == name)
  {
    NoSiblings(g.services, namespace, name);
    NobodyReached(g.roleBindings, subject);
  }

  /** Other services of an open namespace and distinct labels of the subjects reached. */
  function TotalAffected(g: Graph, namespace: string, name: string, subject: Subject): nat {
    (if HasDefaultDeny(g, namespace) then 0 else |FlatMap(SiblingNames(namespace, name), g.services)|)
    + |OtherLabels(g.roleBindings, subject)|
  }

  lemma TotalIsListed(g: Graph, namespace: string, name: string, subject: Subject)
    ensures TotalAffected(g, namespace, name, subject)
         == |AffectedServices(g, namespace, name)| + |AffectedSubjectsOf(g, subject)|
  {
    SortedSize(FlatMap(SiblingNames(namespace, name), g.services));
  }

  /** GO: nothing affected; NARROW: one or two resources; STOP: three or more; the reason quotes how many. */
  ghost predicate InBand(r: Recommendation, reason: Reason, total: nat) {
    && (r == Go <==> total == 0) && (r == Narrow <==> 1 <= total <= 2) && (r == Stop <==> total >= 3)
    && (r == Go ==> reason == Isolated) && (r == Narrow ==> reason == Limited(total))
    && (r == Stop ==> reason == Wide(total))
  }

  lemma RecommendInBand(total: nat)
    ensures InBand(Recommend(total).0, Recommend(total).1, total)
  {}

  lemma ReportRecommends(target: string, services: seq<string>, subjects: seq<string>, refs: seq<string>)
    ensures
      var a := Report(target, services, subjects, refs);
      a.recommendation == Recommend(|services| + |subjects|).0 && a.reason == Recommend(|services| + |subjects|).1
  {}

  lemma Bands(g: Graph, namespace: string, name: string, subject: Subject, total: nat)
    requires total == TotalAffected(g, namespace, name, subject)
    ensures
      var a := Assess(g, namespace, name, subject);
      InBand(a.recommendation, a.reason, total)
  {
    TotalIsListed(g, namespace, name, subject);
    ReportRecommends(QualifiedName(namespace, name), AffectedServices(g, namespace, name),
                     AffectedSubjectsOf(g, subject), EvidenceRefs(g, namespace, subject));
    RecommendInBand(total);
  }

  lemma NoSiblings(services: seq<ServiceDef>, namespace: string, name: string)
    ensures |Sorted(FlatMap(SiblingNames(namespace, name), services))| == 0 <==>
      forall svc | svc in services :: svc.key.namespace == namespace ==> svc.key.name == name
  {
    var names := FlatMap(SiblingNames(namespace, name), services);
    SortedSize(names);
    if names != [] {
      FlatMapMember(SiblingNames(namespace, name), services, names[0]);
    }
    forall svc | svc in services && svc.key.namespace == namespace && svc.key.name != name ensures names != [] {
      FlatMapMember(SiblingNames(namespace, name), services, QualifiedName(namespace, svc.key.name));
      assert QualifiedName(namespace, svc.key.name) in SiblingNames(namespace, name)(svc);
    }
  }

  lemma NobodyReached(bindings: seq<RoleBindingDef>, subject: Subject)
    ensures |SortedSet(OtherLabels(bindings, subject))| == 0 <==> forall s :: !Reached(bindings, subject, s)
  {
    var labels := OtherLabels(bindings, subject);
    forall s | Reached(bindings, subject, s) ensures Label(s) in labels {}
    if labels != {} {
      var l :| l in labels;
      var rb, s :| rb in bindings && s in rb.subjects && s != subject
                   && SharesRef(bindings, subject, rb) && l == Label(s);
      assert Reached(bindings, subject, s);
    }
  }

  /* ---------- Sharing a role ---------- */

  /** Both subjects get the rules of the role with this key. */
  predicate ShareRole(g: Graph, a: Subject, b: Subject, key: RoleKey) {
    && key in g.roles
    && (exists rb | rb in g.roleBindings :: a in rb.subjects && ResolvedKey(rb) == key)
    && (exists rb | rb in g.roleBindings :: b in rb.subjects && ResolvedKey(rb) == key)
  }

  lemma ReachedIsSymmetric(bindings: seq<RoleBindingDef>, a: Subject, b: Subject)
    ensures Reached(bindings, a, b) <==> Reached(bindings, b, a)
  {
    ReachedBack(bindings, a, b);
    ReachedBack(bindings, b, a);
  }

  lemma ReachedBack(bindings: seq<RoleBindingDef>, a: Subject, b: Subject)
    ensures Reached(bindings, a, b) ==> Reached(bindings, b, a)
  {
    if Reached(bindings, a, b) {
      var rb :| rb in bindings && b in rb.subjects && SharesRef(bindings, a, rb);
      var own :| own in bindings && a in own.subjects
                 && own.roleRefKind == rb.roleRefKind && own.roleRefName == rb.roleRefName;
      assert SharesRef(bindings, b, own);
    }
  }

  /** Two subjects that get rules through one resolved role each appear, by label, in the other's affected
      subjects. */
  lemma SharedRoleIsReported(g: Graph, a: Subject, b: Subject, key: RoleKey)
    requires a != b && ShareRole(g, a, b, key)
    ensures Label(b) in AffectedSubjectsOf(g, a) && Label(a) in AffectedSubjectsOf(g, b)
  {
    var ra :| ra in g.roleBindings && a in ra.subjects && ResolvedKey(ra) == key;
    var rb :| rb in g.roleBindings && b in rb.subjects && ResolvedKey(rb) == key;
    assert SharesRef(g.roleBindings, a, rb) && SharesRef(g.roleBindings, b, ra);
  }

  /** Namespaced definitions have a namespace and cluster-wide ones have none. */
  predicate ScopedBinding(rb: RoleBindingDef) {
    if rb.kind == "RoleBinding" then Present(rb.namespace) else rb.kind == "ClusterRoleBinding" && rb.namespace == None
  }

  predicate ScopedRole(key: RoleKey) {
    if key.kind == "Role" then Present(key.namespace) else key.kind == "ClusterRole" && key.namespace == None
  }

  lemma BuiltGraphsAreScoped(ms: seq<Manifest>, g: Graph)
    requires AllValid(ms) && Build(ms) == Ok(g)
    ensures forall rb | rb in g.roleBindings :: ScopedBinding(rb)
    ensures forall key | key in g.roles :: ScopedRole(key)
  {
    BuildHolds(ms);
    forall rb | rb in g.roleBindings ensures ScopedBinding(rb) {
      FlatMapMember(BindingsIn, ms, rb);
      var m :| m in ms && rb in BindingsIn(m);
      assert rb == BindingOf(m);
    }
    forall key | key in g.roles ensures ScopedRole(key) {
      var m :| m in ms && DefinesRole(m, key) && g.roles[key] == RoleOf(m);
    }
  }

  /** In a built graph a subject has exactly the rules some binding of it grants, and a Role's rules only through
      a RoleBinding of the Role's own namespace. */
  lemma RolesStayInTheirNamespace(ms: seq<Manifest>, g: Graph, subject: Subject, rule: PolicyRule)
    requires AllValid(ms) && Build(ms) == Ok(g)
    ensures rule in RulesOf(g, subject) <==> exists rb :: rb in g.roleBindings && Grants(g, rb, subject, rule)
  {
    BuiltGraphsAreScoped(ms, g);
    FlatMapMember(Through(g.roles), BindingsForSubject(g, subject), rule);
    if rule in RulesOf(g, subject) {
      var rb :| rb in BindingsForSubject(g, subject) && rule in Through(g.roles)(rb);
      assert ScopedBinding(rb) && ScopedRole(ResolvedKey(rb));
      assert Grants(g, rb, subject, rule);
    }
    forall rb | rb in g.roleBindings && Grants(g, rb, subject, rule) ensures rule in RulesOf(g, subject) {
      assert rb in BindingsForSubject(g, subject) && rule in Through(g.roles)(rb);
    }
  }

  /** The binding gives the subject the rule; if from a Role, it is a RoleBinding in that Role's namespace. */
  predicate Grants(g: Graph, rb: RoleBindingDef, subject: Subject, rule: PolicyRule) {
    var key := ResolvedKey(rb);
    && subject in rb.subjects && key in g.roles && rule in g.roles[key].rules
    && (key.kind == "Role" ==> rb.kind == "RoleBinding" && Present(rb.namespace) && key.namespace == rb.namespace)
  }

  /** A binding of `a` and a binding of `b` that name one kind and one role name: all that a report looks at. */
  predicate SameRef(g: Graph, a: Subject, b: Subject, ra: RoleBindingDef, rb: RoleBindingDef) {
    && ra in g.roleBindings && a in ra.subjects && rb in g.roleBindings && b in rb.subjects
    && ra.roleRefKind == rb.roleRefKind && ra.roleRefName == rb.roleRefName
  }

  /** They name one role that exists: a Role only within one namespace. */
  predicate SameRole(g: Graph, ra: RoleBindingDef, rb: RoleBindingDef) {
    (ra.roleRefKind == "Role" ==> ra.namespace == rb.namespace) && ResolvedKey(ra) in g.roles
  }

  lemma ReachedBySameRef(g: Graph, a: Subject, b: Subject)
    ensures Reached(g.roleBindings, a, b) <==> a != b && exists ra, rb :: SameRef(g, a, b, ra, rb)
  {
    if Reached(g.roleBindings, a, b) {
      var rb :| rb in g.roleBindings && b in rb.subjects && SharesRef(g.roleBindings, a, rb);
      var ra :| ra in g.roleBindings && a in ra.subjects
                && ra.roleRefKind == rb.roleRefKind && ra.roleRefName == rb.roleRefName;
      assert SameRef(g, a, b, ra, rb);
    }
    forall ra, rb | SameRef(g, a, b, ra, rb) ensures SharesRef(g.roleBindings, a, rb) {}
  }

  /** Two subjects get rules through one role exactly when some binding of the one and some binding of the other
      agree in kind and name and, further, lie in one namespace if the kind is Role, and name a role that
      exists. */
  lemma ShareRoleIff(g: Graph, a: Subject, b: Subject)
    ensures (exists key :: ShareRole(g, a, b, key)) <==>
      exists ra, rb :: SameRef(g, a, b, ra, rb) && SameRole(g, ra, rb)
  {
    forall key | ShareRole(g, a, b, key) ensures exists ra, rb :: SameRef(g, a, b, ra, rb) && SameRole(g, ra, rb) {
      var ra :| ra in g.roleBindings && a in ra.subjects && ResolvedKey(ra) == key;
      var rb :| rb in g.roleBindings && b in rb.subjects && ResolvedKey(rb) == key;
      assert SameRef(g, a, b, ra, rb) && SameRole(g, ra, rb);
    }
    forall ra, rb | SameRef(g, a, b, ra, rb) && SameRole(g, ra, rb) ensures ShareRole(g, a, b, ResolvedKey(ra)) {}
  }

  /** What is listed rests on kind and name alone, so a listed subject may share no role. */
  lemma ReportedIff(g: Graph, a: Subject, text: string)
    ensures text in AffectedSubjectsOf(g, a) <==>
      exists b, ra, rb :: a != b && text == Label(b) && SameRef(g, a, b, ra, rb)
  {
    AffectedSubjectsExact(g, a, text);
    forall b { ReachedBySameRef(g, a, b); }
  }

  function RoleManifest(name: string, namespace: string, rules: seq<PolicyRule>): Manifest {
    Manifest(Some("Role"), Some(name), Some(namespace), rules, None, [],
             [], None, [], [], [], false, false)
  }

  function Raw(s: Subject): RawSubject { RawSubject(Some(s.kind), Some(s.name), s.namespace) }

  function BindingManifest(name: string, namespace: string, role: string, subjects: seq<RawSubject>): Manifest {
    Manifest(Some("RoleBinding"), Some(name), Some(namespace), [],
             Some(RoleRef(Some("Role"), Some(role))), subjects, [], None, [], [], [], false, false)
  }

  /** Two Roles named `r`, one in namespace `a` and bound to `s`, one in namespace `b` and bound to `t`. */
  function Namesakes(s: Subject, t: Subject, rules: seq<PolicyRule>): seq<Manifest> {
    [RoleManifest("r", "a", rules), RoleManifest("r", "b", rules),
     BindingManifest("x", "a", "r", [Raw(s)]), BindingManifest("y", "b", "r", [Raw(t)])]
  }

  /** One binding of both subjects to a Role that no manifest defines. */
  function Dangling(s: Subject, t: Subject): seq<Manifest> {
    [BindingManifest("x", "a", "r", [Raw(s), Raw(t)])]
  }

  lemma BindingBuilt(name: string, namespace: string, role: string, subjects: seq<Subject>, raws: seq<RawSubject>)
    requires name != "" && namespace != ""
    requires |subjects| == |raws| && forall i | 0 <= i < |raws| :: raws[i] == Raw(subjects[i])
    ensures Valid(BindingManifest(name, namespace, role, raws))
    ensures BindingOf(BindingManifest(name, namespace, role, raws))
         == RoleBindingDef("RoleBinding", name, Some(namespace), "Role", role, subjects)
  {
    assert BindingOf(BindingManifest(name, namespace, role, raws)).subjects == subjects;
  }

  lemma FlatMapFour<A, B>(f: A -> seq<B>, s: seq<A>)
    requires |s| == 4
    ensures FlatMap(f, s) == f(s[0]) + f(s[1]) + f(s[2]) + f(s[3])
  {
    var (t, u, v) := (s[1..], s[2..], s[3..]);
    assert t[1..] == u && u[1..] == v && v == [s[3]];
    FlatMapOne(f, s[3]);
    assert FlatMap(f, u) == f(s[2]) + FlatMap(f, v);
    assert FlatMap(f, t) == f(s[1]) + FlatMap(f, u);
  }

  function NamesakeBindings(s: Subject, t: Subject): seq<RoleBindingDef> {
    [RoleBindingDef("RoleBinding", "x", Some("a"), "Role", "r", [s]),
     RoleBindingDef("RoleBinding", "y", Some("b"), "Role", "r", [t])]
  }

  lemma NamesakesBuilt(s: Subject, t: Subject, rules: seq<PolicyRule>)
    ensures AllValid(Namesakes(s, t, rules)) && Build(Namesakes(s, t, rules)).Ok?
    ensures Build(Namesakes(s, t, rules)).value.roleBindings == NamesakeBindings(s, t)
  {
    var ms := Namesakes(s, t, rules);
    BindingBuilt("x", "a", "r", [s], [Raw(s)]);
    BindingBuilt("y", "b", "r", [t], [Raw(t)]);
    assert Valid(ms[0]) && Valid(ms[1]) && Valid(ms[2]) && Valid(ms[3]);
    BuildHolds(ms);
    FlatMapFour(BindingsIn, ms);
  }

  lemma DanglingBuilt(s: Subject, t: Subject)
    ensures AllValid(Dangling(s, t)) && Build(Dangling(s, t)).Ok?
    ensures Build(Dangling(s, t)).value.roles == map[]
    ensures Build(Dangling(s, t)).value.roleBindings
         == [RoleBindingDef("RoleBinding", "x", Some("a"), "Role", "r", [s, t])]
  {
    var ms := Dangling(s, t);
    BindingBuilt("x", "a", "r", [s, t], [Raw(s), Raw(t)]);
    assert ms[..0] == [] && Build(ms) == Ok(Add(EMPTY, ms[0]));
  }

  lemma NamesakesShareNoRole(g: Graph, s: Subject, t: Subject)
    requires s != t && g.roleBindings == NamesakeBindings(s, t)
    ensures Reached(g.roleBindings, s, t) && forall key :: !ShareRole(g, s, t, key)
  {
    var ra, rb := g.roleBindings[0], g.roleBindings[1];
    assert SameRef(g, s, t, ra, rb);
    ReachedBySameRef(g, s, t);
    ShareRoleIff(g, s, t);
    assert "a"[0] != "b"[0];
  }

  lemma DanglingShareNoRole(g: Graph, s: Subject, t: Subject)
    requires s != t && g.roles == map[]
    requires g.roleBindings == [RoleBindingDef("RoleBinding", "x", Some("a"), "Role", "r", [s, t])]
    ensures Reached(g.roleBindings, s, t) && forall key :: !ShareRole(g, s, t, key)
  {
    var rb := g.roleBindings[0];
    assert SameRef(g, s, t, rb, rb);
    ReachedBySameRef(g, s, t);
  }

  /** A report names subjects that share no role: in `Namesakes` two Roles of different namespaces happen to have
      one name, in `Dangling` the Role does not exist. */
  lemma SharedNameIsReportedToo(s: Subject, t: Subject, rules: seq<PolicyRule>, ms: seq<Manifest>)
    requires s != t && (ms == Namesakes(s, t, rules) || ms == Dangling(s, t))
    ensures AllValid(ms) && Build(ms).Ok?
    ensures Label(t) in AffectedSubjectsOf(Build(ms).value, s)
    ensures forall key :: !ShareRole(Build(ms).value, s, t, key)
  {
    if ms == Namesakes(s, t, rules) {
      NamesakesBuilt(s, t, rules);
      NamesakesShareNoRole(Build(ms).value, s, t);
    } else {
      DanglingBuilt(s, t);
      DanglingShareNoRole(Build(ms).value, s, t);
    }
    AffectedSubjectsExact(Build(ms).value, s, Label(t));
  }
}
