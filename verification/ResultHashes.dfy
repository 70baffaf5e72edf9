/** The payload hash of an action result: what it pins down, and what marking a result as rolled back does to it. */
module ResultHashes {
  import opened Options
  import opened Json
  import opened PlanHash
  import opened Devices

  function Texts(s: seq<string>): (r: seq<Json>)
    ensures |r| == |s| && forall i | 0 <= i < |s| :: r[i] == Str(s[i])
  {
    seq(|s|, i requires 0 <= i < |s| => Str(s[i]))
  }

  function Verification(passed: bool, detail: string): seq<Member> {
    [Member("passed", Bool(passed)), Member("detail", Str(detail))]
  }

  const KEYS := ["action_id", "idempotency_key", "dry_run", "started_at", "ended_at", "status", "changed_resources",
                 "verification", "rollback_ref"]

  /** The values of a payload in the order of `KEYS`; only a marked result has the last. */
  function Values(p: Payload): (r: seq<Json>)
    ensures |r| == if p.rollbackRef.Some? then 9 else 8
  {
    [Str(p.actionId), Str(p.idempotencyKey), Bool(p.dryRun), Str(p.startedAt), Str(p.endedAt), Str(p.status),
     Arr(Texts(p.changedResources)), Obj(Verification(p.passed, p.detail))]
    + if p.rollbackRef.Some? then [Str(p.rollbackRef.value)] else []
  }

  function Members(values: seq<Json>): (r: seq<Member>)
    requires |values| <= |KEYS|
    ensures |r| == |values| && forall i | 0 <= i < |r| :: r[i] == Member(KEYS[i], values[i])
  {
    seq(|values|, i requires 0 <= i < |values| => Member(KEYS[i], values[i]))
  }

  function PayloadJson(p: Payload): Json { Obj(Members(Values(p))) }

  /** The payload as it is hashed, key by key; the last only in a marked result. */
  lemma PayloadReads(p: Payload)
    ensures
      var verification := Obj([Member("passed", Bool(p.passed)), Member("detail", Str(p.detail))]);
      var common := [
        Member("action_id", Str(p.actionId)), Member("idempotency_key", Str(p.idempotencyKey)),
        Member("dry_run", Bool(p.dryRun)), Member("started_at", Str(p.startedAt)), Member("ended_at", Str(p.endedAt)),
        Member("status", Str(p.status)), Member("changed_resources", Arr(Texts(p.changedResources))),
        Member("verification", verification)];
      PayloadJson(p)
        == Obj(common + if p.rollbackRef.Some? then [Member("rollback_ref", Str(p.rollbackRef.value))] else [])
  {
    var ms := Members(Values(p));
    assert ms[..8] == [ms[0], ms[1], ms[2], ms[3], ms[4], ms[5], ms[6], ms[7]];
    assert ms == ms[..8] + ms[8..];
    assert ms[8..] == if p.rollbackRef.Some? then [ms[8]] else [];
  }

  /** The `payload_hash` of a result. */
  function HashOf(digest: Digest, r: ActionResult): string {
    Sha256OfPayload(digest, PayloadJson(r.hashed))
  }

  /** The hash a reader computes from the payload the result carries. */
  function Recomputed(digest: Digest, r: ActionResult): string {
    Sha256OfPayload(digest, PayloadJson(r.payload))
  }

  lemma KeysDiffer()
    ensures forall i, j | 0 <= i < j < |KEYS| :: KEYS[i] != KEYS[j]
  {
    assert |KEYS[0]| == 9 && |KEYS[1]| == 15 && |KEYS[2]| == 7 && |KEYS[3]| == 10 && |KEYS[4]| == 8;
    assert |KEYS[5]| == 6 && |KEYS[6]| == 17 && |KEYS[7]| == 12 && |KEYS[8]| == 12;
    assert KEYS[7][0] == 'v' && KEYS[8][0] == 'r';
  }

  lemma PayloadWellFormed(p: Payload)
    ensures WellFormed(PayloadJson(p))
  {
    KeysDiffer();
    VerificationWellFormed(p.passed, p.detail);
    var values := Values(p);
    forall i | 0 <= i < |values| ensures WellFormed(values[i]) {}
  }

  lemma VerificationWellFormed(passed: bool, detail: string)
    ensures WellFormed(Obj(Verification(passed, detail)))
  {
    assert "passed"[0] == 'p' && "detail"[0] == 'd';
  }

  /** Dicts that list the same keys in the same order are equal exactly entry by entry. */
  lemma AlignedMembers(ms: seq<Member>, ns: seq<Member>, i: nat)
    requires Equal(Obj(ms), Obj(ns)) && i < |ms|
    requires forall k | 0 <= k < |ms| :: ms[k].key == ns[k].key
    requires forall j, k | 0 <= j < k < |ns| :: ns[j].key != ns[k].key
    ensures Equal(ms[i].value, ns[i].value)
  {
    assert HasMember(ms[i], ns);
    var k :| 0 <= k < |ns| && SameMember(ms[i], ns[k]);
    assert k == i;
  }

  lemma EqualTexts(a: Json, b: Json, s: seq<string>, t: seq<string>)
    requires a == Arr(Texts(s)) && b == Arr(Texts(t)) && Equal(a, b)
    ensures s == t
  {
    forall i | 0 <= i < |s| ensures s[i] == t[i] {
      assert Equal(a.items[i], b.items[i]);
    }
  }

  lemma EqualVerifications(a: Json, b: Json, passed: bool, detail: string, passed': bool, detail': string)
    requires a == Obj(Verification(passed, detail)) && b == Obj(Verification(passed', detail')) && Equal(a, b)
    ensures passed == passed' && detail == detail'
  {
    assert "passed"[0] == 'p' && "detail"[0] == 'd';
    AlignedMembers(a.members, b.members, 0);
    AlignedMembers(a.members, b.members, 1);
  }

  lemma EqualValues(p: Payload, q: Payload)
    requires Equal(PayloadJson(p), PayloadJson(q))
    ensures |Values(p)| == |Values(q)| && forall i | 0 <= i < |Values(p)| :: Equal(Values(p)[i], Values(q)[i])
  {
    var ms, ns := Members(Values(p)), Members(Values(q));
    KeysDiffer();
    forall i | 0 <= i < |ms| ensures Equal(ms[i].value, ns[i].value) {
      AlignedMembers(ms, ns, i);
    }
  }

  lemma EqualScalar(a: Json, b: Json)
    requires Equal(a, b) && (a.Str? || a.Bool?)
    ensures a == b
  {}

  ghost predicate SameScalars(v: seq<Json>, w: seq<Json>) {
    |v| == |w| && forall i | 0 <= i < |v| && (v[i].Str? || v[i].Bool?) :: v[i] == w[i]
  }

  lemma EqualScalars(v: seq<Json>, w: seq<Json>)
    requires |v| == |w| && forall i | 0 <= i < |v| :: Equal(v[i], w[i])
    ensures SameScalars(v, w)
  {
    forall i | 0 <= i < |v| && (v[i].Str? || v[i].Bool?) ensures v[i] == w[i] {
      EqualScalar(v[i], w[i]);
    }
  }

  lemma ScalarFields(p: Payload, q: Payload)
    requires SameScalars(Values(p), Values(q))
    ensures q == p.(changedResources := q.changedResources, passed := q.passed, detail := q.detail)
  {
    var v, w := Values(p), Values(q);
    assert v[0] == w[0] && v[1] == w[1] && v[2] == w[2] && v[3] == w[3] && v[4] == w[4] && v[5] == w[5];
    assert p.rollbackRef.Some? ==> v[8] == w[8];
  }

  /** Equal payload texts are equal payloads, field by field. */
  lemma EqualPayloads(p: Payload, q: Payload)
    requires Equal(PayloadJson(p), PayloadJson(q))
    ensures p == q
  {
    EqualValues(p, q);
    EqualScalars(Values(p), Values(q));
    ScalarFields(p, q);
    EqualTexts(Values(p)[6], Values(q)[6], p.changedResources, q.changedResources);
    EqualVerifications(Values(p)[7], Values(q)[7], p.passed, p.detail, q.passed, q.detail);
  }

  /** One payload hash fits one payload, or names a collision. */
  lemma ResultHashBinds(digest: Digest, r: ActionResult, r': ActionResult)
    requires HashOf(digest, r) == HashOf(digest, r')
    ensures r.hashed == r'.hashed || Collision(digest, Dumps(PayloadJson(r.hashed)), Dumps(PayloadJson(r'.hashed)))
  {
    PayloadWellFormed(r.hashed);
    PayloadHashBinds(digest, PayloadJson(r.hashed), PayloadJson(r'.hashed));
    if Equal(PayloadJson(r.hashed), PayloadJson(r'.hashed)) {
      EqualPayloads(r.hashed, r'.hashed);
    }
  }

  /** A result as an executor or a rollback makes it. */
  ghost predicate Fresh(r: ActionResult) {
    r.hashed == r.payload && r.payload.status == "succeeded" && r.payload.rollbackRef == None
  }

  ghost predicate AllFresh<K(!new)>(memo: Memo<K>) { forall k | k in memo :: Fresh(memo[k]) }

  /** Every result ever stored or returned carries the hash of its own payload. */
  lemma {:induction false} StoredHashesHold<S(!new), V(!new), K(!new)>(
      d: Device<S, V>, s: S, memo: Memo<K>, calls: seq<Call<K>>)
    requires AllFresh(memo)
    ensures
      var (_, memo', replies) := Run(d, s, memo, calls);
      AllFresh(memo') && forall i | 0 <= i < |replies| && replies[i].Returned? :: Fresh(replies[i].result)
    decreases |calls|
  {
    if calls != [] {
      var (s', memo', reply) := Invoke(d, s, memo, calls[0]);
      StoredHashesHold(d, s', memo', calls[1..]);
      assert Run(d, s, memo, calls).2 == [reply] + Run(d, s', memo', calls[1..]).2;
    }
  }

  /** A marked copy keeps the original's hash while its payload changes: the hash a reader recomputes from it is
      another one, unless the two texts collide. */
  lemma MarkedHashIsStale(digest: Digest, original: ActionResult, rollback: ActionResult)
    requires Fresh(original)
    ensures
      var marked := MarkRolledBack(original, rollback, true).result;
      && HashOf(digest, marked) == HashOf(digest, original) == Recomputed(digest, original)
      && (HashOf(digest, marked) != Recomputed(digest, marked)
          || Collision(digest, Dumps(PayloadJson(original.payload)), Dumps(PayloadJson(marked.payload))))
  {
    var marked := MarkRolledBack(original, rollback, true).result;
    if HashOf(digest, marked) == Recomputed(digest, marked) {
      ResultHashBinds(digest, marked, marked.(hashed := marked.payload));
    }
  }
}
