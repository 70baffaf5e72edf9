/** What an Approval is bound to: the plan hash and the signature reference.

    SHA-256 is a parameter.  Its texts are unbounded and its digests have a fixed length, so no digest is
    free of collisions; every theorem here therefore names the two texts that would have to collide. */
module PlanHash {
  import opened Options
  import opened Json
  import Ordering

  predicate IsHex(c: char) { '0' <= c <= '9' || 'a' <= c <= 'f' }

  type Hex64 = s: string | |s| == 64 && forall i | 0 <= i < |s| :: IsHex(s[i])
    witness seq(64, _ => '0')

  /** `hashlib.sha256(text.encode()).hexdigest()`. */
  type Digest = string -> Hex64

  const PREFIX := "sha256:"

  /** The arguments of `compute_plan_hash`; `params` lists the dict's items in insertion order
      (`None` and `{}` are both the empty dict). */
  datatype Plan = Plan(tool: string, target: string, action: string, params: seq<Member>)

  function PlanJson(p: Plan): Json {
    Obj([Member("tool", Str(p.tool)), Member("target", Str(p.target)), Member("action", Str(p.action)),
         Member("params", Obj(p.params))])
  }

  function PlanText(p: Plan): string { Dumps(PlanJson(p)) }

  function ComputePlanHash(digest: Digest, p: Plan): string {
    PREFIX + digest(PlanText(p))
  }

  function SignatureText(approvalId: string, planHash: string): string {
    approvalId + ":" + planHash
  }

  function ComputeSignatureRef(digest: Digest, approvalId: string, planHash: string): string {
    PREFIX + digest(SignatureText(approvalId, planHash))
  }

  /** `sha256_of_payload`: the same canonical text, of any payload. */
  function Sha256OfPayload(digest: Digest, payload: Json): string {
    PREFIX + digest(Dumps(payload))
  }

  ghost predicate Collision(digest: Digest, x: string, y: string) {
    x != y && digest(x) == digest(y)
  }

  ghost predicate ValidPlan(p: Plan) { WellFormed(Obj(p.params)) }

  ghost predicate SamePlan(p: Plan, q: Plan) {
    p.tool == q.tool && p.target == q.target && p.action == q.action && Equal(Obj(p.params), Obj(q.params))
  }

  /** A reader for plan texts. */
  function ReadPlan(text: string): Option<Plan> {
    match Loads(text)
    case Some(Obj(ms)) =>
      if |ms| != 4 then None
      else
        (match (ms[0], ms[1], ms[2], ms[3])
         case (Member("action", Str(action)), Member("params", Obj(params)), Member("target", Str(target)),
               Member("tool", Str(tool))) => Some(Plan(tool, target, action, params))
         case _ => None)
    case _ => None
  }

  /** The first two characters are enough to order the four keys of a plan. */
  lemma LeqByPrefix(a: string, b: string)
    requires |a| >= 2 && |b| >= 2
    requires a[0] != b[0] || a[1] != b[1]
    ensures Ordering.Leq(a, b) <==> a[0] < b[0] || (a[0] == b[0] && a[1] < b[1])
  {
    assert a[1..][0] == a[1] && b[1..][0] == b[1];
    assert Ordering.Leq(a[1..], b[1..]) <==> a[1] < b[1] || (a[1] == b[1] && Ordering.Leq(a[1..][1..], b[1..][1..]));
  }

  lemma SortTwo(s: seq<Member>)
    requires |s| == 2 && Ordering.Leq(s[0].key, s[1].key)
    ensures Ordering.SortBy(KeyOf, s) == s
  {
    assert s[1..] == [s[1]];
    assert Ordering.SortBy(KeyOf, [s[1]]) == [s[1]];
  }

  lemma SortFour(s: seq<Member>)
    requires |s| == 4 && forall i | 0 <= i < 4 :: |s[i].key| >= 2
    requires s[2].key[0] < s[3].key[0] < s[1].key[0] == s[0].key[0] && s[1].key[1] < s[0].key[1]
    ensures Ordering.SortBy(KeyOf, s) == s[2..] + [s[1]] + [s[0]]
  {
    LeqByPrefix(s[2].key, s[3].key);
    LeqByPrefix(s[1].key, s[2].key);
    LeqByPrefix(s[1].key, s[3].key);
    forall i | 0 < i < 4 ensures !Ordering.Leq(s[0].key, s[i].key) {
      LeqByPrefix(s[0].key, s[i].key);
    }
    assert s[1..][1..] == s[2..];
    SortTwo(s[2..]);
    SortThenLast(s[1..], s[2..]);
    SortThenLast(s, s[2..] + [s[1]]);
  }

  lemma SortThenLast(s: seq<Member>, r: seq<Member>)
    requires s != [] && Ordering.SortBy(KeyOf, s[1..]) == r
    requires forall y | y in r :: !Ordering.Leq(s[0].key, y.key)
    ensures Ordering.SortBy(KeyOf, s) == r + [s[0]]
  {
    Ordering.InsertLast(KeyOf, s[0], r);
  }

  lemma FourInOrder<T>(s: seq<T>)
    requires |s| == 4
    ensures s[2..] + [s[1]] + [s[0]] == [s[2], s[3], s[1], s[0]]
  {}

  function CanonicalMember(m: Member): Member { Member(m.key, Canonical(m.value)) }

  lemma CanonicalOfFour(ms: seq<Member>)
    requires |ms| == 4 && forall i | 0 <= i < 4 :: |ms[i].key| >= 2
    requires ms[2].key[0] < ms[3].key[0] < ms[1].key[0] == ms[0].key[0] && ms[1].key[1] < ms[0].key[1]
    ensures Canonical(Obj(ms)) == Obj([CanonicalMember(ms[2]), CanonicalMember(ms[3]),
                                       CanonicalMember(ms[1]), CanonicalMember(ms[0])])
  {
    var cs := CanonicalMembers(ms);
    assert forall i | 0 <= i < 4 :: cs[i] == CanonicalMember(ms[i]);
    SortFour(cs);
    FourInOrder(cs);
  }

  function ParamsOf(p: Plan): Json { Canonical(Obj(p.params)) }

  /** The members of a plan come out in key order whatever the source's order of writing them. */
  lemma PlanCanonical(p: Plan)
    ensures Canonical(PlanJson(p)) == Obj([Member("action", Str(p.action)), Member("params", ParamsOf(p)),
                                           Member("target", Str(p.target)), Member("tool", Str(p.tool))])
  {
    CanonicalOfFour(PlanJson(p).members);
  }

  lemma KeyTexts()
    ensures Quote("action") == "\"action\"" && Quote("params") == "\"params\""
    ensures Quote("target") == "\"target\"" && Quote("tool") == "\"tool\""
  {
    PlainQuote("action");
    PlainQuote("params");
    PlainQuote("target");
    PlainQuote("tool");
    assert "\"" + ("action" + "\"") == "\"action\"" && "\"" + ("params" + "\"") == "\"params\"";
    assert "\"" + ("target" + "\"") == "\"target\"" && "\"" + ("tool" + "\"") == "\"tool\"";
  }

  /** The text that is hashed for a plan: compact, its four keys in alphabetical order. */
  lemma PlanTextReads(p: Plan)
    ensures
      var action, target, tool := "\"action\"" + ":" + Quote(p.action), "\"target\"" + ":" + Quote(p.target),
                                  "\"tool\"" + ":" + Quote(p.tool);
      PlanText(p) == "{" + (Commas([action, "\"params\"" + ":" + Dumps(Obj(p.params)), target, tool]) + "}")
  {
    var (action, params) := (Member("action", Str(p.action)), Member("params", ParamsOf(p)));
    var (target, tool) := (Member("target", Str(p.target)), Member("tool", Str(p.tool)));
    PlanCanonical(p);
    FourTexts([action, params, target, tool]);
    KeyTexts();
  }

  lemma FourTexts(ms: seq<Member>)
    requires |ms| == 4
    ensures EmitOn(Obj(ms), "")
         == "{" + (Commas([MemberText(ms[0]), MemberText(ms[1]), MemberText(ms[2]), MemberText(ms[3])]) + "}")
  {
    MembersJoin(ms);
    assert MemberTexts(ms) == [MemberText(ms[0]), MemberText(ms[1]), MemberText(ms[2]), MemberText(ms[3])];
  }

  /** Tool, target, action and parameters are all recovered from the hashed text. */
  lemma PlanTextReadsBack(p: Plan)
    ensures ReadPlan(PlanText(p)) == Some(p.(params := ParamsOf(p).members))
  {
    DumpsRoundTrip(PlanJson(p));
    PlanCanonical(p);
  }

  /** The hashed text is a faithful name for the plan: equal texts are equal plans, and the order in
      which parameters were inserted does not show. */
  lemma PlanTextInjective(p: Plan, q: Plan)
    requires ValidPlan(p) && ValidPlan(q)
    ensures PlanText(p) == PlanText(q) <==> SamePlan(p, q)
  {
    if PlanText(p) == PlanText(q) {
      PlanTextReadsBack(p);
      PlanTextReadsBack(q);
      assert ParamsOf(p) == ParamsOf(q);
      SameCanonicalAreEqual(Obj(p.params), Obj(q.params));
    }
    if SamePlan(p, q) {
      EqualHaveSameCanonical(Obj(p.params), Obj(q.params));
      PlanCanonical(p);
      PlanCanonical(q);
    }
  }

  lemma PlanHashBinds(digest: Digest, p: Plan, q: Plan)
    requires ValidPlan(p) && ValidPlan(q)
    requires ComputePlanHash(digest, p) == ComputePlanHash(digest, q)
    ensures SamePlan(p, q) || Collision(digest, PlanText(p), PlanText(q))
  {
    assert digest(PlanText(p)) == ComputePlanHash(digest, p)[|PREFIX|..];
    assert digest(PlanText(q)) == ComputePlanHash(digest, q)[|PREFIX|..];
    PlanTextInjective(p, q);
  }

  /** Payload hashes are as faithful, for payloads of any shape. */
  lemma PayloadHashBinds(digest: Digest, a: Json, b: Json)
    requires WellFormed(a) && Sha256OfPayload(digest, a) == Sha256OfPayload(digest, b)
    ensures Equal(a, b) || Collision(digest, Dumps(a), Dumps(b))
  {
    assert digest(Dumps(a)) == Sha256OfPayload(digest, a)[|PREFIX|..];
    assert digest(Dumps(b)) == Sha256OfPayload(digest, b)[|PREFIX|..];
    DumpsInjective(a, b);
  }

  /** A fixed-length suffix makes the colon-joined text unambiguous even though ids may hold colons. */
  lemma SignatureTextUnambiguous(id0: string, hash0: string, id1: string, hash1: string)
    requires |hash0| == |hash1|
    ensures SignatureText(id0, hash0) == SignatureText(id1, hash1) <==> id0 == id1 && hash0 == hash1
  {
    var t0, t1 := SignatureText(id0, hash0), SignatureText(id1, hash1);
    assert t0[..|id0|] == id0 && t0[|id0| + 1..] == hash0;
    assert t1[..|id1|] == id1 && t1[|id1| + 1..] == hash1;
  }

  /** Without it two different pairs share one text. */
  lemma SignatureTextAmbiguousInGeneral()
    ensures SignatureText("a", "b:c") == SignatureText("a:b", "c")
  {
    assert SignatureText("a", "b:c") == "a:b:c" == SignatureText("a:b", "c");
  }

  /** One signature reference fits one approval id and one plan. */
  lemma SignatureBindsPlan(digest: Digest, id0: string, p: Plan, id1: string, q: Plan)
    requires ValidPlan(p) && ValidPlan(q)
    requires ComputeSignatureRef(digest, id0, ComputePlanHash(digest, p))
          == ComputeSignatureRef(digest, id1, ComputePlanHash(digest, q))
    ensures
      || (id0 == id1 && SamePlan(p, q))
      || Collision(digest, PlanText(p), PlanText(q))
      || Collision(digest, SignatureText(id0, ComputePlanHash(digest, p)),
                           SignatureText(id1, ComputePlanHash(digest, q)))
  {
    var h0, h1 := ComputePlanHash(digest, p), ComputePlanHash(digest, q);
    assert digest(SignatureText(id0, h0)) == ComputeSignatureRef(digest, id0, h0)[|PREFIX|..];
    assert digest(SignatureText(id1, h1)) == ComputeSignatureRef(digest, id1, h1)[|PREFIX|..];
    SignatureTextUnambiguous(id0, h0, id1, h1);
    if h0 == h1 {
      PlanHashBinds(digest, p, q);
    }
  }
}
