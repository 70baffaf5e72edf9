/** Python's `==` on JSON values against equality of their canonical texts. */
module PythonEquality {
  import opened Json
  import opened PlanHash

  /** `==`: lists in order, dicts by key whatever the order of insertion, and `True == 1`, `False == 0`. */
  ghost predicate PyEqual(a: Json, b: Json)
    decreases a
  {
    match (a, b)
    case (Arr(xs), Arr(ys)) => |xs| == |ys| && forall i | 0 <= i < |xs| :: PyEqual(xs[i], ys[i])
    case (Obj(ms), Obj(ns)) =>
      |ms| == |ns| && forall i | 0 <= i < |ms| :: HasPyMember(ms[i], ns)
    case (Bool(x), Int(n)) => n == AsInt(x)
    case (Int(n), Bool(x)) => n == AsInt(x)
    case _ => a == b
  }

  ghost predicate HasPyMember(m: Member, ns: seq<Member>)
    decreases m, 1
  {
    exists k | 0 <= k < |ns| :: SamePyMember(m, ns[k])
  }

  ghost predicate SamePyMember(m: Member, n: Member)
    decreases m, 0
  {
    m.key == n.key && PyEqual(m.value, n.value)
  }

  function AsInt(b: bool): int { if b then 1 else 0 }

  /** Holds no boolean, no 0 and no 1, at any depth. */
  ghost predicate NoTwins(j: Json) {
    match j
    case Bool(_) => false
    case Int(n) => n != 0 && n != 1
    case Arr(items) => forall i | 0 <= i < |items| :: NoTwins(items[i])
    case Obj(members) => forall i | 0 <= i < |members| :: NoTwins(members[i].value)
    case _ => true
  }

  lemma {:induction false} EqualIsPyEqual(a: Json, b: Json)
    requires Equal(a, b)
    ensures PyEqual(a, b)
  {
    match (a, b)
    case (Arr(xs), Arr(ys)) =>
      forall i | 0 <= i < |xs| ensures PyEqual(xs[i], ys[i]) {
        EqualIsPyEqual(xs[i], ys[i]);
      }
    case (Obj(ms), Obj(ns)) =>
      forall i | 0 <= i < |ms| ensures HasPyMember(ms[i], ns) {
        assert HasMember(ms[i], ns);
        var k :| 0 <= k < |ns| && SameMember(ms[i], ns[k]);
        EqualIsPyEqual(ms[i].value, ns[k].value);
        assert SamePyMember(ms[i], ns[k]);
      }
    case _ =>
  }

  lemma {:induction false} PyEqualIsEqual(a: Json, b: Json)
    requires NoTwins(a) && PyEqual(a, b)
    ensures Equal(a, b)
  {
    match (a, b)
    case (Arr(xs), Arr(ys)) =>
      forall i | 0 <= i < |xs| ensures Equal(xs[i], ys[i]) {
        PyEqualIsEqual(xs[i], ys[i]);
      }
    case (Obj(ms), Obj(ns)) =>
      forall i | 0 <= i < |ms| ensures HasMember(ms[i], ns) {
        assert HasPyMember(ms[i], ns);
        var k :| 0 <= k < |ns| && SamePyMember(ms[i], ns[k]);
        PyEqualIsEqual(ms[i].value, ns[k].value);
        assert SameMember(ms[i], ns[k]);
      }
    case _ =>
  }

  lemma {:induction false} PyEqualReflexive(a: Json)
    ensures PyEqual(a, a)
  {
    match a
    case Arr(xs) =>
      forall i | 0 <= i < |xs| ensures PyEqual(xs[i], xs[i]) {
        PyEqualReflexive(xs[i]);
      }
    case Obj(ms) =>
      forall i | 0 <= i < |ms| ensures HasPyMember(ms[i], ms) {
        PyEqualReflexive(ms[i].value);
        assert SamePyMember(ms[i], ms[i]);
      }
    case _ =>
  }

  /** A value that Python calls equal and the text does not, for every value that holds a boolean, a 0 or a 1. */
  lemma {:induction false} Twin(a: Json) returns (b: Json)
    requires WellFormed(a) && !NoTwins(a)
    ensures WellFormed(b) && PyEqual(a, b) && !Equal(a, b)
  {
    match a
    case Bool(x) => b := Int(AsInt(x));
    case Int(n) => b := Bool(n == 1);
    case Arr(xs) =>
      var i :| 0 <= i < |xs| && !NoTwins(xs[i]);
      var y := Twin(xs[i]);
      b := Arr(xs[i := y]);
      forall k | 0 <= k < |xs| ensures PyEqual(xs[k], xs[i := y][k]) {
        PyEqualReflexive(xs[k]);
      }
    case Obj(ms) =>
      var i :| 0 <= i < |ms| && !NoTwins(ms[i].value);
      var v := Twin(ms[i].value);
      b := TwinMember(ms, i, v);
  }

  lemma TwinMember(ms: seq<Member>, i: nat, v: Json) returns (b: Json)
    requires i < |ms| && WellFormed(Obj(ms)) && WellFormed(v)
    requires PyEqual(ms[i].value, v) && !Equal(ms[i].value, v)
    ensures WellFormed(b) && PyEqual(Obj(ms), b) && !Equal(Obj(ms), b)
  {
    var ns := ms[i := Member(ms[i].key, v)];
    b := Obj(ns);
    forall k | 0 <= k < |ms| ensures HasPyMember(ms[k], ns) {
      PyEqualReflexive(ms[k].value);
      assert SamePyMember(ms[k], ns[k]);
    }
    forall k | 0 <= k < |ns| ensures !SameMember(ms[i], ns[k]) {}
  }

  /** For which values equality of texts is equality in Python: exactly those without a boolean, a 0 or a 1.
      In general it is finer: `True` and `1` have different texts. */
  lemma TextIsPythonEqualityIff(a: Json)
    requires WellFormed(a)
    ensures (forall b | WellFormed(b) :: Dumps(a) == Dumps(b) <==> PyEqual(a, b)) <==> NoTwins(a)
  {
    forall b ensures Dumps(a) == Dumps(b) <==> Equal(a, b) {
      DumpsInjective(a, b);
    }
    if NoTwins(a) {
      forall b ensures Equal(a, b) <==> PyEqual(a, b) {
        if Equal(a, b) { EqualIsPyEqual(a, b); }
        if PyEqual(a, b) { PyEqualIsEqual(a, b); }
      }
    } else {
      var b := Twin(a);
      assert WellFormed(b) && Dumps(a) != Dumps(b);
    }
  }

  /** Parameters that are all strings, as the gateway's own are. */
  predicate StringParams(p: Plan) { forall i | 0 <= i < |p.params| :: p.params[i].value.Str? }

  /** Plans with string parameters share a text exactly when Python calls their arguments equal. */
  lemma StringPlansInPython(p: Plan, q: Plan)
    requires ValidPlan(p) && ValidPlan(q) && StringParams(p)
    ensures PlanText(p) == PlanText(q) <==>
      p.tool == q.tool && p.target == q.target && p.action == q.action && PyEqual(Obj(p.params), Obj(q.params))
  {
    PlanTextInjective(p, q);
    if SamePlan(p, q) { EqualIsPyEqual(Obj(p.params), Obj(q.params)); }
    if PyEqual(Obj(p.params), Obj(q.params)) { PyEqualIsEqual(Obj(p.params), Obj(q.params)); }
  }
}
