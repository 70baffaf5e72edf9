/** What the three executors and their rollbacks have in common: a state that remembers, per target, an
    original and a current value; an operation that forces the current value; one that restores it; and an
    idempotency store that answers retries. */
module Devices {
  import opened Options

  /** The payload of an action result. */
  datatype Payload = Payload(
    actionId: string,
    idempotencyKey: string,
    dryRun: bool,
    startedAt: string,
    endedAt: string,
    status: string,
    changedResources: seq<string>,
    passed: bool,
    detail: string,
    rollbackRef: Option<string>)

  /** The payload in its envelope.  `hashed` is the payload over which `payload_hash` was taken; the envelope's
      schema version and classification are constants. */
  datatype ActionResult = ActionResult(
    id: string,
    observedAt: string,
    producer: string,
    runId: string,
    hashed: Payload,
    payload: Payload)

  /** What a caller, a fresh id and the clock put into a result. */
  datatype Meta = Meta(
    id: string, runId: string, actionId: string, startedAt: string, endedAt: string, observedAt: string)

  /** A state of type `S` whose targets have observable values of type `V`. */
  datatype Device<!S(!new), !V(!new)> = Device(
    producer: string,
    forward: (S, string) -> S,
    changes: string -> seq<string>,
    back: (S, string) -> S,
    restores: (S, string) -> seq<string>,
    current: (S, string) -> V,
    original: (S, string) -> V,
    forced: string -> V,
    done: string -> string,
    undone: (S, string) -> string)

  ghost predicate Lawful<S(!new), V(!new)>(d: Device<S, V>) {
    && (forall s, t, u :: d.current(d.forward(s, t), u) == if u == t then d.forced(t) else d.current(s, u))
    && (forall s, t, u :: d.current(d.back(s, t), u) == if u == t then d.original(s, t) else d.current(s, u))
    && (forall s, t, u :: d.original(d.forward(s, t), u) == d.original(s, u))
    && (forall s, t, u :: d.original(d.back(s, t), u) == d.original(s, u))
    && (forall t :: d.changes(t) != [])
    && (forall s, t | Settled(d, s, t) :: d.restores(s, t) != [] <==> d.current(s, t) == d.forced(t))
  }

  /** The current value is one the operations can have left. */
  ghost predicate Settled<S(!new), V(!new)>(d: Device<S, V>, s: S, t: string) {
    d.current(s, t) == d.original(s, t) || d.current(s, t) == d.forced(t)
  }

  ghost predicate Pristine<S(!new), V(!new)>(d: Device<S, V>, s: S) {
    forall t :: d.current(s, t) == d.original(s, t)
  }

  datatype Op = Forward(dryRun: bool) | Rollback

  /** One call.  `slot` is where the idempotency store keeps the key, `None` for a store of the call's own;
      `valid` says whether the result passes its schema. */
  datatype Call<K> = Call(op: Op, target: string, key: string, slot: Option<K>, meta: Meta, valid: bool)

  type Memo<K(==)> = map<K, ActionResult>

  datatype Reply = Returned(result: ActionResult) | InvalidActionResult

  predicate Cached<K(==)>(seen: set<K>, c: Call<K>) { c.slot.Some? && c.slot.value in seen }

  predicate Effective(op: Op) { op != Forward(true) }

  function Effect<S(!new), V(!new)>(d: Device<S, V>, s: S, op: Op, target: string): S {
    match op
    case Forward(dryRun) => if dryRun then s else d.forward(s, target)
    case Rollback => d.back(s, target)
  }

  const DRY_DETAIL := "dry-run: sin cambios aplicados"

  /** `build_envelope` around the payload of a result. */
  function MakeResult(producer: string, key: string, m: Meta, dryRun: bool, changed: seq<string>, passed: bool,
                      detail: string): ActionResult {
    var p := Payload(m.actionId, key, dryRun, m.startedAt, m.endedAt, "succeeded", changed, passed, detail, None);
    ActionResult(m.id, m.observedAt, producer, m.runId, p, p)
  }

  /** The result of a call that takes effect in state `s`; its own verification always passes. */
  function ResultOf<S(!new), V(!new), K>(d: Device<S, V>, s: S, c: Call<K>): ActionResult {
    match c.op
    case Forward(true) => MakeResult(d.producer, c.key, c.meta, true, [], true, DRY_DETAIL)
    case Forward(false) => MakeResult(d.producer, c.key, c.meta, false, d.changes(c.target), true, d.done(c.target))
    case Rollback =>
      MakeResult(d.producer + "-rollback", c.key, c.meta, false, d.restores(s, c.target), true, d.undone(s, c.target))
  }

  /** The store answers a key it knows; otherwise the effect happens first, then the result is validated and,
      only if valid, remembered. */
  function Invoke<S(!new), V(!new), K(==)>(d: Device<S, V>, s: S, memo: Memo<K>, c: Call<K>): (S, Memo<K>, Reply) {
    if Cached(memo.Keys, c) then (s, memo, Returned(memo[c.slot.value]))
    else
      var s', r := Effect(d, s, c.op, c.target), ResultOf(d, s, c);
      if !c.valid then (s', memo, InvalidActionResult)
      else (s', if c.slot.Some? then memo[c.slot.value := r] else memo, Returned(r))
  }

  /** One call changes at most what is seen of its own target, and nothing when dry or answered from the store. */
  lemma InvokeIsLocal<S(!new), V(!new), K>(d: Device<S, V>, s: S, memo: Memo<K>, c: Call<K>, t: string)
    requires Lawful(d) && d.current(Invoke(d, s, memo, c).0, t) != d.current(s, t)
    ensures c.target == t && Effective(c.op) && !Cached(memo.Keys, c)
  {}

  /** A forward call forces its target's value, and one answered from the store does nothing. */
  lemma InvokeForces<S(!new), V(!new), K>(d: Device<S, V>, s: S, memo: Memo<K>, c: Call<K>)
    requires Lawful(d) && c.op == Forward(false)
    ensures
      var (s', memo', _) := Invoke(d, s, memo, c);
      if Cached(memo.Keys, c) then s' == s && memo' == memo else d.current(s', c.target) == d.forced(c.target)
  {}

  /** A call answers at most its own key; one that changes the state has a key not answered before, and answers
      it exactly if its result is valid. */
  lemma InvokeCostsKey<S(!new), V(!new), K>(d: Device<S, V>, s: S, memo: Memo<K>, c: Call<K>, key: K)
    requires c.slot == Some(key)
    ensures
      var (s', memo', _) := Invoke(d, s, memo, c);
      && memo'.Keys == memo.Keys + (if key !in memo && c.valid then {key} else {})
      && (s' != s ==> Effective(c.op) && key !in memo)
  {}

  /** The reply to a call: the stored result if its key is answered, otherwise the call's own result, stored with
      it, or an error if that result does not validate. */
  lemma InvokeReplies<S(!new), V(!new), K>(d: Device<S, V>, s: S, memo: Memo<K>, c: Call<K>, key: K)
    requires c.slot == Some(key)
    ensures
      var (s', memo', reply) := Invoke(d, s, memo, c);
      if key in memo then s' == s && memo' == memo && reply == Returned(memo[key])
      else if !c.valid then memo' == memo && reply == InvalidActionResult
      else memo' == memo[key := ResultOf(d, s, c)] && reply == Returned(memo'[key])
  {}

  function Run<S(!new), V(!new), K(==)>(d: Device<S, V>, s: S, memo: Memo<K>, calls: seq<Call<K>>)
    : (r: (S, Memo<K>, seq<Reply>))
    ensures |r.2| == |calls|
    decreases |calls|
  {
    if calls == [] then (s, memo, [])
    else
      var (s', memo', reply) := Invoke(d, s, memo, calls[0]);
      var (last, lastMemo, replies) := Run(d, s', memo', calls[1..]);
      (last, lastMemo, [reply] + replies)
  }

  lemma RunCons<S(!new), V(!new), K>(d: Device<S, V>, s: S, memo: Memo<K>, c: Call<K>, rest: seq<Call<K>>)
    ensures
      var (s', memo', _) := Invoke(d, s, memo, c);
      var (r, r') := (Run(d, s, memo, [c] + rest), Run(d, s', memo', rest));
      r.0 == r'.0 && r.1 == r'.1
  {
    assert ([c] + rest)[1..] == rest;
  }

  lemma RunThree<S(!new), V(!new), K>(
      d: Device<S, V>, s: S, memo: Memo<K>, a: Call<K>, b: Call<K>, c: Call<K>)
    ensures
      var (s1, memo1, _) := Invoke(d, s, memo, a);
      var (s2, memo2, _) := Invoke(d, s1, memo1, b);
      var (s3, memo3, _) := Invoke(d, s2, memo2, c);
      var r := Run(d, s, memo, [a, b, c]);
      r.0 == s3 && r.1 == memo3
  {
    var (s1, memo1, _) := Invoke(d, s, memo, a);
    var (s2, memo2, _) := Invoke(d, s1, memo1, b);
    RunCons(d, s, memo, a, [b, c]);
    RunCons(d, s1, memo1, b, [c]);
    RunCons(d, s2, memo2, c, []);
    assert [a] + [b, c] == [a, b, c] && [b] + [c] == [b, c] && [c] + [] == [c];
  }

  /* ---------- Retries are invisible ---------- */

  function Remember<K(==)>(seen: set<K>, c: Call<K>): set<K> {
    if c.valid && c.slot.Some? then seen + {c.slot.value} else seen
  }

  /** The calls the store does not answer. */
  function Unanswered<K(==)>(seen: set<K>, calls: seq<Call<K>>): seq<Call<K>>
    decreases |calls|
  {
    if calls == [] then []
    else if Cached(seen, calls[0]) then Unanswered(seen, calls[1..])
    else [calls[0]] + Unanswered(Remember(seen, calls[0]), calls[1..])
  }

  lemma {:induction false} AnsweredCallsLeaveNoTrace<S(!new), V(!new), K>(
      d: Device<S, V>, s: S, memo: Memo<K>, calls: seq<Call<K>>)
    ensures
      var (all, first) := (Run(d, s, memo, calls), Run(d, s, memo, Unanswered(memo.Keys, calls)));
      all.0 == first.0 && all.1 == first.1
    decreases |calls|
  {
    if calls != [] {
      var c := calls[0];
      var (s', memo', _) := Invoke(d, s, memo, c);
      AnsweredCallsLeaveNoTrace(d, s', memo', calls[1..]);
      if !Cached(memo.Keys, c) {
        assert memo'.Keys == Remember(memo.Keys, c);
        var rest := Unanswered(memo'.Keys, calls[1..]);
        assert ([c] + rest)[1..] == rest;
      }
    }
  }

  /** Of each key not in `seen`, the first call that carries it. */
  function FirstOfEachKey(seen: set<string>, calls: seq<Call<string>>): seq<Call<string>>
    decreases |calls|
  {
    if calls == [] then []
    else if calls[0].key in seen then FirstOfEachKey(seen, calls[1..])
    else [calls[0]] + FirstOfEachKey(seen + {calls[0].key}, calls[1..])
  }

  /** A call on the executor's own store, whose result validates. */
  predicate Kept(c: Call<string>) { c.valid && c.slot == Some(c.key) }

  lemma {:induction false} UnansweredAreFirst(seen: set<string>, calls: seq<Call<string>>)
    requires forall c | c in calls :: Kept(c)
    ensures Unanswered(seen, calls) == FirstOfEachKey(seen, calls)
    decreases |calls|
  {
    if calls != [] {
      assert Kept(calls[0]);
      UnansweredAreFirst(if calls[0].key in seen then seen else seen + {calls[0].key}, calls[1..]);
    }
  }

  /** Any calls end in the same state and store as the first call of each key alone, and every call, first or
      repeated, gets the one reply that store holds for its key. */
  lemma RetriesLeaveNoTrace<S(!new), V(!new)>(d: Device<S, V>, s: S, memo: Memo<string>, calls: seq<Call<string>>)
    requires forall c | c in calls :: Kept(c)
    ensures
      var first := FirstOfEachKey(memo.Keys, calls);
      var (s', memo', replies) := Run(d, s, memo, calls);
      var (t', once, answers) := Run(d, s, memo, first);
      && s' == t' && memo' == once
      && (forall i | 0 <= i < |calls| :: calls[i].key in once && replies[i] == Returned(once[calls[i].key]))
      && (forall i | 0 <= i < |first| :: first[i].key in once && answers[i] == Returned(once[first[i].key]))
  {
    var first := FirstOfEachKey(memo.Keys, calls);
    AnsweredCallsLeaveNoTrace(d, s, memo, calls);
    UnansweredAreFirst(memo.Keys, calls);
    FirstAreCalls(memo.Keys, calls);
    RepliesAreStored(d, s, memo, calls);
    RepliesAreStored(d, s, memo, first);
  }

  lemma {:induction false} FirstAreCalls(seen: set<string>, calls: seq<Call<string>>)
    ensures forall c | c in FirstOfEachKey(seen, calls) :: c in calls
    decreases |calls|
  {
    if calls != [] {
      FirstAreCalls(if calls[0].key in seen then seen else seen + {calls[0].key}, calls[1..]);
    }
  }

  lemma RepliesAreStored<S(!new), V(!new)>(d: Device<S, V>, s: S, memo: Memo<string>, calls: seq<Call<string>>)
    requires forall c | c in calls :: Kept(c)
    ensures
      var (_, memo', replies) := Run(d, s, memo, calls);
      forall i | 0 <= i < |calls| :: calls[i].key in memo' && replies[i] == Returned(memo'[calls[i].key])
  {
    forall i | 0 <= i < |calls|
      ensures calls[i].key in Run(d, s, memo, calls).1
      ensures Run(d, s, memo, calls).2[i] == Returned(Run(d, s, memo, calls).1[calls[i].key])
    {
      assert Kept(calls[i]);
      ValidCallsReturn(d, s, memo, calls, i);
      SameKeySameReply(d, s, memo, calls, i);
    }
  }

  lemma {:induction false} ValidCallsReturn<S(!new), V(!new), K>(
      d: Device<S, V>, s: S, memo: Memo<K>, calls: seq<Call<K>>, i: nat)
    requires i < |calls| && calls[i].valid
    ensures Run(d, s, memo, calls).2[i].Returned?
    decreases |calls|
  {
    var (s', memo', reply) := Invoke(d, s, memo, calls[0]);
    assert Run(d, s, memo, calls).2 == [reply] + Run(d, s', memo', calls[1..]).2;
    if i > 0 {
      ValidCallsReturn(d, s', memo', calls[1..], i - 1);
    }
  }

  /** An answer once given for a key is given again to every later call with it. */
  lemma {:induction false} AnswersNeverChange<S(!new), V(!new), K>(
      d: Device<S, V>, s: S, memo: Memo<K>, calls: seq<Call<K>>)
    ensures
      var memo' := Run(d, s, memo, calls).1;
      forall k | k in memo :: k in memo' && memo'[k] == memo[k]
    decreases |calls|
  {
    if calls != [] {
      var (s', memo', _) := Invoke(d, s, memo, calls[0]);
      AnswersNeverChange(d, s', memo', calls[1..]);
      assert Run(d, s, memo, calls).1 == Run(d, s', memo', calls[1..]).1;
      assert forall k | k in memo :: k in memo' && memo'[k] == memo[k];
    }
  }

  lemma {:induction false} SameKeySameReply<S(!new), V(!new), K>(
      d: Device<S, V>, s: S, memo: Memo<K>, calls: seq<Call<K>>, i: nat)
    requires i < |calls| && calls[i].slot.Some? && Run(d, s, memo, calls).2[i].Returned?
    ensures
      var (_, memo', replies) := Run(d, s, memo, calls);
      calls[i].slot.value in memo' && replies[i] == Returned(memo'[calls[i].slot.value])
    decreases |calls|
  {
    var (s', memo', reply) := Invoke(d, s, memo, calls[0]);
    assert Run(d, s, memo, calls).1 == Run(d, s', memo', calls[1..]).1;
    assert Run(d, s, memo, calls).2 == [reply] + Run(d, s', memo', calls[1..]).2;
    if i == 0 {
      AnswersNeverChange(d, s', memo', calls[1..]);
    } else {
      SameKeySameReply(d, s', memo', calls[1..], i - 1);
    }
  }

  /* ---------- The last effective operation decides ---------- */

  datatype Touch = Touch(op: Op, target: string)

  /** The operations that reach the state: not answered from the store and not dry runs. */
  function Touches<K(==)>(seen: set<K>, calls: seq<Call<K>>): seq<Touch>
    decreases |calls|
  {
    if calls == [] then []
    else if Cached(seen, calls[0]) then Touches(seen, calls[1..])
    else
      (if Effective(calls[0].op) then [Touch(calls[0].op, calls[0].target)] else [])
      + Touches(Remember(seen, calls[0]), calls[1..])
  }

  function LastOn(touches: seq<Touch>, t: string): Option<Op> {
    if touches == [] then None
    else if LastOn(touches[1..], t).Some? then LastOn(touches[1..], t)
    else if touches[0].target == t then Some(touches[0].op)
    else None
  }

  function ValueAfter<S(!new), V(!new)>(d: Device<S, V>, s: S, t: string, last: Option<Op>): V {
    match last
    case None => d.current(s, t)
    case Some(Forward(_)) => d.forced(t)
    case Some(Rollback) => d.original(s, t)
  }

  lemma LastOnCons(touch: seq<Touch>, rest: seq<Touch>, t: string)
    requires |touch| <= 1
    ensures LastOn(touch + rest, t) ==
      if LastOn(rest, t).Some? then LastOn(rest, t)
      else if touch != [] && touch[0].target == t then Some(touch[0].op)
      else None
  {
    if touch == [] {
      assert touch + rest == rest;
    } else {
      assert (touch + rest)[1..] == rest;
    }
  }

  function SeenAfter<K(==)>(seen: set<K>, calls: seq<Call<K>>): set<K>
    decreases |calls|
  {
    if calls == [] then seen
    else SeenAfter(if Cached(seen, calls[0]) then seen else Remember(seen, calls[0]), calls[1..])
  }

  /** When results validate and keys are kept, every effect on the state costs a key never used before. */
  lemma {:induction false} EffectsCostKeys<K>(seen: set<K>, calls: seq<Call<K>>)
    requires forall c | c in calls :: c.valid && c.slot.Some?
    ensures |seen| + |Touches(seen, calls)| <= |SeenAfter(seen, calls)|
    decreases |calls|
  {
    if calls != [] {
      var c := calls[0];
      EffectsCostKeys(if Cached(seen, c) then seen else Remember(seen, c), calls[1..]);
      if !Cached(seen, c) {
        assert |Remember(seen, c)| == |seen| + 1;
      }
    }
  }

  /** After any interleaving of forward calls, dry runs, retries and rollbacks, originals are what they were
      and a target's value is the one its last effective operation sets. */
  lemma {:induction false} LastOperationDecides<S(!new), V(!new), K>(
      d: Device<S, V>, s: S, memo: Memo<K>, calls: seq<Call<K>>, t: string)
    requires Lawful(d)
    ensures
      var s' := Run(d, s, memo, calls).0;
      && d.original(s', t) == d.original(s, t)
      && d.current(s', t) == ValueAfter(d, s, t, LastOn(Touches(memo.Keys, calls), t))
    decreases |calls|
  {
    if calls != [] {
      var c := calls[0];
      var (s', memo', _) := Invoke(d, s, memo, c);
      LastOperationDecides(d, s', memo', calls[1..], t);
      if !Cached(memo.Keys, c) {
        assert memo'.Keys == Remember(memo.Keys, c);
        LastOnCons(if Effective(c.op) then [Touch(c.op, c.target)] else [], Touches(memo'.Keys, calls[1..]), t);
      }
    }
  }

  /** From a pristine start a target looks untouched exactly when its last effective operation was not a
      forward one (or the value it forces is the original anyway). */
  lemma RestoredIff<S(!new), V(!new), K>(d: Device<S, V>, s: S, memo: Memo<K>, calls: seq<Call<K>>, t: string)
    requires Lawful(d) && Pristine(d, s)
    ensures
      var last := LastOn(Touches(memo.Keys, calls), t);
      (d.current(Run(d, s, memo, calls).0, t) == d.current(s, t))
        <==> (last == None || last == Some(Rollback) || d.forced(t) == d.original(s, t))
  {
    LastOperationDecides(d, s, memo, calls, t);
  }

  /** Rollbacks none of which is answered from the store. */
  predicate FreshSweep<K(==)>(seen: set<K>, sweep: seq<Call<K>>)
    decreases |sweep|
  {
    sweep == []
    || (sweep[0].op == Rollback && !Cached(seen, sweep[0]) && FreshSweep(Remember(seen, sweep[0]), sweep[1..]))
  }

  /** Rolling every forwarded target back, each with a key not seen before, restores the whole pristine state. */
  lemma {:induction false} RollbackRestores<S(!new), V(!new), K>(
      d: Device<S, V>, s: S, memo: Memo<K>, calls: seq<Call<K>>, sweep: seq<Call<K>>, t: string)
    requires Lawful(d) && Pristine(d, s)
    requires FreshSweep(SeenAfter(memo.Keys, calls), sweep)
    requires forall c | c in calls && c.op == Forward(false) :: exists r | r in sweep :: r.target == c.target
    ensures d.current(Run(d, s, memo, calls + sweep).0, t) == d.current(s, t)
  {
    RestoredIff(d, s, memo, calls + sweep, t);
    LastOfSweep(memo.Keys, calls, sweep, t);
    if !(exists r | r in sweep :: r.target == t) {
      LastIsACall(memo.Keys, calls, t);
    }
  }

  /** An operation that touched a target comes from a call on it. */
  lemma {:induction false} LastIsACall<K>(seen: set<K>, calls: seq<Call<K>>, t: string)
    ensures
      var last := LastOn(Touches(seen, calls), t);
      last.Some? ==> Effective(last.value) && exists c | c in calls :: c.op == last.value && c.target == t
    decreases |calls|
  {
    if calls != [] {
      var c := calls[0];
      if Cached(seen, c) {
        LastIsACall(seen, calls[1..], t);
      } else {
        LastIsACall(Remember(seen, c), calls[1..], t);
        LastOnCons(if Effective(c.op) then [Touch(c.op, c.target)] else [], Touches(Remember(seen, c), calls[1..]), t);
      }
    }
  }

  lemma {:induction false} LastOfSweep<K>(seen: set<K>, calls: seq<Call<K>>, sweep: seq<Call<K>>, t: string)
    requires FreshSweep(SeenAfter(seen, calls), sweep)
    ensures LastOn(Touches(seen, calls + sweep), t) ==
      if exists r | r in sweep :: r.target == t then Some(Rollback) else LastOn(Touches(seen, calls), t)
    decreases |calls| + |sweep|
  {
    if calls != [] {
      var c := calls[0];
      assert (calls + sweep)[1..] == calls[1..] + sweep;
      var seen' := if Cached(seen, c) then seen else Remember(seen, c);
      LastOfSweep(seen', calls[1..], sweep, t);
      if !Cached(seen, c) {
        var touch := if Effective(c.op) then [Touch(c.op, c.target)] else [];
        LastOnCons(touch, Touches(seen', calls[1..] + sweep), t);
        LastOnCons(touch, Touches(seen', calls[1..]), t);
      }
    } else if sweep != [] {
      var c := sweep[0];
      assert calls + sweep == sweep && calls + sweep[1..] == sweep[1..];
      LastOfSweep(Remember(seen, c), calls, sweep[1..], t);
      LastOnCons([Touch(Rollback, c.target)], Touches(Remember(seen, c), sweep[1..]), t);
    }
  }

  /* ---------- What a result says against what happened ---------- */

  /** The reply reports a change exactly when what is seen of the target changed. */
  ghost predicate ReportIsTrue<S(!new), V(!new), K>(d: Device<S, V>, s: S, memo: Memo<K>, c: Call<K>)
    requires Invoke(d, s, memo, c).2.Returned?
  {
    var (s', _, reply) := Invoke(d, s, memo, c);
    reply.result.payload.changedResources != [] <==> d.current(s', c.target) != d.current(s, c.target)
  }

  /** In every state reached from a pristine one, a rollback that returns a result reports a change exactly when
      it made one, with two exceptions: a key answered before by a result that lists changes, and a forwarded
      target whose original value is the forced one. */
  lemma RollbackEvidence<S(!new), V(!new), K>(d: Device<S, V>, s: S, memo: Memo<K>, calls: seq<Call<K>>, c: Call<K>)
    requires Lawful(d) && Pristine(d, s) && c.op == Rollback
    requires
      var (s', memo', _) := Run(d, s, memo, calls);
      Invoke(d, s', memo', c).2.Returned?
    ensures
      var (s', memo', _) := Run(d, s, memo, calls);
      ReportIsTrue(d, s', memo', c) <==>
        if Cached(memo'.Keys, c) then memo'[c.slot.value].payload.changedResources == []
        else d.current(s', c.target) != d.forced(c.target) || d.original(s, c.target) != d.forced(c.target)
  {
    var (s', memo', _) := Run(d, s, memo, calls);
    LastOperationDecides(d, s, memo, calls, c.target);
    assert Settled(d, s', c.target);
  }

  /** A forward call that returns a result reports a change exactly when it made one, with two exceptions: a key
      answered before by a result that lists changes, and a target that already has the forced value. */
  lemma ForwardEvidence<S(!new), V(!new), K>(d: Device<S, V>, s: S, memo: Memo<K>, c: Call<K>)
    requires Lawful(d) && c.op.Forward? && Invoke(d, s, memo, c).2.Returned?
    ensures
      ReportIsTrue(d, s, memo, c) <==>
        if Cached(memo.Keys, c) then memo[c.slot.value].payload.changedResources == []
        else c.op.dryRun || d.current(s, c.target) != d.forced(c.target)
    ensures
      !Cached(memo.Keys, c) ==> (Invoke(d, s, memo, c).2.result.payload.changedResources == [] <==> c.op.dryRun)
  {}

  /* ---------- Marking a result as rolled back ---------- */

  /** A copy of the original that refers to the rollback's own id. */
  function MarkRolledBack(original: ActionResult, rollback: ActionResult, valid: bool): Reply {
    if !valid then InvalidActionResult
    else Returned(original.(payload := original.payload.(status := "rolled_back", rollbackRef := Some(rollback.id))))
  }

  /** Stored results are told apart by their ids. */
  ghost predicate DistinctIds<K(!new)>(memo: Memo<K>) {
    forall k, l | k in memo && l in memo && memo[k].id == memo[l].id :: k == l
  }

  /** Every call brings an id of its own. */
  ghost predicate FreshIds<K(!new)>(memo: Memo<K>, calls: seq<Call<K>>) {
    && (forall i, j | 0 <= i < j < |calls| :: calls[i].meta.id != calls[j].meta.id)
    && (forall k, c | k in memo && c in calls :: memo[k].id != c.meta.id)
  }

  lemma {:induction false} StoredIdsStayDistinct<S(!new), V(!new), K(!new)>(
      d: Device<S, V>, s: S, memo: Memo<K>, calls: seq<Call<K>>)
    requires DistinctIds(memo) && FreshIds(memo, calls)
    ensures DistinctIds(Run(d, s, memo, calls).1)
    decreases |calls|
  {
    if calls != [] {
      var (s', memo', _) := Invoke(d, s, memo, calls[0]);
      assert calls == [calls[0]] + calls[1..];
      StoredIdsStayDistinct(d, s', memo', calls[1..]);
    }
  }

  /** The reference names exactly one stored result, the rollback's; shared action ids could not. Nothing else
      of the original changes. */
  lemma RollbackRefIdentifies<S(!new), V(!new), K(!new)>(
      d: Device<S, V>, s: S, memo: Memo<K>, calls: seq<Call<K>>, original: K, rollback: K, k: K)
    requires DistinctIds(memo) && FreshIds(memo, calls)
    requires {original, rollback, k} <= Run(d, s, memo, calls).1.Keys
    ensures
      var memo' := Run(d, s, memo, calls).1;
      var marked := MarkRolledBack(memo'[original], memo'[rollback], true).result;
      && (marked.payload.rollbackRef == Some(memo'[k].id) <==> k == rollback)
      && marked.payload.status == "rolled_back"
      && marked == memo'[original].(payload := memo'[original].payload.(
                     status := "rolled_back", rollbackRef := Some(memo'[rollback].id)))
  {
    StoredIdsStayDistinct(d, s, memo, calls);
  }
}
