/** The gateway's sliding-window rate limiter.  Times are integers, in microseconds. */
module RateLimiting {

  /** `datetime.timedelta(minutes=1)`. */
  const WINDOW := 60_000_000

  type Calls = map<string, seq<int>>

  function HistoryOf(calls: Calls, tool: string): seq<int> {
    if tool in calls then calls[tool] else []
  }

  /** `[t for t in history if t > start]`. */
  function Prune(history: seq<int>, start: int): seq<int> {
    if history == [] then []
    else if history[0] > start then [history[0]] + Prune(history[1..], start)
    else Prune(history[1..], start)
  }

  /** What one call of `check_and_record` leaves behind and answers. */
  function Check(calls: Calls, tool: string, limit: int, now: int): (Calls, bool) {
    var history := Prune(HistoryOf(calls, tool), now - WINDOW);
    if |history| >= limit then (calls[tool := history], false) else (calls[tool := history + [now]], true)
  }

  /** How often a time occurs in a history. */
  function Times(history: seq<int>, t: int): nat { multiset(history)[t] }

  lemma {:induction false} PruneTimes(history: seq<int>, start: int, t: int)
    ensures Times(Prune(history, start), t) == if t > start then Times(history, t) else 0
  {
    if history != [] {
      PruneTimes(history[1..], start, t);
      assert history == [history[0]] + history[1..];
    }
  }

  /** What a check leaves of each history: of the tool's own, the last minute, and the attempt itself if it was
      admitted; all others as they were.  An admission leaves at most the limit, a refusal finds at least that. */
  lemma CheckReads(calls: Calls, tool: string, limit: int, now: int, t: int)
    ensures
      var (calls', admitted) := Check(calls, tool, limit, now);
      var recent := if t > now - 60_000_000 then Times(HistoryOf(calls, tool), t) else 0;
      && tool in calls' && calls'.Keys == calls.Keys + {tool}
      && (forall other | other != tool :: HistoryOf(calls', other) == HistoryOf(calls, other))
      && Times(calls'[tool], t) == recent + (if admitted && t == now then 1 else 0)
      && (if admitted then |calls'[tool]| <= limit else |calls'[tool]| >= limit)
  {
    PruneTimes(HistoryOf(calls, tool), now - WINDOW, t);
  }

  class RateLimiter {
    var calls: Calls

    constructor ()
      ensures calls == map[]
    {
      calls := map[];
    }

    method CheckAndRecord(tool: string, limit: int, now: int) returns (admitted: bool)
      modifies this
      ensures (calls, admitted) == Check(old(calls), tool, limit, now)
    {
      var history := Prune(HistoryOf(calls, tool), now - WINDOW);
      if |history| >= limit {
        calls := calls[tool := history];
        return false;
      }
      history := history + [now];
      calls := calls[tool := history];
      return true;
    }
  }

  datatype Attempt = Attempt(tool: string, limit: int, now: int)

  /** A run of attempts: the calls left and each attempt's answer. */
  function Run(calls: Calls, attempts: seq<Attempt>): (r: (Calls, seq<bool>))
    ensures |r.1| == |attempts|
    decreases |attempts|
  {
    if attempts == [] then (calls, [])
    else
      var (calls', admitted) := Check(calls, attempts[0].tool, attempts[0].limit, attempts[0].now);
      var (last, answers) := Run(calls', attempts[1..]);
      (last, [admitted] + answers)
  }

  predicate InOrder(attempts: seq<Attempt>) {
    forall i, j | 0 <= i < j < |attempts| :: attempts[i].now <= attempts[j].now
  }

  predicate Counts(a: Attempt, tool: string, lo: int, hi: int) {
    a.tool == tool && lo < a.now <= hi
  }

  /** How many admitted attempts of a tool fall in (lo, hi]. */
  function Admitted(attempts: seq<Attempt>, answers: seq<bool>, tool: string, lo: int, hi: int): nat
    requires |attempts| == |answers|
  {
    if attempts == [] then 0
    else
      var last := |attempts| - 1;
      Admitted(attempts[..last], answers[..last], tool, lo, hi)
      + if answers[last] && Counts(attempts[last], tool, lo, hi) then 1 else 0
  }

  /* ---------- The unpruned log ---------- */

  /** A log keeps every admission forever; a history agrees with it from a point in time on. */
  function Load(log: seq<Attempt>, tool: string, lo: int, hi: int): nat {
    if log == [] then 0
    else Load(log[..|log| - 1], tool, lo, hi) + if Counts(log[|log| - 1], tool, lo, hi) then 1 else 0
  }

  function MinuteLoad(log: seq<Attempt>, tool: string, lo: int): nat {
    Load(log, tool, lo, lo + WINDOW)
  }

  function Decide(log: seq<Attempt>, a: Attempt): bool {
    Load(log, a.tool, a.now - WINDOW, a.now) < a.limit
  }

  function Append(log: seq<Attempt>, a: Attempt): seq<Attempt> {
    if Decide(log, a) then log + [a] else log
  }

  function RunLog(log: seq<Attempt>, attempts: seq<Attempt>): (r: seq<bool>)
    ensures |r| == |attempts|
    decreases |attempts|
  {
    if attempts == [] then [] else [Decide(log, attempts[0])] + RunLog(Append(log, attempts[0]), attempts[1..])
  }

  function LogAfter(log: seq<Attempt>, attempts: seq<Attempt>): seq<Attempt>
    decreases |attempts|
  {
    if attempts == [] then log else LogAfter(Append(log, attempts[0]), attempts[1..])
  }

  ghost predicate NotAfter(log: seq<Attempt>, clock: int) {
    forall a | a in log :: a.now <= clock
  }

  ghost predicate AgreesAt(calls: Calls, log: seq<Attempt>, tool: string, now: int) {
    |Prune(HistoryOf(calls, tool), now - WINDOW)| == Load(log, tool, now - WINDOW, now)
  }

  ghost predicate Agrees(calls: Calls, log: seq<Attempt>, tool: string, clock: int) {
    forall now | now >= clock :: AgreesAt(calls, log, tool, now)
  }

  lemma LoadSnoc(log: seq<Attempt>, a: Attempt, tool: string, lo: int, hi: int)
    ensures Load(log + [a], tool, lo, hi) == Load(log, tool, lo, hi) + if Counts(a, tool, lo, hi) then 1 else 0
  {
    assert (log + [a])[..|log|] == log;
  }

  lemma {:induction false} PrunePrune(history: seq<int>, s0: int, s: int)
    requires s0 <= s
    ensures Prune(Prune(history, s0), s) == Prune(history, s)
  {
    if history != [] {
      PrunePrune(history[1..], s0, s);
      if history[0] > s0 {
        var rest := Prune(history[1..], s0);
        assert ([history[0]] + rest)[1..] == rest;
      }
    }
  }

  lemma {:induction false} PruneSnoc(history: seq<int>, t: int, s: int)
    ensures Prune(history + [t], s) == Prune(history, s) + if t > s then [t] else []
  {
    if history != [] {
      PruneSnoc(history[1..], t, s);
      assert (history + [t])[1..] == history[1..] + [t];
    }
  }

  lemma DecisionAgrees(calls: Calls, log: seq<Attempt>, a: Attempt)
    requires AgreesAt(calls, log, a.tool, a.now)
    ensures Check(calls, a.tool, a.limit, a.now).1 == Decide(log, a)
  {}

  lemma PrunedHistoryAfter(calls: Calls, a: Attempt, now: int)
    requires a.now <= now
    ensures
      var (calls', admitted) := Check(calls, a.tool, a.limit, a.now);
      |Prune(HistoryOf(calls', a.tool), now - WINDOW)|
        == |Prune(HistoryOf(calls, a.tool), now - WINDOW)| + if admitted && a.now > now - WINDOW then 1 else 0
  {
    var history := HistoryOf(calls, a.tool);
    PrunePrune(history, a.now - WINDOW, now - WINDOW);
    PruneSnoc(Prune(history, a.now - WINDOW), a.now, now - WINDOW);
  }

  lemma CheckAgreesAt(calls: Calls, log: seq<Attempt>, a: Attempt, tool: string, now: int)
    requires AgreesAt(calls, log, a.tool, a.now) && AgreesAt(calls, log, tool, now) && a.now <= now
    ensures AgreesAt(Check(calls, a.tool, a.limit, a.now).0, Append(log, a), tool, now)
  {
    DecisionAgrees(calls, log, a);
    LoadSnoc(log, a, tool, now - WINDOW, now);
    if tool == a.tool {
      PrunedHistoryAfter(calls, a, now);
    } else {
      assert HistoryOf(Check(calls, a.tool, a.limit, a.now).0, tool) == HistoryOf(calls, tool);
    }
  }

  /** One attempt answers as the log does and keeps every tool's history in agreement. */
  lemma CheckAgrees(calls: Calls, log: seq<Attempt>, a: Attempt, clock: int, tool: string)
    requires Agrees(calls, log, a.tool, clock) && Agrees(calls, log, tool, clock)
    requires clock <= a.now
    ensures Check(calls, a.tool, a.limit, a.now).1 == Decide(log, a)
    ensures Agrees(Check(calls, a.tool, a.limit, a.now).0, Append(log, a), tool, a.now)
  {
    assert AgreesAt(calls, log, a.tool, a.now);
    DecisionAgrees(calls, log, a);
    forall now | now >= a.now
      ensures AgreesAt(Check(calls, a.tool, a.limit, a.now).0, Append(log, a), tool, now)
    {
      CheckAgreesAt(calls, log, a, tool, now);
    }
  }

  lemma {:induction false} RunAgrees(calls: Calls, log: seq<Attempt>, attempts: seq<Attempt>, clock: int)
    requires forall tool :: Agrees(calls, log, tool, clock)
    requires InOrder(attempts) && (attempts != [] ==> clock <= attempts[0].now)
    ensures Run(calls, attempts).1 == RunLog(log, attempts)
    decreases |attempts|
  {
    if attempts != [] {
      var a := attempts[0];
      forall tool ensures Agrees(Check(calls, a.tool, a.limit, a.now).0, Append(log, a), tool, a.now) {
        CheckAgrees(calls, log, a, clock, tool);
      }
      CheckAgrees(calls, log, a, clock, a.tool);
      RunAgrees(Check(calls, a.tool, a.limit, a.now).0, Append(log, a), attempts[1..], a.now);
    }
  }

  lemma FreshRunAgrees(attempts: seq<Attempt>)
    requires InOrder(attempts)
    ensures Run(map[], attempts).1 == RunLog([], attempts)
  {
    if attempts != [] {
      RunAgrees(map[], [], attempts, attempts[0].now);
    }
  }

  /* ---------- Theorem 1: pruning never changes a decision ---------- */

  lemma AdmittedCons(attempts: seq<Attempt>, answers: seq<bool>, tool: string, lo: int, hi: int)
    requires |attempts| == |answers| > 0
    ensures Admitted(attempts, answers, tool, lo, hi)
         == Admitted(attempts[1..], answers[1..], tool, lo, hi)
            + if answers[0] && Counts(attempts[0], tool, lo, hi) then 1 else 0
  {
    var last := |attempts| - 1;
    if last > 0 {
      AdmittedCons(attempts[..last], answers[..last], tool, lo, hi);
      assert attempts[..last][1..] == attempts[1..][..last - 1] && answers[..last][1..] == answers[1..][..last - 1];
    }
  }

  lemma {:induction false} LogCountsAdmissions(
      log: seq<Attempt>, attempts: seq<Attempt>, tool: string, lo: int, hi: int)
    ensures Load(LogAfter(log, attempts), tool, lo, hi)
         == Load(log, tool, lo, hi) + Admitted(attempts, RunLog(log, attempts), tool, lo, hi)
    decreases |attempts|
  {
    if attempts != [] {
      var a, answers := attempts[0], RunLog(log, attempts);
      LogCountsAdmissions(Append(log, a), attempts[1..], tool, lo, hi);
      LoadSnoc(log, a, tool, lo, hi);
      AdmittedCons(attempts, answers, tool, lo, hi);
      assert answers[1..] == RunLog(Append(log, a), attempts[1..]);
    }
  }

  lemma {:induction false} RunLogAt(log: seq<Attempt>, attempts: seq<Attempt>, i: nat)
    requires i < |attempts|
    ensures RunLog(log, attempts)[i] == Decide(LogAfter(log, attempts[..i]), attempts[i])
    ensures RunLog(log, attempts)[..i] == RunLog(log, attempts[..i])
    decreases |attempts|
  {
    if i > 0 {
      var log' := Append(log, attempts[0]);
      RunLogAt(log', attempts[1..], i - 1);
      assert attempts[..i][1..] == attempts[1..][..i - 1];
      assert RunLog(log, attempts)[..i] == [Decide(log, attempts[0])] + RunLog(log', attempts[1..])[..i - 1];
    }
  }

  /** Fewer than the limit of the admissions before attempt `i` lie in the minute that ends with it. */
  predicate UnderLimit(attempts: seq<Attempt>, answers: seq<bool>, i: nat)
    requires i < |attempts| == |answers|
  {
    var a := attempts[i];
    Admitted(attempts[..i], answers[..i], a.tool, a.now - 60_000_000, a.now) < a.limit
  }

  lemma DecideByAdmissions(before: seq<Attempt>, earlier: seq<bool>, a: Attempt)
    requires earlier == RunLog([], before)
    ensures Decide(LogAfter([], before), a)
       <==> Admitted(before, earlier, a.tool, a.now - WINDOW, a.now) < a.limit
  {
    LogCountsAdmissions([], before, a.tool, a.now - WINDOW, a.now);
  }

  lemma RunLogUnderLimit(attempts: seq<Attempt>, answers: seq<bool>, i: nat)
    requires i < |attempts| && |answers| == |attempts|
    requires answers[i] == Decide(LogAfter([], attempts[..i]), attempts[i])
    requires answers[..i] == RunLog([], attempts[..i])
    ensures answers[i] <==> UnderLimit(attempts, answers, i)
  {
    DecideByAdmissions(attempts[..i], answers[..i], attempts[i]);
  }

  /** With a clock that does not go back, an attempt is admitted exactly when it is under its limit. */
  lemma AdmittedIffUnderLimit(attempts: seq<Attempt>, i: nat)
    requires InOrder(attempts) && i < |attempts|
    ensures Run(map[], attempts).1[i] <==> UnderLimit(attempts, Run(map[], attempts).1, i)
  {
    FreshRunAgrees(attempts);
    RunLogAt([], attempts, i);
    RunLogUnderLimit(attempts, Run(map[], attempts).1, i);
  }

  /* ---------- Theorem 2: the rate really is bounded ---------- */

  lemma {:induction false} LoadWider(log: seq<Attempt>, tool: string, lo: int, hi: int, lo': int, hi': int)
    requires lo' <= lo && forall a | a in log :: a.now <= hi ==> a.now <= hi'
    ensures Load(log, tool, lo, hi) <= Load(log, tool, lo', hi')
  {
    if log != [] {
      LoadWider(log[..|log| - 1], tool, lo, hi, lo', hi');
      assert log[|log| - 1] in log;
    }
  }

  lemma {:induction false} LoadSplit(log: seq<Attempt>, tool: string, lo: int, mid: int, hi: int)
    requires lo <= mid <= hi
    ensures Load(log, tool, lo, hi) == Load(log, tool, lo, mid) + Load(log, tool, mid, hi)
  {
    if log != [] {
      LoadSplit(log[..|log| - 1], tool, lo, mid, hi);
    }
  }

  /** No minute-long window ever holds more admissions than the limit. */
  lemma {:induction false} WindowBound(log: seq<Attempt>, attempts: seq<Attempt>, tool: string, limit: nat, x: int)
    requires InOrder(attempts) && forall a | a in attempts && a.tool == tool :: a.limit == limit
    requires attempts != [] ==> NotAfter(log, attempts[0].now)
    requires Load(log, tool, x, x + WINDOW) <= limit
    ensures Load(LogAfter(log, attempts), tool, x, x + WINDOW) <= limit
    decreases |attempts|
  {
    if attempts != [] {
      var a := attempts[0];
      LoadSnoc(log, a, tool, x, x + WINDOW);
      if Counts(a, tool, x, x + WINDOW) {
        LoadWider(log, tool, x, x + WINDOW, a.now - WINDOW, a.now);
      }
      WindowBound(Append(log, a), attempts[1..], tool, limit, x);
    }
  }

  lemma {:induction false} WindowsBound(log: seq<Attempt>, tool: string, limit: nat, x: int, k: nat)
    requires forall y :: MinuteLoad(log, tool, y) <= limit
    ensures Load(log, tool, x, x + k * WINDOW) <= k * limit
  {
    if k == 0 {
      LoadEmpty(log, tool, x);
    } else {
      var mid := x + (k - 1) * WINDOW;
      WindowsBound(log, tool, limit, x, k - 1);
      LoadSplit(log, tool, x, mid, mid + WINDOW);
      assert MinuteLoad(log, tool, mid) <= limit;
      assert (k - 1) * limit + limit == k * limit;
    }
  }

  lemma {:induction false} LoadEmpty(log: seq<Attempt>, tool: string, x: int)
    ensures Load(log, tool, x, x) == 0
  {
    if log != [] {
      LoadEmpty(log[..|log| - 1], tool, x);
    }
  }

  /** Any k minutes, wherever they start, hold at most k times the limit. */
  lemma AdmissionsBounded(attempts: seq<Attempt>, tool: string, limit: nat, x: int, k: nat)
    requires InOrder(attempts) && forall a | a in attempts && a.tool == tool :: a.limit == limit
    ensures Admitted(attempts, Run(map[], attempts).1, tool, x, x + k * 60_000_000) <= k * limit
  {
    var log := LogAfter([], attempts);
    FreshRunAgrees(attempts);
    forall y ensures MinuteLoad(log, tool, y) <= limit {
      WindowBound([], attempts, tool, limit, y);
    }
    WindowsBound(log, tool, limit, x, k);
    LogCountsAdmissions([], attempts, tool, x, x + k * WINDOW);
  }

  /* ---------- Theorem 3: throttled attempts leave no trace ---------- */

  /** The elements whose mark is set. */
  function Kept<T>(s: seq<T>, keep: seq<bool>): seq<T>
    requires |s| == |keep|
  {
    if s == [] then []
    else if keep[0] then [s[0]] + Kept(s[1..], keep[1..])
    else Kept(s[1..], keep[1..])
  }

  lemma {:induction false} KeptMember<T>(s: seq<T>, keep: seq<bool>, x: T)
    requires |s| == |keep| && x in Kept(s, keep)
    ensures x in s
  {
    if !(keep[0] && x == s[0]) {
      KeptMember(s[1..], keep[1..], x);
    }
  }

  lemma {:induction false} KeptInOrder(attempts: seq<Attempt>, keep: seq<bool>)
    requires |attempts| == |keep| && InOrder(attempts)
    ensures InOrder(Kept(attempts, keep))
  {
    if attempts != [] {
      KeptInOrder(attempts[1..], keep[1..]);
      var rest := Kept(attempts[1..], keep[1..]);
      forall a | a in rest ensures attempts[0].now <= a.now {
        KeptMember(attempts[1..], keep[1..], a);
      }
    }
  }

  lemma {:induction false} DropThrottledFromLog(log: seq<Attempt>, attempts: seq<Attempt>, keep: seq<bool>)
    requires |attempts| == |keep|
    requires forall i | 0 <= i < |attempts| :: RunLog(log, attempts)[i] ==> keep[i]
    ensures RunLog(log, Kept(attempts, keep)) == Kept(RunLog(log, attempts), keep)
    decreases |attempts|
  {
    if attempts != [] {
      var a, answers, log' := attempts[0], RunLog(log, attempts), Append(log, attempts[0]);
      var rest := RunLog(log', attempts[1..]);
      assert answers[1..] == rest;
      assert forall i | 0 <= i < |rest| :: rest[i] == answers[i + 1];
      DropThrottledFromLog(log', attempts[1..], keep[1..]);
      if keep[0] {
        var kept := Kept(attempts[1..], keep[1..]);
        assert ([a] + kept)[1..] == kept;
      }
    }
  }

  /** Deleting any throttled attempts changes no other answer: retrying too early never prolongs a lockout. */
  lemma {:induction false} ThrottledAttemptsLeaveNoTrace(attempts: seq<Attempt>, keep: seq<bool>)
    requires InOrder(attempts) && |attempts| == |keep|
    requires forall i | 0 <= i < |attempts| :: Run(map[], attempts).1[i] ==> keep[i]
    ensures Run(map[], Kept(attempts, keep)).1 == Kept(Run(map[], attempts).1, keep)
  {
    FreshRunAgrees(attempts);
    KeptInOrder(attempts, keep);
    FreshRunAgrees(Kept(attempts, keep));
    DropThrottledFromLog([], attempts, keep);
  }
}
