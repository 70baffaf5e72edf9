/** Many clients on one durable table: every interleaving of validating, inserting and replying, with
    crashes, restarts and storage errors. */
module StoreProtocol {
  import opened Options
  import opened PlanHash
  import opened Approvals
  import opened Sequences

  /** `Committed`: the row is in, the client has not heard yet. */
  datatype Phase = Ready | Validated(id: string) | Committed(id: string) | Replied(verdict: Verdict) | Crashed

  datatype Client = Client(call: Call, phase: Phase)

  /** `successes` lists the approval ids reported as consumed, in order. */
  datatype State = State(rows: Rows, clients: seq<Client>, successes: seq<string>)

  datatype Event =
    | Validate(i: nat)
    | Insert(i: nat)
    | InsertFails(i: nat, committed: bool)
    | Reply(i: nat)
    | Crash(i: nat)
    | Restart(i: nat, call: Call)

  function Enter(s: State, i: nat, phase: Phase): State
    requires i < |s.clients|
  {
    s.(clients := s.clients[i := s.clients[i].(phase := phase)])
  }

  /** An event a client is not ready for does nothing. */
  function Step(digest: Digest, s: State, e: Event): State {
    if e.i >= |s.clients| then s
    else
      var c := s.clients[e.i];
      match (e, c.phase)
      case (Validate(i), Ready) =>
        var v := ValidateFields(digest, c.call);
        Enter(s, i, if v == Accepted then Validated(c.call.approval.approvalId.value) else Replied(v))
      case (Insert(i), Validated(id)) =>
        if id in s.rows then Enter(s, i, Replied(Rejected(Replay)))
        else Enter(s, i, Committed(id)).(rows := InsertRow(s.rows, id, Row(c.call.now, c.call.planHash)))
      case (InsertFails(i, committed), Validated(id)) =>
        Enter(s, i, Replied(Rejected(StorageUnavailable))).(
          rows := if committed then InsertRow(s.rows, id, Row(c.call.now, c.call.planHash)) else s.rows)
      case (Reply(i), Committed(id)) => Enter(s, i, Replied(Accepted)).(successes := s.successes + [id])
      case (Crash(i), _) => Enter(s, i, Crashed)
      case (Restart(i, call), Replied(_)) => s.(clients := s.clients[i := Client(call, Ready)])
      case (Restart(i, call), Crashed) => s.(clients := s.clients[i := Client(call, Ready)])
      case _ => s
  }

  function Run(digest: Digest, s: State, events: seq<Event>): State
    decreases |events|
  {
    if events == [] then s else Run(digest, Step(digest, s, events[0]), events[1..])
  }

  function Start(rows: Rows, calls: seq<Call>): State {
    State(rows, seq(|calls|, i requires 0 <= i < |calls| => Client(calls[i], Ready)), [])
  }

  /* ---------- Safety: at most one success per approval ---------- */

  ghost predicate Pending(s: State, i: nat, id: string) {
    i < |s.clients| && s.clients[i].phase == Committed(id)
  }

  /** Client `i` has been told that its approval `id` is consumed. */
  ghost predicate Told(s: State, i: nat, id: string) {
    i < |s.clients| && s.clients[i].phase == Replied(Accepted) && s.clients[i].call.approval.approvalId == Some(id)
  }

  /** What a client is about to insert, has inserted or has been told concerns the approval it holds. */
  predicate OwnId(c: Client) {
    match c.phase
    case Validated(id) => c.call.approval.approvalId == Some(id)
    case Committed(id) => c.call.approval.approvalId == Some(id)
    case Replied(Accepted) => c.call.approval.approvalId.Some?
    case _ => true
  }

  /** Everyone told yes is on the list of successes, no two for one approval. */
  ghost predicate ToldOnce(s: State) {
    && (forall i | 0 <= i < |s.clients| :: OwnId(s.clients[i]))
    && (forall i, id | Told(s, i, id) :: id in s.successes)
    && (forall i, j, id | Told(s, i, id) && Told(s, j, id) :: i == j)
  }

  ghost predicate Safe(s: State, spent: set<string>) {
    && spent <= s.rows.Keys
    && NoDuplicates(s.successes)
    && (forall id | id in s.successes :: id in s.rows && id !in spent)
    && (forall i, id | Pending(s, i, id) :: id in s.rows && id !in spent && id !in s.successes)
    && (forall i, j, id | Pending(s, i, id) && Pending(s, j, id) :: i == j)
  }

  lemma StepKeepsSafe(digest: Digest, s: State, e: Event, spent: set<string>)
    requires Safe(s, spent)
    ensures Safe(Step(digest, s, e), spent)
  {
    var s' := Step(digest, s, e);
    forall i, id | Pending(s', i, id) && !Pending(s, i, id) ensures e == Insert(i) && id !in s.rows {}
    if e.Reply? && s' != s {
      assert Pending(s, e.i, s.clients[e.i].phase.id);
    }
  }

  lemma StepKeepsTold(digest: Digest, s: State, e: Event, spent: set<string>)
    requires Safe(s, spent) && ToldOnce(s)
    ensures ToldOnce(Step(digest, s, e))
  {
    var s' := Step(digest, s, e);
    if e.i < |s.clients| {
      AcceptedIffFieldsValid(digest, s.clients[e.i].call);
      assert OwnId(s.clients[e.i]);
      forall i, id | Told(s', i, id) && !Told(s, i, id) ensures e == Reply(i) && Pending(s, i, id) {}
    }
  }

  lemma {:induction false} RunKeepsSafe(digest: Digest, s: State, events: seq<Event>, spent: set<string>)
    requires Safe(s, spent) && ToldOnce(s)
    ensures Safe(Run(digest, s, events), spent) && ToldOnce(Run(digest, s, events))
    decreases |events|
  {
    if events != [] {
      StepKeepsTold(digest, s, events[0], spent);
      StepKeepsSafe(digest, s, events[0], spent);
      RunKeepsSafe(digest, Step(digest, s, events[0]), events[1..], spent);
    }
  }

  /** However the clients interleave, crash, restart and fail, no approval id is reported consumed twice,
      and none that was already in the table; and whoever was told yes was reported so. */
  lemma AtMostOneSuccess(digest: Digest, rows: Rows, calls: seq<Call>, events: seq<Event>)
    ensures
      var s := Run(digest, Start(rows, calls), events);
      && NoDuplicates(s.successes) && (forall id | id in s.successes :: id in s.rows && id !in rows)
      && ToldOnce(s)
  {
    RunKeepsSafe(digest, Start(rows, calls), events, rows.Keys);
  }

  /* ---------- Exactly one success when nothing goes wrong ---------- */

  predicate Quiet(e: Event) { e.Validate? || e.Insert? || e.Reply? }

  predicate Waiting(phase: Phase, id: string) {
    phase == Ready || phase == Validated(id) || phase == Replied(Rejected(Replay))
  }

  /** Client `w` has taken approval `id` and every other client has not. */
  ghost predicate Won(s: State, id: string, w: nat) {
    && w < |s.clients| && id in s.rows
    && (forall i | 0 <= i < |s.clients| && i != w :: Waiting(s.clients[i].phase, id))
    && (if s.successes == [] then s.clients[w].phase == Committed(id)
        else s.successes == [id] && s.clients[w].phase == Replied(Accepted))
  }

  ghost predicate Open(s: State, id: string) {
    && id !in s.rows && s.successes == []
    && forall i | 0 <= i < |s.clients| :: s.clients[i].phase == Ready || s.clients[i].phase == Validated(id)
  }

  ghost predicate AllAsk(digest: Digest, s: State, id: string) {
    forall i | 0 <= i < |s.clients| ::
      FieldsValid(digest, s.clients[i].call) && s.clients[i].call.approval.approvalId == Some(id)
  }

  lemma QuietStep(digest: Digest, s: State, e: Event, id: string)
    requires Quiet(e) && AllAsk(digest, s, id)
    ensures AllAsk(digest, Step(digest, s, e), id)
    ensures Open(s, id) ==> Open(Step(digest, s, e), id) || Won(Step(digest, s, e), id, e.i)
    ensures forall w | Won(s, id, w) :: Won(Step(digest, s, e), id, w)
  {
    if e.i < |s.clients| {
      AcceptedIffFieldsValid(digest, s.clients[e.i].call);
    }
  }

  lemma {:induction false} QuietRun(digest: Digest, s: State, events: seq<Event>, id: string)
    requires forall e | e in events :: Quiet(e)
    requires AllAsk(digest, s, id) && (Open(s, id) || exists w :: Won(s, id, w))
    ensures
      var s' := Run(digest, s, events);
      |s'.clients| == |s.clients| && (Open(s', id) || exists w :: Won(s', id, w))
    decreases |events|
  {
    if events != [] {
      QuietStep(digest, s, events[0], id);
      QuietRun(digest, Step(digest, s, events[0]), events[1..], id);
    }
  }

  /** Client `w` was told yes and every other client was told it is a replay. */
  ghost predicate OnlyWinner(s: State, w: nat) {
    && w < |s.clients|
    && forall i | 0 <= i < |s.clients| ::
        s.clients[i].phase == Replied(if i == w then Accepted else Rejected(Replay))
  }

  /** Clients that all hold one valid, unused approval: once everyone has heard back, exactly one has
      succeeded. */
  lemma ExactlyOneSuccess(digest: Digest, rows: Rows, calls: seq<Call>, events: seq<Event>, id: string)
    requires calls != [] && id !in rows
    requires forall c | c in calls :: FieldsValid(digest, c) && c.approval.approvalId == Some(id)
    requires forall e | e in events :: Quiet(e)
    requires forall c | c in Run(digest, Start(rows, calls), events).clients :: c.phase.Replied?
    ensures
      var s := Run(digest, Start(rows, calls), events);
      s.successes == [id] && exists w :: OnlyWinner(s, w)
  {
    QuietRun(digest, Start(rows, calls), events, id);
    var s := Run(digest, Start(rows, calls), events);
    assert s.clients[0].phase.Replied?;
    var w :| Won(s, id, w);
    assert forall i | 0 <= i < |s.clients| :: s.clients[i] in s.clients;
    assert OnlyWinner(s, w);
  }

  /** And on a database that fails, one client whose insert fails. */
  lemma FailingClientIsTheStore(digest: Digest, rows: Rows, c: Call, committed: bool)
    ensures
      var s := Run(digest, Start(rows, [c]), [Validate(0), InsertFails(0, committed)]);
      var (rows', v) := ConsumeDurable(digest, rows, c, if committed then FailsCommitted else FailsUncommitted);
      s.rows == rows' && s.clients == [Client(c, Replied(v))] && s.successes == []
  {
    var s0 := Start(rows, [c]);
    var s1 := Step(digest, s0, Validate(0));
    var s2 := Step(digest, s1, InsertFails(0, committed));
    assert [Validate(0), InsertFails(0, committed)][1..] == [InsertFails(0, committed)];
    assert Run(digest, s1, [InsertFails(0, committed)]) == s2;
    assert |s2.clients| == 1;
  }

  /** The store's method is one client that is never interrupted. */
  lemma UninterruptedClientIsTheStore(digest: Digest, rows: Rows, c: Call)
    ensures
      var s := Run(digest, Start(rows, [c]), [Validate(0), Insert(0), Reply(0)]);
      var (rows', v) := ConsumeDurable(digest, rows, c, Answers);
      s.rows == rows' && s.clients == [Client(c, Replied(v))]
  {
    var s0 := Start(rows, [c]);
    var s1 := Step(digest, s0, Validate(0));
    var s2 := Step(digest, s1, Insert(0));
    var s3 := Step(digest, s2, Reply(0));
    assert [Validate(0), Insert(0), Reply(0)][1..] == [Insert(0), Reply(0)];
    assert [Insert(0), Reply(0)][1..] == [Reply(0)];
    assert Run(digest, s2, [Reply(0)]) == s3;
    assert |s3.clients| == 1 && s3.clients[0] == Client(c, Replied(ConsumeDurable(digest, rows, c, Answers).1));
  }
}
