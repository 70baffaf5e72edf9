/** Approvals: the field checks every store shares, and the two stores that consume them. */
module Approvals {
  import opened Options
  import opened PlanHash

  /** A timestamp field of a dict: `At` is an aware time in microseconds. */
  datatype Stamp = Absent | NotText | Unreadable | Naive | At(us: int)

  datatype Approval = Approval(
    approvalId: Option<string>,
    approverId: Option<string>,
    decision: Option<string>,
    expiresAt: Stamp,
    signatureRef: Option<string>)

  datatype Reason =
    | Replay | ApproverIsRequester | ApproverIsExecutor | NotApproved | Expired | WrongSignature
    | StorageUnavailable

  datatype Fault = KeyError | TypeError | ValueError

  /** `Rejected` is `ApprovalRejected`, which the gateway turns into a denial; any other exception is `Failed`. */
  datatype Verdict = Accepted | Rejected(reason: Reason) | Failed(fault: Fault)

  /** The arguments of one `validate_and_consume`. */
  datatype Call = Call(approval: Approval, planHash: string, requester: string, executor: string, now: int)

  function ValidateFields(digest: Digest, c: Call): Verdict {
    var a := c.approval;
    if a.approvalId.None? || a.approverId.None? then Failed(KeyError)
    else if a.approverId.value == c.requester then Rejected(ApproverIsRequester)
    else if a.approverId.value == c.executor then Rejected(ApproverIsExecutor)
    else if a.decision.None? then Failed(KeyError)
    else if a.decision.value != "APPROVE" then Rejected(NotApproved)
    else
      match a.expiresAt
      case Absent => Failed(KeyError)
      case NotText => Failed(TypeError)
      case Unreadable => Failed(ValueError)
      case Naive => Failed(TypeError)
      case At(us) =>
        if c.now > us then Rejected(Expired)
        else if a.signatureRef.None? then Failed(KeyError)
        else if a.signatureRef.value != ComputeSignatureRef(digest, a.approvalId.value, c.planHash)
        then Rejected(WrongSignature)
        else Accepted
  }

  /** What an approval must be to back this call, in no particular order of checking. */
  predicate FieldsValid(digest: Digest, c: Call) {
    var a := c.approval;
    && a.decision == Some("APPROVE")
    && a.approverId.Some? && a.approverId.value !in {c.requester, c.executor}
    && a.expiresAt.At? && c.now <= a.expiresAt.us
    && a.approvalId.Some?
    && a.signatureRef == Some(ComputeSignatureRef(digest, a.approvalId.value, c.planHash))
  }

  lemma AcceptedIffFieldsValid(digest: Digest, c: Call)
    ensures ValidateFields(digest, c) == Accepted <==> FieldsValid(digest, c)
  {}

  /** Each exception names what it could not read. */
  lemma FaultsAreTrue(digest: Digest, c: Call)
    ensures
      match ValidateFields(digest, c)
      case Failed(KeyError) =>
        var a := c.approval;
        a.approvalId.None? || a.approverId.None? || a.decision.None? || a.expiresAt.Absent? || a.signatureRef.None?
      case Failed(TypeError) => c.approval.expiresAt in {NotText, Naive}
      case Failed(ValueError) => c.approval.expiresAt == Unreadable
      case _ => true
  {}

  /** Identified, and approved by someone who neither asked nor executes. */
  predicate Segregated(c: Call) {
    && c.approval.approvalId.Some?
    && c.approval.approverId.Some? && c.approval.approverId.value !in {c.requester, c.executor}
  }

  /** Segregated, with the decision APPROVE and a readable expiry. */
  predicate Dated(c: Call) {
    Segregated(c) && c.approval.decision == Some("APPROVE") && c.approval.expiresAt.At?
  }

  /** The answer names the first check that fails, in the order: identity, segregation, decision, expiry,
      signature. */
  predicate FirstAnswer(digest: Digest, c: Call, answer: Verdict) {
    var a := c.approval;
    match answer
    case Rejected(ApproverIsRequester) => a.approvalId.Some? && a.approverId == Some(c.requester)
    case Rejected(ApproverIsExecutor) =>
      a.approvalId.Some? && a.approverId == Some(c.executor) && c.executor != c.requester
    case Rejected(NotApproved) => Segregated(c) && a.decision.Some? && a.decision.value != "APPROVE"
    case Rejected(Expired) => Dated(c) && c.now > a.expiresAt.us
    case Rejected(WrongSignature) =>
      && Dated(c) && c.now <= a.expiresAt.us && a.signatureRef.Some?
      && a.signatureRef.value != "sha256:" + digest(a.approvalId.value + ":" + c.planHash)
    case Rejected(_) => false
    case Failed(KeyError) =>
      || a.approvalId.None? || a.approverId.None?
      || (Segregated(c) && (a.decision.None? || (a.decision.value == "APPROVE" && a.expiresAt.Absent?)))
      || (Dated(c) && c.now <= a.expiresAt.us && a.signatureRef.None?)
    case Failed(TypeError) => Segregated(c) && a.decision == Some("APPROVE") && a.expiresAt in {NotText, Naive}
    case Failed(ValueError) => Segregated(c) && a.decision == Some("APPROVE") && a.expiresAt == Unreadable
    case Accepted =>
      && Dated(c) && c.now <= a.expiresAt.us
      && a.signatureRef == Some("sha256:" + digest(a.approvalId.value + ":" + c.planHash))
  }

  lemma AnswerIsFirst(digest: Digest, c: Call)
    ensures FirstAnswer(digest, c, ValidateFields(digest, c))
  {
    assert PREFIX == "sha256:";
  }

  /* ---------- The in-memory store ---------- */

  function ConsumeInMemory(digest: Digest, consumed: set<string>, c: Call): (set<string>, Verdict) {
    if c.approval.approvalId.None? then (consumed, Failed(KeyError))
    else if c.approval.approvalId.value in consumed then (consumed, Rejected(Replay))
    else
      var v := ValidateFields(digest, c);
      (if v == Accepted then consumed + {c.approval.approvalId.value} else consumed, v)
  }

  class ApprovalStore {
    var consumed: set<string>

    constructor ()
      ensures consumed == {}
    {
      consumed := {};
    }

    method ValidateAndConsume(digest: Digest, c: Call) returns (v: Verdict)
      modifies this
      ensures (consumed, v) == ConsumeInMemory(digest, old(consumed), c)
    {
      if c.approval.approvalId.None? {
        return Failed(KeyError);
      }
      var approvalId := c.approval.approvalId.value;
      if approvalId in consumed {
        return Rejected(Replay);
      }
      v := ValidateFields(digest, c);
      if v == Accepted {
        consumed := consumed + {approvalId};
      }
    }
  }

  /* ---------- The durable store ---------- */

  /** A row of `consumed_approvals`; its key is the approval id. */
  datatype Row = Row(consumedAt: int, actionBinding: string)

  type Rows = map<string, Row>

  /** What the database does with an INSERT: it answers, or it fails with an error other than a key
      conflict, before or after committing. */
  datatype Disk = Answers | FailsUncommitted | FailsCommitted

  function InsertRow(rows: Rows, id: string, row: Row): Rows {
    if id in rows then rows else rows[id := row]
  }

  function ConsumeDurable(digest: Digest, rows: Rows, c: Call, disk: Disk): (Rows, Verdict) {
    var v := ValidateFields(digest, c);
    if v != Accepted then (rows, v)
    else
      var id, row := c.approval.approvalId.value, Row(c.now, c.planHash);
      match disk
      case FailsUncommitted => (rows, Rejected(StorageUnavailable))
      case FailsCommitted => (InsertRow(rows, id, row), Rejected(StorageUnavailable))
      case Answers => (InsertRow(rows, id, row), if id in rows then Rejected(Replay) else Accepted)
  }

  /** The database file, shared by every connection to it. */
  class ConsumedApprovals {
    var rows: Rows

    constructor ()
      ensures rows == map[]
    {
      rows := map[];
    }

    /** `INSERT INTO consumed_approvals ...` with the id as primary key. */
    method Insert(id: string, row: Row, disk: Disk) returns (conflict: bool, failed: bool)
      modifies this
      ensures rows == if disk == FailsUncommitted then old(rows) else InsertRow(old(rows), id, row)
      ensures failed <==> disk != Answers
      ensures conflict <==> disk == Answers && id in old(rows)
    {
      failed := disk != Answers;
      conflict := !failed && id in rows;
      if disk != FailsUncommitted && id !in rows {
        rows := rows[id := row];
      }
    }
  }

  class DurableApprovalStore {
    const table: ConsumedApprovals

    constructor (table: ConsumedApprovals)
      ensures this.table == table
    {
      this.table := table;
    }

    method ValidateAndConsume(digest: Digest, c: Call, disk: Disk) returns (v: Verdict)
      modifies table
      ensures (table.rows, v) == ConsumeDurable(digest, old(table.rows), c, disk)
    {
      v := ValidateFields(digest, c);
      if v != Accepted {
        return;
      }
      var conflict, failed := table.Insert(c.approval.approvalId.value, Row(c.now, c.planHash), disk);
      if conflict {
        return Rejected(Replay);
      }
      if failed {
        return Rejected(StorageUnavailable);
      }
    }
  }

  /** When the stores speak of a replay and when of their own failure. */
  lemma StoreAnswers(digest: Digest, rows: Rows, c: Call, disk: Disk)
    ensures
      var spent := c.approval.approvalId.Some? && c.approval.approvalId.value in rows;
      var (memory, durable) := (ConsumeInMemory(digest, rows.Keys, c).1, ConsumeDurable(digest, rows, c, disk).1);
      && (memory == Rejected(Replay) <==> spent)
      && (!spent ==> memory == ValidateFields(digest, c))
      && (durable == Rejected(Replay) <==> FieldsValid(digest, c) && disk == Answers && spent)
      && (durable == Rejected(StorageUnavailable) <==> FieldsValid(digest, c) && disk != Answers)
      && (!FieldsValid(digest, c) ==> durable == ValidateFields(digest, c))
  {
    AcceptedIffFieldsValid(digest, c);
    AnswerIsFirst(digest, c);
  }

  /* ---------- The two stores agree ---------- */

  function RunInMemory(digest: Digest, consumed: set<string>, calls: seq<Call>): (r: (set<string>, seq<Verdict>))
    ensures |r.1| == |calls|
    decreases |calls|
  {
    if calls == [] then (consumed, [])
    else
      var (consumed', v) := ConsumeInMemory(digest, consumed, calls[0]);
      var (last, vs) := RunInMemory(digest, consumed', calls[1..]);
      (last, [v] + vs)
  }

  function RunDurable(digest: Digest, rows: Rows, calls: seq<Call>): (r: (Rows, seq<Verdict>))
    ensures |r.1| == |calls|
    decreases |calls|
  {
    if calls == [] then (rows, [])
    else
      var (rows', v) := ConsumeDurable(digest, rows, calls[0], Answers);
      var (last, vs) := RunDurable(digest, rows', calls[1..]);
      (last, [v] + vs)
  }

  /** One checks for replay before the fields and the other after, yet on every run without storage errors
      they accept the same calls and end with the same ids consumed. */
  lemma {:induction false} StoresAgree(digest: Digest, consumed: set<string>, rows: Rows, calls: seq<Call>)
    requires consumed == rows.Keys
    ensures
      var (consumed', vs) := RunInMemory(digest, consumed, calls);
      var (rows', ws) := RunDurable(digest, rows, calls);
      consumed' == rows'.Keys && forall i | 0 <= i < |calls| :: vs[i] == Accepted <==> ws[i] == Accepted
    decreases |calls|
  {
    if calls != [] {
      var (consumed', v) := ConsumeInMemory(digest, consumed, calls[0]);
      var (rows', w) := ConsumeDurable(digest, rows, calls[0], Answers);
      StoresAgree(digest, consumed', rows', calls[1..]);
    }
  }

  /** The order of the checks shows only in why a spent approval is refused: the stores answer differently
      exactly when the id is spent and the other fields would not have passed either. */
  lemma StoresDifferOnlyOnReplay(digest: Digest, rows: Rows, c: Call)
    ensures ConsumeInMemory(digest, rows.Keys, c).1 != ConsumeDurable(digest, rows, c, Answers).1
       <==> c.approval.approvalId.Some? && c.approval.approvalId.value in rows && !FieldsValid(digest, c)
  {
    AcceptedIffFieldsValid(digest, c);
  }
}
