/**
 The inbox/status/outbox journal: the schema's constraints, each call's effect on the three tables, and the class
 that runs the SQL statements (src/transport_runtime.rs, migrations/0001_durable_operations.sql).
 */
module Journal {
  import opened Prelude
  import opened Attestation
  import Hex

  const RESULT_SUBJECT: string := "act.results.api.v1"
  const MAX_TRANSPORT_BYTES: nat := 64 * 1024

  datatype RowStatus = Processing | Completed

  /** `completedAt` and `delivered` record only whether the timestamp column is set. */
  datatype InboxRow = InboxRow(
    subject: string, requestHash: string, status: RowStatus, resultJson: Option<Bytes>, completedAt: bool)
  datatype StatusRow = StatusRow(subject: string, status: RowStatus, resultJson: Option<Bytes>)
  datatype OutboxRow = OutboxRow(operationId: string, subject: string, payloadJson: Bytes, delivered: bool)

  datatype Tables = Tables(
    inbox: map<string, InboxRow>, status: map<string, StatusRow>, outbox: map<string, OutboxRow>)

  /**
   SHA-256, the UTF-8 test, the JSON test, and one question about the database. The statement that completes a status
   row names no subject although the column is NOT NULL; with `strictNotNull` that is an error even when the row
   already exists.
   */
  datatype Rules = Rules(sha256: Bytes -> Digest, isUtf8: Bytes -> bool, isJson: Bytes -> bool, strictNotNull: bool)

  /** What happens to one database call: it commits, it rolls back, or it commits and the answer is lost. */
  datatype Fault = NoFault | Aborted | AnswerLost

  datatype JournalClaim = New | Replay(payload: Bytes) | InProgress | Conflict

  function Fingerprint(rules: Rules, payload: Bytes): string {
    Hex.EncodeHex(rules.sha256(payload))
  }

  // ---------------------------------------------------------------- constraints

  predicate IsHashText(s: string) {
    |s| == 64 && forall k :: 0 <= k < 64 ==> Hex.IsLowerHexDigit(s[k])
  }

  predicate KeyChecks(id: string, subject: string) {
    1 <= |id| <= 128 && 1 <= |subject| <= 256
  }

  predicate SizeCheck(resultJson: Option<Bytes>) {
    resultJson.Some? ==> |resultJson.value| <= MAX_TRANSPORT_BYTES
  }

  /** Every CHECK, NOT NULL and REFERENCES clause of the migration, for the rows keyed by `id`. */
  predicate SchemaAt(t: Tables, id: string) {
    && (id in t.inbox ==>
          && KeyChecks(id, t.inbox[id].subject)
          && IsHashText(t.inbox[id].requestHash)
          && SizeCheck(t.inbox[id].resultJson)
          && (t.inbox[id].status == Completed <==> t.inbox[id].completedAt))
    && (id in t.status ==> KeyChecks(id, t.status[id].subject) && SizeCheck(t.status[id].resultJson))
    && (id in t.outbox ==>
          && 1 <= |id| <= 128
          && t.outbox[id].operationId in t.inbox
          && t.outbox[id].subject == RESULT_SUBJECT
          && |t.outbox[id].payloadJson| <= MAX_TRANSPORT_BYTES)
  }

  /** What the schema alone does not say: the three tables tell the same story about `id`. */
  predicate AgreesAt(t: Tables, id: string) {
    && (id in t.inbox <==> id in t.status)
    && (id in t.inbox ==>
          && t.status[id] == StatusRow(t.inbox[id].subject, t.inbox[id].status, t.inbox[id].resultJson)
          && (t.inbox[id].status == Completed <==> t.inbox[id].resultJson.Some?))
    && (id in t.outbox <==> id in t.inbox && t.inbox[id].status == Completed)
    && (id in t.outbox ==>
          t.outbox[id].operationId == id && Some(t.outbox[id].payloadJson) == t.inbox[id].resultJson)
  }

  predicate RowsOk(t: Tables, id: string) {
    SchemaAt(t, id) && AgreesAt(t, id)
  }

  ghost predicate TablesOk(t: Tables) {
    forall id :: RowsOk(t, id)
  }

  const EMPTY: Tables := Tables(map[], map[], map[])

  // ---------------------------------------------------------------- meaning of the calls

  function WithFault<T>(before: Tables, after: (Tables, Result<T, TransportError>), fault: Fault)
    : (Tables, Result<T, TransportError>)
  {
    match fault
    case NoFault => after
    case Aborted => (before, Failure(Database))
    case AnswerLost => if after.1.Success? then (after.0, Failure(Database)) else after
  }

  function ClaimTables(t: Tables, id: string, subject: string, hash: string)
    : (Tables, Result<JournalClaim, TransportError>)
  {
    if !KeyChecks(id, subject) || !IsHashText(hash) then (t, Failure(Database))
    else if id !in t.inbox then
      (t.(inbox := t.inbox[id := InboxRow(subject, hash, Processing, None, false)],
          status := t.status[id := StatusRow(subject, Processing, None)]),
       Success(New))
    else
      var row := t.inbox[id];
      (t,
       if row.requestHash != hash || row.subject != subject then Success(Conflict)
       else if row.resultJson.None? then Success(InProgress)
       else Success(Replay(row.resultJson.value)))
  }

  predicate CanComplete(rules: Rules, t: Tables, id: string, result: Bytes) {
    && rules.isUtf8(result)
    && id in t.inbox && t.inbox[id].status == Processing
    && |result| <= MAX_TRANSPORT_BYTES
    && !rules.strictNotNull
  }

  function CompleteTables(rules: Rules, t: Tables, id: string, result: Bytes): (Tables, Result<(), TransportError>) {
    if CanComplete(rules, t, id, result) then
      var subject := t.inbox[id].subject;
      (Tables(
         t.inbox[id := InboxRow(subject, t.inbox[id].requestHash, Completed, Some(result), true)],
         t.status[id := StatusRow(subject, Completed, Some(result))],
         t.outbox[id := OutboxRow(id, RESULT_SUBJECT, result, false)]),
       Success(()))
    else if !rules.isUtf8(result) || id !in t.inbox || t.inbox[id].status == Completed then (t, Failure(InvalidState))
    else (t, Failure(Database))
  }

  function CompleteCall(rules: Rules, t: Tables, id: string, result: Bytes, fault: Fault)
    : (Tables, Result<(), TransportError>)
  {
    if !rules.isUtf8(result) then (t, Failure(InvalidState))
    else WithFault(t, CompleteTables(rules, t, id, result), fault)
  }

  function PendingResult(t: Tables, id: string): Option<(string, Bytes)> {
    if id in t.outbox && !t.outbox[id].delivered then Some((t.outbox[id].subject, t.outbox[id].payloadJson)) else None
  }

  function MarkTables(t: Tables, id: string): Tables {
    if PendingResult(t, id).Some? then t.(outbox := t.outbox[id := t.outbox[id].(delivered := true)]) else t
  }

  function ReadStatus(t: Tables, id: string, subject: string): Option<(RowStatus, Option<Bytes>)> {
    if id in t.status && t.status[id].subject == subject then Some((t.status[id].status, t.status[id].resultJson))
        else None
  }

  function StatusAnswer(rules: Rules, row: Option<(RowStatus, Option<Bytes>)>)
    : Result<Option<(RowStatus, Option<Bytes>)>, TransportError>
  {
    if row.Some? && row.value.1.Some? && !rules.isJson(row.value.1.value) then Failure(InvalidState) else Success(row)
  }

  // ---------------------------------------------------------------- the journal object

  class SeaOrmOperationJournal {
    const rules: Rules
    var inbox: map<string, InboxRow>
    var status: map<string, StatusRow>
    var outbox: map<string, OutboxRow>

    function Snapshot(): Tables
      reads this
    {
      Tables(inbox, status, outbox)
    }

    ghost predicate Valid()
      reads this
    {
      TablesOk(Snapshot())
    }

    constructor (rules: Rules)
      ensures Valid() && Snapshot() == EMPTY && this.rules == rules
    {
      this.rules := rules;
      inbox, status, outbox := map[], map[], map[];
    }

    method Claim(operationId: string, subject: string, requestJson: Bytes, fault: Fault)
      returns (r: Result<JournalClaim, TransportError>)
      requires Valid()
      modifies this
      ensures Valid()
      ensures (Snapshot(), r) ==
              WithFault(old(Snapshot()),
                  ClaimTables(old(Snapshot()), operationId, subject, Fingerprint(rules, requestJson)), fault)
    {
      ghost var before := Snapshot();
      assert RowsOk(before, operationId);
      var requestHash := Fingerprint(rules, requestJson);
      ClaimKeepsTables(before, operationId, subject, requestHash);
      if fault == Aborted {
        return Failure(Database);
      }
      // INSERT INTO act_operation_inbox ... ON CONFLICT (operation_id) DO NOTHING: the checks come first
      if !KeyChecks(operationId, subject) || !IsHashText(requestHash) {
        return Failure(Database);
      }
      var rowsAffected := if operationId in inbox then 0 else 1;
      if rowsAffected == 1 {
        var newInbox := inbox[operationId := InboxRow(subject, requestHash, Processing, None, false)];
        // INSERT INTO act_operation_status ... ON CONFLICT (operation_id) DO NOTHING
        var newStatus := if operationId in status then status
            else status[operationId := StatusRow(subject, Processing, None)];
        inbox, status := newInbox, newStatus;
        return if fault == AnswerLost then Failure(Database) else Success(New);
      }
      var row := inbox[operationId];
      if fault == AnswerLost {
        return Failure(Database);
      }
      if row.requestHash != requestHash || row.subject != subject {
        return Success(Conflict);
      }
      match row.status {
        case Processing => return Success(InProgress);
        case Completed =>
          if row.resultJson.None? {
            assert false;
            return Failure(InvalidState);
          }
          return Success(Replay(row.resultJson.value));
      }
    }

    method Complete(operationId: string, resultJson: Bytes, fault: Fault) returns (r: Result<(), TransportError>)
      requires Valid()
      modifies this
      ensures Valid()
      ensures (Snapshot(), r) == CompleteCall(rules, old(Snapshot()), operationId, resultJson, fault)
    {
      ghost var before := Snapshot();
      assert RowsOk(before, operationId);
      CompleteKeepsTables(rules, before, operationId, resultJson);
      if !rules.isUtf8(resultJson) {
        return Failure(InvalidState);
      }
      if fault == Aborted {
        return Failure(Database);
      }
      // UPDATE act_operation_inbox ... WHERE operation_id = $1 AND status = 'processing'
      if operationId !in inbox || inbox[operationId].status != Processing {
        return Failure(InvalidState);
      }
      if |resultJson| > MAX_TRANSPORT_BYTES {
        return Failure(Database);
      }
      var row := inbox[operationId].(status := Completed, resultJson := Some(resultJson), completedAt := true);
      var newInbox := inbox[operationId := row];
      // INSERT INTO act_operation_status without a subject ... ON CONFLICT (operation_id) DO UPDATE
      if rules.strictNotNull || operationId !in status {
        return Failure(Database);
      }
      var newStatus := status[operationId := status[operationId].(status := Completed, resultJson := Some(resultJson))];
      // INSERT INTO act_operation_outbox ... ON CONFLICT (event_id) DO NOTHING
      var newOutbox := if operationId in outbox then outbox
      else outbox[operationId := OutboxRow(operationId, RESULT_SUBJECT, resultJson, false)];
      inbox, status, outbox := newInbox, newStatus, newOutbox;
      return if fault == AnswerLost then Failure(Database) else Success(());
    }

    method MarkResultPublished(operationId: string, fault: Fault) returns (r: Result<(), TransportError>)
      requires Valid()
      modifies this
      ensures Valid()
      ensures (Snapshot(), r) ==
              WithFault(old(Snapshot()), (MarkTables(old(Snapshot()), operationId), Success(())), fault)
    {
      MarkKeepsTables(Snapshot(), operationId);
      if fault == Aborted {
        return Failure(Database);
      }
      // UPDATE act_operation_outbox ... WHERE event_id = $1 AND delivered_at IS NULL
      if operationId in outbox && !outbox[operationId].delivered {
        outbox := outbox[operationId := outbox[operationId].(delivered := true)];
      }
      return if fault == AnswerLost then Failure(Database) else Success(());
    }

    method Pending(operationId: string, fault: Fault) returns (r: Result<Option<(string, Bytes)>, TransportError>)
      ensures r == if fault == NoFault then Success(PendingResult(Snapshot(), operationId)) else Failure(Database)
    {
      if fault != NoFault {
        return Failure(Database);
      }
      if operationId in outbox && !outbox[operationId].delivered {
        return Success(Some((outbox[operationId].subject, outbox[operationId].payloadJson)));
      }
      return Success(None);
    }

    /** The stored result is parsed again on the way out. */
    method Status(operationId: string, subject: string, fault: Fault)
      returns (r: Result<Option<(RowStatus, Option<Bytes>)>, TransportError>)
      ensures r == if fault != NoFault then Failure(Database)
              else StatusAnswer(rules, ReadStatus(Snapshot(), operationId, subject))
    {
      if fault != NoFault {
        return Failure(Database);
      }
      if operationId in status && status[operationId].subject == subject {
        var result := status[operationId].resultJson;
        if result.Some? && !rules.isJson(result.value) {
          return Failure(InvalidState);
        }
        return Success(Some((status[operationId].status, result)));
      }
      return Success(None);
    }
  }

  // ---------------------------------------------------------------- lemmas

  lemma FingerprintIsHashText(rules: Rules, payload: Bytes)
    ensures IsHashText(Fingerprint(rules, payload))
  {
    Hex.EncodedIsLowerHex(rules.sha256(payload));
  }

  /** Two messages have one fingerprint exactly when they have one digest. */
  lemma FingerprintTellsDigestsApart(rules: Rules, p: Bytes, q: Bytes)
    ensures Fingerprint(rules, p) == Fingerprint(rules, q) <==> rules.sha256(p) == rules.sha256(q)
  {
    Hex.DecodeUndoesEncode(rules.sha256(p));
    Hex.DecodeUndoesEncode(rules.sha256(q));
  }

  /** One call touches the rows of one operation only. */
  ghost predicate OnlyChanges(t: Tables, u: Tables, id: string) {
    && t.inbox - {id} == u.inbox - {id}
    && t.status - {id} == u.status - {id}
    && t.outbox - {id} == u.outbox - {id}
    && t.inbox.Keys <= u.inbox.Keys
  }

  lemma OtherRowsStayOk(t: Tables, u: Tables, id: string)
    requires TablesOk(t) && OnlyChanges(t, u, id) && RowsOk(u, id)
    ensures TablesOk(u)
  {
    forall other
      ensures RowsOk(u, other)
    {
      assert RowsOk(t, other);
      if other != id {
        SameElsewhere(t, u, id, other);
      }
    }
  }

  lemma SameElsewhere(t: Tables, u: Tables, id: string, other: string)
    requires OnlyChanges(t, u, id) && other != id
    ensures other in t.inbox <==> other in u.inbox
    ensures other in t.inbox ==> t.inbox[other] == u.inbox[other]
    ensures other in t.status <==> other in u.status
    ensures other in t.status ==> t.status[other] == u.status[other]
    ensures other in t.outbox <==> other in u.outbox
    ensures other in t.outbox ==> t.outbox[other] == u.outbox[other]
  {
    assert other in t.inbox - {id} <==> other in u.inbox - {id};
    assert other in t.status - {id} <==> other in u.status - {id};
    assert other in t.outbox - {id} <==> other in u.outbox - {id};
    assert other in t.inbox ==> (t.inbox - {id})[other] == (u.inbox - {id})[other];
    assert other in t.status ==> (t.status - {id})[other] == (u.status - {id})[other];
    assert other in t.outbox ==> (t.outbox - {id})[other] == (u.outbox - {id})[other];
  }

  /** A claim keeps the tables in agreement and decides by the row's first claimant; a refusal changes nothing. */
  lemma ClaimKeepsTables(t: Tables, id: string, subject: string, hash: string)
    requires TablesOk(t)
    ensures TablesOk(ClaimTables(t, id, subject, hash).0)
    ensures OnlyChanges(t, ClaimTables(t, id, subject, hash).0, id)
    ensures ClaimTables(t, id, subject, hash).1 != Success(New) ==> ClaimTables(t, id, subject, hash).0 == t
    ensures KeyChecks(id, subject) && IsHashText(hash) && id in t.inbox ==>
              (ClaimTables(t, id, subject, hash).1 == Success(Conflict)
               <==> (t.inbox[id].subject, t.inbox[id].requestHash) != (subject, hash))
    ensures forall p :: ClaimTables(t, id, subject, hash).1 == Success(Replay(p)) ==>
                          id in t.outbox && t.outbox[id].payloadJson == p
  {
    var u := ClaimTables(t, id, subject, hash).0;
    assert RowsOk(t, id);
    OtherRowsStayOk(t, u, id);
  }

  /**
   Completion keeps the tables in agreement; it succeeds at most once for an operation, and never when `strictNotNull`.
   */
  lemma CompleteKeepsTables(rules: Rules, t: Tables, id: string, result: Bytes)
    requires TablesOk(t)
    ensures TablesOk(CompleteTables(rules, t, id, result).0)
    ensures OnlyChanges(t, CompleteTables(rules, t, id, result).0, id)
    ensures CompleteTables(rules, t, id, result).1.Success? <==>
              && rules.isUtf8(result) && id in t.inbox && t.inbox[id].status == Processing
              && |result| <= 65536 && !rules.strictNotNull
    ensures CompleteTables(rules, t, id, result).1.Success? ==>
              var u := CompleteTables(rules, t, id, result).0;
              && PendingResult(u, id) == Some(("act.results.api.v1", result))
              && ReadStatus(u, id, t.inbox[id].subject) == Some((Completed, Some(result)))
    ensures CompleteTables(rules, t, id, result).1 == Failure(InvalidState) <==>
              !rules.isUtf8(result) || id !in t.inbox || t.inbox[id].status == Completed
    ensures CompleteTables(rules, t, id, result).1.Failure? ==> CompleteTables(rules, t, id, result).0 == t
    ensures forall again :: CompleteTables(rules, t, id, result).1.Success? ==>
                              CompleteTables(rules, CompleteTables(rules, t, id, result).0, id, again).1.Failure?
  {
    var u := CompleteTables(rules, t, id, result).0;
    assert RowsOk(t, id);
    OtherRowsStayOk(t, u, id);
  }

  lemma MarkKeepsTables(t: Tables, id: string)
    requires TablesOk(t)
    ensures TablesOk(MarkTables(t, id))
    ensures OnlyChanges(t, MarkTables(t, id), id)
    ensures PendingResult(MarkTables(t, id), id) == None
  {
    var u := MarkTables(t, id);
    assert RowsOk(t, id);
    OtherRowsStayOk(t, u, id);
  }

  /** The claimant is told the stored result if it reads as JSON, and an error if it does not. */
  lemma ClaimantReadsItsResult(rules: Rules, t: Tables, id: string)
    requires RowsOk(t, id) && id in t.inbox && t.inbox[id].status == Completed
    ensures var answer := StatusAnswer(rules, ReadStatus(t, id, t.inbox[id].subject));
            var result := t.inbox[id].resultJson.value;
            && (rules.isJson(result) <==> answer == Success(Some((Completed, Some(result)))))
            && (!rules.isJson(result) <==> answer == Failure(InvalidState))
  {
  }

  /** A caller who is not the claimant gets the answer for an operation that does not exist. */
  lemma StrangersSeeNothing(t: Tables, id: string, subject: string, missing: string)
    requires TablesOk(t) && missing !in t.inbox
    ensures id in t.inbox && t.inbox[id].subject == subject <==>
            ReadStatus(t, id, subject) != ReadStatus(t, missing, subject)
  {
    assert RowsOk(t, id) && RowsOk(t, missing);
  }
}
