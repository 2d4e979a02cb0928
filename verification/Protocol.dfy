/**
 The durable operation protocol: any number of workers over the shared journal, a broker that may deliver any bytes to
 any worker at any time, database calls that may abort or lose their answer, and workers that may die between any two
 steps (src/transport_runtime.rs, `handle_jetstream_message`).

 A run is a sequence of actions; an action that is not enabled leaves the state unchanged, so a statement about every
 sequence of actions is a statement about every interleaving.
 */
module Protocol {
  import opened Prelude
  import opened DataPlane
  import opened Attestation
  import opened Journal

  datatype AuthenticatedOperation = AuthenticatedOperation(authorization: string, envelope: OperationEnvelope)

  datatype OperationReply = OperationReply(operationId: Option<string>, result: Option<Bytes>, error: Option<string>)

  /** `parse` is the UTF-8 test followed by strict JSON parsing; `encodeReply` is serialization of a reply. */
  datatype Config = Config(
    rules: Rules,
    crypto: Crypto,
    key: Bytes,
    parse: Bytes -> Option<AuthenticatedOperation>,
    encodeReply: OperationReply -> Bytes)

  datatype AnswerKind = Ack | Nak | Term

  datatype Answer = Answer(payload: Bytes, kind: AnswerKind)

  datatype Publication = Publication(operationId: string, subject: string, payload: Bytes)

  /** Where one worker stands between two effects of `handle_jetstream_message`. */
  datatype Worker =
    | Idle
    | Received(payload: Bytes)
    | Refusing(payload: Bytes, kind: AnswerKind)
    | Admitted(payload: Bytes, op: AuthenticatedOperation)
    | Claimed(payload: Bytes, op: AuthenticatedOperation)
    | Executing(payload: Bytes, op: AuthenticatedOperation)
    | Replied(payload: Bytes, op: AuthenticatedOperation, reply: Bytes)
    | Holding(payload: Bytes, op: AuthenticatedOperation, result: Bytes)
    | Publishing(payload: Bytes, op: AuthenticatedOperation, subject: string, message: Bytes)
    | Published(payload: Bytes, op: AuthenticatedOperation)
    | Marked(payload: Bytes, op: AuthenticatedOperation)

  datatype ServiceOutcome = Returned(result: Bytes) | Failed(code: string) | TimedOut

  /** The broker stores the message, drops it as a duplicate, stores it but loses the acknowledgement, or loses it. */
  datatype PublishOutcome = Stored | Deduplicated | StoredUnseen | Lost

  datatype Move =
    | Deliver(payload: Bytes)
    | Validate
    | SendAnswer(sent: bool)
    | Claim(fault: Fault)
    | Begin
    | Finish(outcome: ServiceOutcome)
    | Complete(fault: Fault)
    | ReadOutbox(fault: Fault)
    | Publish(publish: PublishOutcome)
    | Mark(fault: Fault)
    | Crash

  datatype Action = Tick(ms: nat) | Step(w: nat, move: Move)

  /**
   `started`, `outcomes`, `results` and `answers` log every execution start, what each execution came to, every stored
   publication and every broker answer.
   */
  datatype State = State(
    db: Tables, now: nat, workers: seq<Worker>, started: seq<string>, outcomes: seq<(string, ServiceOutcome)>,
    results: seq<Publication>, answers: seq<Answer>)

  function Init(workers: nat, now: nat): State {
    State(EMPTY, now, seq(workers, _ => Idle), [], [], [], [])
  }

  // ---------------------------------------------------------------- steps

  predicate Validates(c: Config, op: AuthenticatedOperation, now: nat) {
    WellShaped(op.authorization) && ValidateFor(op.envelope, JetStreamAsync, c.crypto.encode(op.envelope), now).Success?
  }

  function Admit(c: Config, payload: Bytes, now: nat): Option<AuthenticatedOperation> {
    if |payload| > MAX_TRANSPORT_BYTES then None
    else if c.parse(payload).None? then None
    else
      var op := c.parse(payload).value;
      if !Validates(c, op, now) then None
      else if Verify(c.crypto, c.key, op.envelope, op.authorization).Failure? then None
      else Some(op)
  }

  function ReplyFor(c: Config, op: AuthenticatedOperation, outcome: ServiceOutcome): Bytes {
    var id := Some(op.envelope.operationId);
    c.encodeReply(
      match outcome
      case Returned(result) => OperationReply(id, Some(result), None)
      case Failed(code) => OperationReply(id, None, Some(code))
      case TimedOut => OperationReply(id, None, Some("operation_timeout")))
  }

  function To(s: State, w: nat, wk: Worker): State
    requires w < |s.workers|
  {
    s.(workers := s.workers[w := wk])
  }

  function Apply(c: Config, s: State, a: Action): State {
    match a
    case Tick(ms) => s.(now := s.now + ms)
    case Step(w, move) => if w < |s.workers| then Take(c, s, w, move) else s
  }

  function Take(c: Config, s: State, w: nat, move: Move): State
    requires w < |s.workers|
  {
    var wk := s.workers[w];
    match move
    case Deliver(payload) => if wk.Idle? then To(s, w, Received(payload)) else s
    case Validate => if wk.Received? then To(s, w, AfterValidate(c, wk.payload, s.now)) else s
    case SendAnswer(sent) =>
      if wk.Refusing? then To(s, w, Idle).(answers := s.answers + if sent then [Answer(wk.payload, wk.kind)] else [])
      else if wk.Marked? then To(s, w, Idle).(answers := s.answers + if sent then [Answer(wk.payload, Ack)] else [])
      else s
    case Claim(fault) =>
      if wk.Admitted? then
        var e := wk.op.envelope;
        var (db, r) :=
            WithFault(s.db, ClaimTables(s.db, e.operationId, e.subject, Fingerprint(c.rules, wk.payload)), fault);
        To(s, w, AfterClaim(wk.payload, wk.op, r)).(db := db)
      else s
    case Begin =>
      if wk.Claimed? then
        if Validates(c, wk.op, s.now) then
          To(s, w, Executing(wk.payload, wk.op)).(started := s.started + [wk.op.envelope.operationId])
        else To(s, w, Replied(wk.payload, wk.op, ReplyFor(c, wk.op, Failed("invalid_request"))))
      else s
    case Finish(outcome) =>
      if wk.Executing? then
        To(s, w, Replied(wk.payload, wk.op, ReplyFor(c, wk.op, outcome)))
          .(outcomes := s.outcomes + [(wk.op.envelope.operationId, outcome)])
      else s
    case Complete(fault) =>
      if wk.Replied? then
        var (db, r) := CompleteCall(c.rules, s.db, wk.op.envelope.operationId, wk.reply, fault);
        To(s, w, if r.Success? then Holding(wk.payload, wk.op, wk.reply) else Idle).(db := db)
      else s
    case ReadOutbox(fault) =>
      if wk.Holding? then
        To(s, w, if fault == NoFault then AfterPending(wk, PendingResult(s.db, wk.op.envelope.operationId)) else Idle)
      else s
    case Publish(outcome) =>
      if wk.Publishing? then
        var id := wk.op.envelope.operationId;
        var stored := outcome.Stored? || outcome.StoredUnseen? || (outcome.Deduplicated? && !WasPublished(s, id));
        var seen := outcome.Stored? || outcome.Deduplicated?;
        To(s, w, if seen then Published(wk.payload, wk.op) else Idle)
          .(results := if stored then s.results + [Publication(id, wk.subject, wk.message)] else s.results)
      else s
    case Mark(fault) =>
      if wk.Published? then
        var (db, r) := WithFault(s.db, (MarkTables(s.db, wk.op.envelope.operationId), Success(())), fault);
        To(s, w, if r.Success? then Marked(wk.payload, wk.op) else Idle).(db := db)
      else s
    case Crash => To(s, w, Idle)
  }

  function AfterValidate(c: Config, payload: Bytes, now: nat): Worker {
    var op := Admit(c, payload, now);
    if op.Some? then Admitted(payload, op.value) else Refusing(payload, Term)
  }

  function AfterClaim(payload: Bytes, op: AuthenticatedOperation, r: Result<JournalClaim, TransportError>): Worker {
    match r
    case Failure(_) => Idle
    case Success(New) => Claimed(payload, op)
    case Success(Replay(result)) => Holding(payload, op, result)
    case Success(InProgress) => Refusing(payload, Nak)
    case Success(Conflict) => Refusing(payload, Term)
  }

  function AfterPending(wk: Worker, pending: Option<(string, Bytes)>): Worker
    requires wk.Holding?
  {
    if pending.Some? then Publishing(wk.payload, wk.op, pending.value.0, pending.value.1)
    else Publishing(wk.payload, wk.op, RESULT_SUBJECT, wk.result)
  }

  predicate WasPublished(s: State, id: string) {
    exists p :: p in s.results && p.operationId == id
  }

  function Run(c: Config, s: State, actions: seq<Action>): State
    decreases |actions|
  {
    if actions == [] then s else Run(c, Apply(c, s, actions[0]), actions[1..])
  }

  // ---------------------------------------------------------------- the invariant

  /** The worker's message really carries this operation, signed, with identifiers the schema accepts. */
  ghost predicate Sound(c: Config, payload: Bytes, op: AuthenticatedOperation) {
    && c.parse(payload) == Some(op)
    && KeyChecks(op.envelope.operationId, op.envelope.subject)
    && Verify(c.crypto, c.key, op.envelope, op.authorization).Success?
  }

  /** This message holds the unfinished claim on its operation. */
  ghost predicate Holds(c: Config, db: Tables, payload: Bytes, op: AuthenticatedOperation) {
    var e := op.envelope;
    && Sound(c, payload, op)
    && e.operationId in db.inbox
    && db.inbox[e.operationId] == InboxRow(e.subject, Fingerprint(c.rules, payload), Processing, None, false)
  }

  /** This message's operation is finished with this result. */
  ghost predicate DoneWith(c: Config, db: Tables, payload: Bytes, op: AuthenticatedOperation, result: Bytes) {
    var e := op.envelope;
    && Sound(c, payload, op)
    && e.operationId in db.inbox
    && db.inbox[e.operationId] == InboxRow(e.subject, Fingerprint(c.rules, payload), Completed, Some(result), true)
  }

  ghost predicate Done(c: Config, db: Tables, payload: Bytes, op: AuthenticatedOperation) {
    var id := op.envelope.operationId;
    id in db.outbox && DoneWith(c, db, payload, op, db.outbox[id].payloadJson)
  }

  ghost predicate Settled(c: Config, s: State, payload: Bytes, op: AuthenticatedOperation) {
    && Done(c, s.db, payload, op)
    && s.db.outbox[op.envelope.operationId].delivered
    && WasPublished(s, op.envelope.operationId)
  }

  predicate Owns(wk: Worker, id: string) {
    (wk.Claimed? || wk.Executing? || wk.Replied?) && wk.op.envelope.operationId == id
  }

  ghost predicate WorkerOk(c: Config, s: State, wk: Worker) {
    match wk
    case Idle => true
    case Received(_) => true
    case Refusing(_, kind) => kind != Ack
    case Admitted(payload, op) => Sound(c, payload, op)
    case Claimed(payload, op) => Holds(c, s.db, payload, op) && op.envelope.operationId !in s.started
    case Executing(payload, op) => Holds(c, s.db, payload, op)
    case Replied(payload, op, reply) =>
      Holds(c, s.db, payload, op) && exists outcome :: reply == ReplyFor(c, op, outcome)
    case Holding(payload, op, result) => DoneWith(c, s.db, payload, op, result)
    case Publishing(payload, op, subject, message) =>
      DoneWith(c, s.db, payload, op, message) && subject == RESULT_SUBJECT
    case Published(payload, op) => Done(c, s.db, payload, op) && WasPublished(s, op.envelope.operationId)
    case Marked(payload, op) => Settled(c, s, payload, op)
  }

  ghost predicate OneOwnerEach(s: State) {
    forall i, j, id ::
        0 <= i < |s.workers| && 0 <= j < |s.workers| && Owns(s.workers[i], id) && Owns(s.workers[j], id) ==> i == j
  }

  ghost predicate StartedOnce(s: State) {
    && (forall i, j :: 0 <= i < j < |s.started| ==> s.started[i] != s.started[j])
    && (forall id :: id in s.started ==> id in s.db.inbox)
  }

  /** A stored publication carries the stored result, on the result subject. */
  ghost predicate PublicationOk(s: State, p: Publication) {
    && p.operationId in s.db.inbox
    && s.db.inbox[p.operationId].resultJson == Some(p.payload)
    && p.subject == RESULT_SUBJECT
  }

  ghost predicate DeliveredOk(s: State, id: string) {
    id in s.db.outbox && s.db.outbox[id].delivered ==> WasPublished(s, id)
  }

  ghost predicate AnswerOk(c: Config, s: State, a: Answer) {
    a.kind == Ack ==> c.parse(a.payload).Some? && Settled(c, s, a.payload, c.parse(a.payload).value)
  }

  ghost predicate Inv(c: Config, s: State) {
    && TablesOk(s.db)
    && (forall i :: 0 <= i < |s.workers| ==> WorkerOk(c, s, s.workers[i]))
    && OneOwnerEach(s)
    && StartedOnce(s)
    && (forall p :: p in s.results ==> PublicationOk(s, p))
    && (forall id :: DeliveredOk(s, id))
    && (forall a :: a in s.answers ==> AnswerOk(c, s, a))
  }

  // ---------------------------------------------------------------- one step keeps the invariant

  /** What every step does to the shared state: it moves at most one operation, and only forward. */
  ghost predicate Forward(s: State, t: State, id: string) {
    && OnlyChanges(s.db, t.db, id)
    && TablesOk(t.db)
    && s.results <= t.results
    && s.answers <= t.answers
    && (t.started == s.started || t.started == s.started + [id])
    && s.outcomes <= t.outcomes && s.now <= t.now
    && (id in s.db.inbox ==>
          && t.db.inbox[id].subject == s.db.inbox[id].subject
          && t.db.inbox[id].requestHash == s.db.inbox[id].requestHash
          && (s.db.inbox[id].status == Completed ==> t.db.inbox[id] == s.db.inbox[id]))
    && (id in s.db.outbox ==>
          && id in t.db.outbox
          && t.db.outbox[id].payloadJson == s.db.outbox[id].payloadJson
          && (s.db.outbox[id].delivered ==> t.db.outbox[id].delivered))
  }

  /** Nothing that `id`'s owner relies on has changed. */
  predicate Quiet(s: State, t: State, id: string) {
    && t.started == s.started
    && (id in s.db.inbox <==> id in t.db.inbox)
    && (id in s.db.inbox ==> s.db.inbox[id] == t.db.inbox[id])
  }

  lemma SettledStays(c: Config, s: State, t: State, id: string, payload: Bytes, op: AuthenticatedOperation)
    requires Forward(s, t, id)
    ensures WasPublished(s, op.envelope.operationId) ==> WasPublished(t, op.envelope.operationId)
    ensures forall r :: DoneWith(c, s.db, payload, op, r) ==> DoneWith(c, t.db, payload, op, r)
    ensures Done(c, s.db, payload, op) ==> Done(c, t.db, payload, op)
    ensures Settled(c, s, payload, op) ==> Settled(c, t, payload, op)
  {
    var other := op.envelope.operationId;
    if other != id {
      SameElsewhere(s.db, t.db, id, other);
    }
    if WasPublished(s, other) {
      var p :| p in s.results && p.operationId == other;
      assert p in t.results;
    }
  }

  lemma OtherWorkersStayOk(c: Config, s: State, t: State, id: string, wk: Worker)
    requires Forward(s, t, id) && WorkerOk(c, s, wk)
    requires Quiet(s, t, id) || !Owns(wk, id)
    ensures WorkerOk(c, t, wk)
  {
    if !wk.Idle? && !wk.Received? && !wk.Refusing? {
      SettledStays(c, s, t, id, wk.payload, wk.op);
      var other := wk.op.envelope.operationId;
      if other != id {
        SameElsewhere(s.db, t.db, id, other);
      }
    }
  }

  lemma LogsStayOk(c: Config, s: State, t: State, id: string)
    requires Inv(c, s) && Forward(s, t, id)
    ensures forall p :: p in s.results ==> PublicationOk(t, p)
    ensures forall a :: a in s.answers ==> AnswerOk(c, t, a)
    ensures forall other :: other in s.db.inbox ==> other in t.db.inbox
    ensures forall other :: other != id ==> DeliveredOk(t, other)
  {
    forall p | p in s.results
      ensures PublicationOk(t, p)
    {
      assert RowsOk(s.db, p.operationId);
      if p.operationId != id {
        SameElsewhere(s.db, t.db, id, p.operationId);
      }
    }
    forall a | a in s.answers
      ensures AnswerOk(c, t, a)
    {
      assert AnswerOk(c, s, a);
      if a.kind == Ack {
        SettledStays(c, s, t, id, a.payload, c.parse(a.payload).value);
      }
    }
    forall other | other != id
      ensures DeliveredOk(t, other)
    {
      assert DeliveredOk(s, other);
      SameElsewhere(s.db, t.db, id, other);
      if WasPublished(s, other) {
        var p :| p in s.results && p.operationId == other;
        assert p in t.results;
      }
    }
  }

  /** The frame for one worker's step: what is left to show is about that worker, its operation and its log entries. */
  lemma StepKeepsInv(c: Config, s: State, t: State, w: nat, id: string)
    requires Inv(c, s) && w < |s.workers| == |t.workers|
    requires Forward(s, t, id)
    requires t.workers == s.workers[w := t.workers[w]]
    requires WorkerOk(c, t, t.workers[w])
    requires forall other :: Owns(t.workers[w], other) ==> other == id
    requires Owns(t.workers[w], id) || !Quiet(s, t, id) ==> Owns(s.workers[w], id) || id !in s.db.inbox
    requires t.started != s.started ==> id in t.db.inbox && id !in s.started
    requires forall p :: p in t.results && p !in s.results ==> PublicationOk(t, p)
    requires DeliveredOk(t, id)
    requires forall a :: a in t.answers && a !in s.answers ==> AnswerOk(c, t, a)
    ensures Inv(c, t)
  {
    LogsStayOk(c, s, t, id);
    if Owns(t.workers[w], id) || !Quiet(s, t, id) {
      forall i | 0 <= i < |s.workers| && i != w
        ensures !Owns(s.workers[i], id)
      {
        assert WorkerOk(c, s, s.workers[i]);
      }
    }
    forall i | 0 <= i < |t.workers|
      ensures WorkerOk(c, t, t.workers[i])
    {
      if i != w {
        assert t.workers[i] == s.workers[i];
        OtherWorkersStayOk(c, s, t, id, s.workers[i]);
      }
    }
    assert OneOwnerEach(t);
    assert StartedOnce(t);
  }

  /** The operation a worker is about, for the steps that touch shared state. */
  function Subject(wk: Worker): string {
    if wk.Idle? || wk.Received? || wk.Refusing? then "" else wk.op.envelope.operationId
  }

  lemma ClaimIsForward(c: Config, s: State, w: nat, fault: Fault)
    requires Inv(c, s) && w < |s.workers| && s.workers[w].Admitted?
    ensures Forward(s, Take(c, s, w, Claim(fault)), Subject(s.workers[w]))
  {
    var wk := s.workers[w];
    var id := Subject(wk);
    assert RowsOk(s.db, id);
    ClaimKeepsTables(s.db, id, wk.op.envelope.subject, Fingerprint(c.rules, wk.payload));
  }

  lemma CompleteIsForward(c: Config, s: State, w: nat, fault: Fault)
    requires Inv(c, s) && w < |s.workers| && s.workers[w].Replied?
    ensures Forward(s, Take(c, s, w, Complete(fault)), Subject(s.workers[w]))
  {
    var id := Subject(s.workers[w]);
    assert RowsOk(s.db, id);
    CompleteKeepsTables(c.rules, s.db, id, s.workers[w].reply);
  }

  lemma MarkIsForward(c: Config, s: State, w: nat, fault: Fault)
    requires Inv(c, s) && w < |s.workers| && s.workers[w].Published?
    ensures Forward(s, Take(c, s, w, Mark(fault)), Subject(s.workers[w]))
  {
    var id := Subject(s.workers[w]);
    assert RowsOk(s.db, id);
    MarkKeepsTables(s.db, id);
  }

  lemma OtherMoveIsForward(c: Config, s: State, w: nat, move: Move)
    requires Inv(c, s) && w < |s.workers| && !move.Claim? && !move.Complete? && !move.Mark?
    ensures Forward(s, Take(c, s, w, move), Subject(s.workers[w]))
    ensures Take(c, s, w, move).db == s.db
  {
  }

  lemma TakeIsForward(c: Config, s: State, w: nat, move: Move)
    requires Inv(c, s) && w < |s.workers|
    ensures Forward(s, Take(c, s, w, move), Subject(s.workers[w]))
  {
    var wk := s.workers[w];
    if move.Claim? && wk.Admitted? {
      ClaimIsForward(c, s, w, move.fault);
    } else if move.Complete? && wk.Replied? {
      CompleteIsForward(c, s, w, move.fault);
    } else if move.Mark? && wk.Published? {
      MarkIsForward(c, s, w, move.fault);
    } else if move.Claim? || move.Complete? || move.Mark? {
      assert Take(c, s, w, move) == s;
    } else {
      OtherMoveIsForward(c, s, w, move);
    }
  }

  lemma ValidateKeepsInv(c: Config, s: State, w: nat)
    requires Inv(c, s) && w < |s.workers|
    ensures Inv(c, Take(c, s, w, Validate))
  {
    var wk := s.workers[w];
    TakeIsForward(c, s, w, Validate);
    if wk.Received? && Admit(c, wk.payload, s.now).Some? {
      var op := Admit(c, wk.payload, s.now).value;
      AdmissionIsOneWindow(op.envelope, JetStreamAsync, c.crypto.encode(op.envelope), s.now, s.now);
    }
    assert DeliveredOk(s, "");
    StepKeepsInv(c, s, Take(c, s, w, Validate), w, Subject(wk));
  }

  lemma ClaimKeepsInv(c: Config, s: State, w: nat, fault: Fault)
    requires Inv(c, s) && w < |s.workers| && s.workers[w].Admitted?
    ensures Inv(c, Take(c, s, w, Claim(fault)))
  {
    var wk := s.workers[w];
    var id := Subject(wk);
    var t := Take(c, s, w, Claim(fault));
    TakeIsForward(c, s, w, Claim(fault));
    ClaimKeepsTables(s.db, id, wk.op.envelope.subject, Fingerprint(c.rules, wk.payload));
    FingerprintIsHashText(c.rules, wk.payload);
    assert RowsOk(s.db, id) && WorkerOk(c, s, wk) && DeliveredOk(s, id);
    StepKeepsInv(c, s, t, w, id);
  }

  lemma CompleteKeepsInv(c: Config, s: State, w: nat, fault: Fault)
    requires Inv(c, s) && w < |s.workers| && s.workers[w].Replied?
    ensures Inv(c, Take(c, s, w, Complete(fault)))
  {
    var wk := s.workers[w];
    var id := Subject(wk);
    var t := Take(c, s, w, Complete(fault));
    TakeIsForward(c, s, w, Complete(fault));
    assert RowsOk(s.db, id) && WorkerOk(c, s, wk) && DeliveredOk(s, id);
    StepKeepsInv(c, s, t, w, id);
  }

  lemma PublishKeepsInv(c: Config, s: State, w: nat, outcome: PublishOutcome)
    requires Inv(c, s) && w < |s.workers| && s.workers[w].Publishing?
    ensures Inv(c, Take(c, s, w, Publish(outcome)))
  {
    var wk := s.workers[w];
    var id := Subject(wk);
    var t := Take(c, s, w, Publish(outcome));
    TakeIsForward(c, s, w, Publish(outcome));
    assert RowsOk(s.db, id) && WorkerOk(c, s, wk) && DeliveredOk(s, id);
    if |t.results| > |s.results| {
      assert t.results[|s.results|] in t.results && t.results[|s.results|].operationId == id;
    }
    StepKeepsInv(c, s, t, w, id);
  }

  lemma MarkKeepsInv(c: Config, s: State, w: nat, fault: Fault)
    requires Inv(c, s) && w < |s.workers| && s.workers[w].Published?
    ensures Inv(c, Take(c, s, w, Mark(fault)))
  {
    var wk := s.workers[w];
    var id := Subject(wk);
    var t := Take(c, s, w, Mark(fault));
    TakeIsForward(c, s, w, Mark(fault));
    MarkKeepsTables(s.db, id);
    assert RowsOk(s.db, id) && WorkerOk(c, s, wk) && DeliveredOk(s, id);
    StepKeepsInv(c, s, t, w, id);
  }

  lemma QuietMoveKeepsInv(c: Config, s: State, w: nat, move: Move)
    requires Inv(c, s) && w < |s.workers|
    requires move.Deliver? || move.SendAnswer? || move.Crash?
    ensures Inv(c, Take(c, s, w, move))
  {
    var wk := s.workers[w];
    var id := Subject(wk);
    TakeIsForward(c, s, w, move);
    assert RowsOk(s.db, id) && WorkerOk(c, s, wk) && DeliveredOk(s, id);
    StepKeepsInv(c, s, Take(c, s, w, move), w, id);
  }

  lemma ReadOutboxKeepsInv(c: Config, s: State, w: nat, fault: Fault)
    requires Inv(c, s) && w < |s.workers| && s.workers[w].Holding?
    ensures Inv(c, Take(c, s, w, ReadOutbox(fault)))
  {
    var wk := s.workers[w];
    TakeIsForward(c, s, w, ReadOutbox(fault));
    assert RowsOk(s.db, Subject(wk)) && WorkerOk(c, s, wk) && DeliveredOk(s, Subject(wk));
    StepKeepsInv(c, s, Take(c, s, w, ReadOutbox(fault)), w, Subject(wk));
  }

  /** The worker after a begin is what its own claim justifies: executing, or replied with the refusal. */
  lemma BegunIsOk(c: Config, s: State, w: nat)
    requires w < |s.workers| && s.workers[w].Claimed? && WorkerOk(c, s, s.workers[w])
    ensures var t := Take(c, s, w, Begin);
            && WorkerOk(c, t, t.workers[w])
            && t.db == s.db && t.results == s.results && t.answers == s.answers
  {
    var wk := s.workers[w];
    assert ReplyFor(c, wk.op, Failed("invalid_request")) == ReplyFor(c, wk.op, Failed("invalid_request"));
  }

  lemma BeginKeepsInv(c: Config, s: State, w: nat)
    requires Inv(c, s) && w < |s.workers| && s.workers[w].Claimed?
    ensures Inv(c, Take(c, s, w, Begin))
  {
    var wk := s.workers[w];
    assert WorkerOk(c, s, wk) && DeliveredOk(s, Subject(wk));
    BegunIsOk(c, s, w);
    TakeIsForward(c, s, w, Begin);
    StepKeepsInv(c, s, Take(c, s, w, Begin), w, Subject(wk));
  }

  lemma FinishKeepsInv(c: Config, s: State, w: nat, outcome: ServiceOutcome)
    requires Inv(c, s) && w < |s.workers| && s.workers[w].Executing?
    ensures Inv(c, Take(c, s, w, Finish(outcome)))
  {
    var wk := s.workers[w];
    var t := Take(c, s, w, Finish(outcome));
    TakeIsForward(c, s, w, Finish(outcome));
    assert WorkerOk(c, s, wk) && DeliveredOk(s, Subject(wk));
    assert WorkerOk(c, t, t.workers[w]);
    StepKeepsInv(c, s, t, w, Subject(wk));
  }

  lemma ApplyKeepsInv(c: Config, s: State, a: Action)
    requires Inv(c, s)
    ensures Inv(c, Apply(c, s, a))
  {
    match a
    case Tick(ms) =>
      var t := Apply(c, s, a);
      assert t == s.(now := t.now);
      assert forall i :: 0 <= i < |t.workers| ==> WorkerOk(c, s, t.workers[i]) ==> WorkerOk(c, t, t.workers[i]);
      assert forall a :: a in t.answers ==> AnswerOk(c, s, a) ==> AnswerOk(c, t, a);
      assert forall p :: p in t.results ==> PublicationOk(s, p) ==> PublicationOk(t, p);
      assert forall id :: DeliveredOk(s, id) ==> DeliveredOk(t, id);
      assert forall id :: WasPublished(s, id) ==> WasPublished(t, id);
    case Step(w, move) =>
      if w < |s.workers| && Take(c, s, w, move) != s {
        match move {
          case Validate => ValidateKeepsInv(c, s, w);
          case Claim(fault) => ClaimKeepsInv(c, s, w, fault);
          case Begin => BeginKeepsInv(c, s, w);
          case Finish(outcome) => FinishKeepsInv(c, s, w, outcome);
          case Complete(fault) => CompleteKeepsInv(c, s, w, fault);
          case ReadOutbox(fault) => ReadOutboxKeepsInv(c, s, w, fault);
          case Publish(outcome) => PublishKeepsInv(c, s, w, outcome);
          case Mark(fault) => MarkKeepsInv(c, s, w, fault);
          case _ => QuietMoveKeepsInv(c, s, w, move);
        }
      }
  }

  lemma {:induction false} RunKeepsInv(c: Config, s: State, actions: seq<Action>)
    requires Inv(c, s)
    ensures Inv(c, Run(c, s, actions))
    decreases |actions|
  {
    if actions != [] {
      ApplyKeepsInv(c, s, actions[0]);
      RunKeepsInv(c, Apply(c, s, actions[0]), actions[1..]);
    }
  }

  lemma InitInv(c: Config, workers: nat, now: nat)
    ensures Inv(c, Init(workers, now))
  {
    var s := Init(workers, now);
    assert forall id :: RowsOk(s.db, id);
  }
}
