/** What the durable operation protocol promises over every run: safety, refinement, recovery and its limits. */
module Guarantees {
  import opened Prelude
  import opened DataPlane
  import opened Attestation
  import opened Journal
  import opened Protocol
  import Hex

  // ---------------------------------------------------------------- safety over every run

  /**
   Whatever is delivered, duplicated, aborted or killed: an operation is started at most once, everything published for
   it is one and the same stored result, a delivery mark follows a publication, and an acknowledged message is settled.
   */
  lemma EveryRunIsSafe(c: Config, workers: nat, now: nat, actions: seq<Action>)
    ensures var s := Run(c, Init(workers, now), actions);
            && TablesOk(s.db)
            && (forall i, j :: 0 <= i < j < |s.started| ==> s.started[i] != s.started[j])
            && (forall p, q :: p in s.results && q in s.results && p.operationId == q.operationId ==> p == q)
            && (forall p :: p in s.results ==>
                  && p.operationId in s.db.outbox && s.db.outbox[p.operationId].payloadJson == p.payload
                  && p.subject == "act.results.api.v1")
            && (forall id :: id in s.db.outbox && s.db.outbox[id].delivered ==> WasPublished(s, id))
            && (forall a :: a in s.answers && a.kind == Ack ==>
                  c.parse(a.payload).Some? && Settled(c, s, a.payload, c.parse(a.payload).value))
  {
    InitInv(c, workers, now);
    RunKeepsInv(c, Init(workers, now), actions);
    var s := Run(c, Init(workers, now), actions);
    forall p | p in s.results
      ensures p.operationId in s.db.outbox && s.db.outbox[p.operationId].payloadJson == p.payload
      ensures p.subject == "act.results.api.v1"
    {
      assert PublicationOk(s, p) && RowsOk(s.db, p.operationId);
    }
    forall p, q | p in s.results && q in s.results && p.operationId == q.operationId
      ensures p == q
    {
      assert PublicationOk(s, p) && PublicationOk(s, q);
    }
    forall a | a in s.answers && a.kind == Ack
      ensures c.parse(a.payload).Some? && Settled(c, s, a.payload, c.parse(a.payload).value)
    {
      assert AnswerOk(c, s, a);
    }
    forall id
      ensures id in s.db.outbox && s.db.outbox[id].delivered ==> WasPublished(s, id)
    {
      assert DeliveredOk(s, id);
    }
  }

  // ---------------------------------------------------------------- what is admitted and what is started

  /** What gets past admission: bounded strict JSON, valid for this transport now, signed under the key. */
  lemma AdmittedExactly(c: Config, payload: Bytes, now: nat, op: AuthenticatedOperation)
    ensures Admit(c, payload, now) == Some(op) <==>
              && |payload| <= 65536 && c.parse(payload) == Some(op)
              && ValidateFor(op.envelope, JetStreamAsync, c.crypto.encode(op.envelope), now).Success?
              && Verify(c.crypto, c.key, op.envelope, op.authorization).Success?
  {
    VerifyAcceptsExactly(c.crypto, c.key, op.envelope, op.authorization);
  }

  /**
   From every reachable state an execution starts only when the worker that owns the claim begins it, and only while the
   operation is still valid: at the latest right before its deadline.
   */
  lemma StartsAreOwnedAndTimely(c: Config, s: State, a: Action)
    requires Inv(c, s) && Apply(c, s, a).started != s.started
    ensures a.Step? && a.move == Begin && a.w < |s.workers| && s.workers[a.w].Claimed?
    ensures var wk := s.workers[a.w];
            var e := wk.op.envelope;
            && Apply(c, s, a).started == s.started + [e.operationId]
            && ValidateFor(e, JetStreamAsync, c.crypto.encode(e), s.now).Success? && s.now < e.deadlineUnixMs
            && e.operationId in s.db.inbox && s.db.inbox[e.operationId].status == Processing
            && s.db.inbox[e.operationId].requestHash == Fingerprint(c.rules, wk.payload)
  {
    assert WorkerOk(c, s, s.workers[a.w]);
  }

  // ---------------------------------------------------------------- where results come from

  /** What a reply says, part by part: the operation's id, and either the service's result or one error code. */
  predicate Carries(c: Config, id: string, outcome: ServiceOutcome, reply: Bytes) {
    match outcome
    case Returned(result) => reply == c.encodeReply(OperationReply(Some(id), Some(result), None))
    case Failed(code) => reply == c.encodeReply(OperationReply(Some(id), None, Some(code)))
    case TimedOut => reply == c.encodeReply(OperationReply(Some(id), None, Some("operation_timeout")))
  }

  /** The row was claimed by this message, and its result is the reply to the message's operation for this outcome. */
  ghost predicate Explains(c: Config, row: InboxRow, id: string, payload: Bytes, outcome: ServiceOutcome) {
    && c.parse(payload).Some?
    && var op := c.parse(payload).value;
       && op.envelope.operationId == id && op.envelope.subject == row.subject
       && Fingerprint(c.rules, payload) == row.requestHash
       && Verify(c.crypto, c.key, op.envelope, op.authorization).Success?
       && row.resultJson.Some? && Carries(c, id, outcome, row.resultJson.value)
  }

  ghost predicate Explained(c: Config, s: State, id: string) {
    id in s.db.inbox && s.db.inbox[id].status == Completed ==>
      exists payload, outcome :: Explains(c, s.db.inbox[id], id, payload, outcome)
  }

  lemma CompletionIsExplained(c: Config, s: State, w: nat, fault: Fault)
    requires Inv(c, s) && w < |s.workers| && s.workers[w].Replied? && Explained(c, s, Subject(s.workers[w]))
    ensures Explained(c, Take(c, s, w, Complete(fault)), Subject(s.workers[w]))
  {
    var wk, id, t := s.workers[w], Subject(s.workers[w]), Take(c, s, w, Complete(fault));
    assert WorkerOk(c, s, wk);
    if t.db != s.db {
      var outcome :| wk.reply == ReplyFor(c, wk.op, outcome);
      assert Explains(c, t.db.inbox[id], id, wk.payload, outcome);
    }
  }

  lemma RowsStayExplained(c: Config, s: State, a: Action, id: string)
    requires Inv(c, s) && Explained(c, s, id)
    ensures Explained(c, Apply(c, s, a), id)
  {
    if a.Step? && a.w < |s.workers| {
      var own := Subject(s.workers[a.w]);
      TakeIsForward(c, s, a.w, a.move);
      if own != id {
        SameElsewhere(s.db, Take(c, s, a.w, a.move).db, own, id);
      } else if a.move.Complete? && s.workers[a.w].Replied? {
        CompletionIsExplained(c, s, a.w, a.move.fault);
      } else {
        OnlyCompletionCompletes(c, s, a.w, a.move, id);
      }
    }
  }

  lemma OnlyCompletionCompletes(c: Config, s: State, w: nat, move: Move, id: string)
    requires w < |s.workers| && !(move.Complete? && s.workers[w].Replied?)
    ensures var t := Take(c, s, w, move);
            id in t.db.inbox && t.db.inbox[id].status == Completed ==>
              id in s.db.inbox && t.db.inbox[id] == s.db.inbox[id]
  {
  }

  lemma {:induction false} RowsAreExplained(c: Config, s: State, actions: seq<Action>, id: string)
    requires Inv(c, s) && Explained(c, s, id)
    ensures Explained(c, Run(c, s, actions), id)
    decreases |actions|
  {
    if actions != [] {
      RowsStayExplained(c, s, actions[0], id);
      ApplyKeepsInv(c, s, actions[0]);
      RowsAreExplained(c, Apply(c, s, actions[0]), actions[1..], id);
    }
  }

  /**
   Over every run: whatever is published for an operation is the reply to a signed message that claimed it, for some
   outcome of the service, under that message's own subject and hash. So is every completed row's result.
   */
  lemma EveryResultIsAReply(c: Config, workers: nat, now: nat, actions: seq<Action>, id: string)
    ensures var s := Run(c, Init(workers, now), actions);
            && Explained(c, s, id)
            && forall p :: p in s.results && p.operationId == id ==>
                             && id in s.db.inbox && s.db.inbox[id].resultJson == Some(p.payload)
                             && exists payload, outcome :: Explains(c, s.db.inbox[id], id, payload, outcome)
  {
    InitInv(c, workers, now);
    RunKeepsInv(c, Init(workers, now), actions);
    RowsAreExplained(c, Init(workers, now), actions, id);
    var s := Run(c, Init(workers, now), actions);
    assert RowsOk(s.db, id);
    forall p | p in s.results && p.operationId == id
      ensures id in s.db.inbox && s.db.inbox[id].resultJson == Some(p.payload) && s.db.inbox[id].status == Completed
    {
      assert PublicationOk(s, p);
    }
  }

  // ---------------------------------------------------------------- refinement to one register per operation

  datatype Register =
    | Absent
    | Reserved(subject: string, hash: string)
    | Finished(subject: string, hash: string, result: Bytes)
    | Announced(subject: string, hash: string, result: Bytes)
    | Delivered(subject: string, hash: string, result: Bytes)

  /** The only transitions the abstract register has. */
  predicate RegisterNext(r: Register, t: Register) {
    match r
    case Absent => t.Reserved?
    case Reserved(subject, hash) => t.Finished? && t.subject == subject && t.hash == hash
    case Finished(subject, hash, result) => t == Announced(subject, hash, result)
    case Announced(subject, hash, result) => t == Delivered(subject, hash, result)
    case Delivered(_, _, _) => false
  }

  function Abs(s: State, id: string): Register {
    if id !in s.db.inbox then Absent
    else
      var row := s.db.inbox[id];
      if row.resultJson.None? then Reserved(row.subject, row.requestHash)
      else if id in s.db.outbox && s.db.outbox[id].delivered then
        Delivered(row.subject, row.requestHash, row.resultJson.value)
      else if WasPublished(s, id) then Announced(row.subject, row.requestHash, row.resultJson.value)
      else Finished(row.subject, row.requestHash, row.resultJson.value)
  }

  lemma OtherRegistersKeep(c: Config, s: State, w: nat, move: Move, other: string)
    requires Inv(c, s) && w < |s.workers| && other != Subject(s.workers[w])
    ensures Abs(Take(c, s, w, move), other) == Abs(s, other)
  {
    var t, id := Take(c, s, w, move), Subject(s.workers[w]);
    TakeIsForward(c, s, w, move);
    SameElsewhere(s.db, t.db, id, other);
    assert forall p :: p in t.results && p.operationId == other <==> p in s.results && p.operationId == other;
    assert WasPublished(t, other) <==> WasPublished(s, other);
  }

  lemma OwnRegisterSteps(c: Config, s: State, w: nat, move: Move)
    requires Inv(c, s) && w < |s.workers| && (move.Claim? || move.Complete? || move.Mark?)
    ensures var r, u := Abs(s, Subject(s.workers[w])), Abs(Take(c, s, w, move), Subject(s.workers[w]));
            u == r || RegisterNext(r, u)
  {
    var wk, t, id := s.workers[w], Take(c, s, w, move), Subject(s.workers[w]);
    TakeIsForward(c, s, w, move);
    assert WorkerOk(c, s, wk) && RowsOk(s.db, id) && RowsOk(t.db, id) && DeliveredOk(s, id);
    assert t.results == s.results;
    assert WasPublished(t, id) <==> WasPublished(s, id);
  }

  lemma OtherMovesKeepRegister(c: Config, s: State, w: nat, move: Move)
    requires Inv(c, s) && w < |s.workers| && !move.Claim? && !move.Complete? && !move.Mark? && !move.Publish?
    ensures Abs(Take(c, s, w, move), Subject(s.workers[w])) == Abs(s, Subject(s.workers[w]))
  {
    OtherMoveIsForward(c, s, w, move);
    assert Take(c, s, w, move).results == s.results;
    assert WasPublished(Take(c, s, w, move), Subject(s.workers[w])) <==> WasPublished(s, Subject(s.workers[w]));
  }

  lemma PublishingRegisterSteps(c: Config, s: State, w: nat, outcome: PublishOutcome)
    requires Inv(c, s) && w < |s.workers|
    ensures var r, u := Abs(s, Subject(s.workers[w])), Abs(Take(c, s, w, Publish(outcome)), Subject(s.workers[w]));
            u == r || RegisterNext(r, u)
  {
    var wk, t, id := s.workers[w], Take(c, s, w, Publish(outcome)), Subject(s.workers[w]);
    TakeIsForward(c, s, w, Publish(outcome));
    assert WorkerOk(c, s, wk) && RowsOk(s.db, id) && DeliveredOk(s, id);
    assert t.db == s.db;
    assert forall p :: p in s.results ==> p in t.results;
  }

  /** Every concrete step moves at most one operation's register, by one abstract transition or not at all. */
  lemma StepRefines(c: Config, s: State, a: Action)
    requires Inv(c, s)
    ensures forall id :: Abs(Apply(c, s, a), id) == Abs(s, id) || RegisterNext(Abs(s, id), Abs(Apply(c, s, a), id))
    ensures forall i, j :: Abs(Apply(c, s, a), i) != Abs(s, i) && Abs(Apply(c, s, a), j) != Abs(s, j) ==> i == j
  {
    var t := Apply(c, s, a);
    if a.Tick? {
      forall id
        ensures Abs(t, id) == Abs(s, id)
      {
        assert WasPublished(t, id) <==> WasPublished(s, id);
      }
    } else if a.w < |s.workers| {
      var own := Subject(s.workers[a.w]);
      if a.move.Publish? {
        PublishingRegisterSteps(c, s, a.w, a.move.publish);
      } else if a.move.Claim? || a.move.Complete? || a.move.Mark? {
        OwnRegisterSteps(c, s, a.w, a.move);
      } else {
        OtherMovesKeepRegister(c, s, a.w, a.move);
      }
      forall id | id != own
        ensures Abs(t, id) == Abs(s, id)
      {
        OtherRegistersKeep(c, s, a.w, a.move, id);
      }
    }
  }

  function Rank(r: Register): nat {
    match r
    case Absent => 0
    case Reserved(_, _) => 1
    case Finished(_, _, _) => 2
    case Announced(_, _, _) => 3
    case Delivered(_, _, _) => 4
  }

  /** `t` is `r` or a later value of the same register: the first claimant and the first result never change. */
  predicate Reaches(r: Register, t: Register) {
    && Rank(r) <= Rank(t)
    && (!r.Absent? ==> t.subject == r.subject && t.hash == r.hash)
    && (Rank(r) >= 2 ==> t.result == r.result)
    && (Rank(r) == Rank(t) ==> r == t)
  }

  lemma {:induction false} RegistersOnlyAdvance(c: Config, s: State, actions: seq<Action>, id: string)
    requires Inv(c, s)
    ensures Reaches(Abs(s, id), Abs(Run(c, s, actions), id))
    decreases |actions|
  {
    if actions != [] {
      var t := Apply(c, s, actions[0]);
      StepRefines(c, s, actions[0]);
      ApplyKeepsInv(c, s, actions[0]);
      RegistersOnlyAdvance(c, t, actions[1..], id);
    }
  }

  /** What `status` tells a subject, as a function of the register alone. */
  function View(r: Register, subject: string): Option<(RowStatus, Option<Bytes>)> {
    if r.Absent? || r.subject != subject then None
    else if r.Reserved? then Some((Processing, None))
    else Some((Completed, Some(r.result)))
  }

  predicate ViewReaches(before: Option<(RowStatus, Option<Bytes>)>, after: Option<(RowStatus, Option<Bytes>)>) {
    && (before.Some? ==> after.Some?)
    && (before.Some? && before.value.0 == Completed ==> after == before)
    && (after.Some? ==> (after.value.0 == Completed <==> after.value.1.Some?))
  }

  /**
   The owner's successive status reads go missing, processing, completed with one fixed result, and never back; once an
   operation is claimed, everybody else reads what they would read for an operation that does not exist, for ever.
   */
  lemma StatusIsMonotone(c: Config, s: State, actions: seq<Action>, id: string, subject: string)
    requires Inv(c, s)
    ensures var t := Run(c, s, actions);
            && ReadStatus(s.db, id, subject) == View(Abs(s, id), subject)
            && ReadStatus(t.db, id, subject) == View(Abs(t, id), subject)
            && ViewReaches(ReadStatus(s.db, id, subject), ReadStatus(t.db, id, subject))
            && (id in s.db.inbox && s.db.inbox[id].subject != subject ==> ReadStatus(t.db, id, subject) == None)
  {
    var t := Run(c, s, actions);
    RunKeepsInv(c, s, actions);
    RegistersOnlyAdvance(c, s, actions, id);
    assert RowsOk(s.db, id) && RowsOk(t.db, id);
  }

  // ---------------------------------------------------------------- recovery

  function Pass(w: nat, payload: Bytes): seq<Action> {
    [Step(w, Deliver(payload)), Step(w, Validate), Step(w, Claim(NoFault)), Step(w, ReadOutbox(NoFault)),
     Step(w, Publish(Deduplicated)), Step(w, Mark(NoFault)), Step(w, SendAnswer(true))]
  }

  lemma RunCons(c: Config, s: State, a: Action, rest: seq<Action>)
    ensures Run(c, s, [a] + rest) == Run(c, Apply(c, s, a), rest)
  {
    assert ([a] + rest)[1..] == rest;
  }

  lemma {:induction false} RunAppend(c: Config, s: State, first: seq<Action>, rest: seq<Action>)
    ensures Run(c, s, first + rest) == Run(c, Run(c, s, first), rest)
    decreases |first|
  {
    if first == [] {
      assert first + rest == rest;
    } else {
      assert (first + rest)[1..] == first[1..] + rest;
      RunAppend(c, Apply(c, s, first[0]), first[1..], rest);
    }
  }

  /**
   From any reachable state whose row is completed, wherever the previous worker died, one undisturbed pass over the
   same message ends published, marked delivered and acknowledged, with the stored result unchanged.
   */
  lemma OnePassRecovers(c: Config, s: State, w: nat, payload: Bytes)
    requires Inv(c, s) && w < |s.workers| && s.workers[w].Idle?
    requires Admit(c, payload, s.now).Some?
    requires var e := Admit(c, payload, s.now).value.envelope;
             && e.operationId in s.db.inbox
             && s.db.inbox[e.operationId].subject == e.subject
             && s.db.inbox[e.operationId].requestHash == Fingerprint(c.rules, payload)
             && s.db.inbox[e.operationId].status == Completed
    ensures var t, op := Run(c, s, Pass(w, payload)), Admit(c, payload, s.now).value;
            && Settled(c, t, payload, op)
            && Answer(payload, Ack) in t.answers
            && t.db.inbox == s.db.inbox
            && Abs(t, op.envelope.operationId).Delivered?
  {
    var op := Admit(c, payload, s.now).value;
    var id := op.envelope.operationId;
    var p := Pass(w, payload);
    var s3 := Run(c, s, p[..3]);
    assert RowsOk(s.db, id);
    ReplayIsClaimed(c, s, w, payload);
    RunKeepsInv(c, s, p[..3]);
    HeldResultIsSettled(c, s3, w);
    assert p == p[..3] + p[3..];
    RunAppend(c, s, p[..3], p[3..]);
    RunKeepsInv(c, s3, p[3..]);
    var t := Run(c, s, p);
    assert AnswerOk(c, t, Answer(payload, Ack));
  }

  lemma ReplayIsClaimed(c: Config, s: State, w: nat, payload: Bytes)
    requires Inv(c, s) && w < |s.workers| && s.workers[w].Idle?
    requires Admit(c, payload, s.now).Some?
    requires var e := Admit(c, payload, s.now).value.envelope;
             && e.operationId in s.db.inbox
             && s.db.inbox[e.operationId].subject == e.subject
             && s.db.inbox[e.operationId].requestHash == Fingerprint(c.rules, payload)
             && s.db.inbox[e.operationId].resultJson.Some?
    ensures var op := Admit(c, payload, s.now).value;
            Run(c, s, Pass(w, payload)[..3]) ==
                To(s, w, Holding(payload, op, s.db.inbox[op.envelope.operationId].resultJson.value))
  {
    var op := Admit(c, payload, s.now).value;
    AdmissionIsOneWindow(op.envelope, JetStreamAsync, c.crypto.encode(op.envelope), s.now, s.now);
    FingerprintIsHashText(c.rules, payload);
    var p := Pass(w, payload)[..3];
    UnrollThree(c, s, p);
    assert Apply(c, s, p[0]) == To(s, w, Received(payload));
    assert Apply(c, To(s, w, Received(payload)), p[1]) == To(s, w, Admitted(payload, op));
  }

  /** Once a worker holds the stored result, four undisturbed steps publish it, mark it and acknowledge the message. */
  lemma HeldResultIsSettled(c: Config, s: State, w: nat)
    requires Inv(c, s) && w < |s.workers| && s.workers[w].Holding?
    ensures var t := Run(c, s, Pass(w, s.workers[w].payload)[3..]);
            Answer(s.workers[w].payload, Ack) in t.answers && t.db.inbox == s.db.inbox
  {
    var wk := s.workers[w];
    var p := Pass(w, wk.payload)[3..];
    var s1 := Apply(c, s, p[0]);
    var s2 := Apply(c, s1, p[1]);
    var s3 := Apply(c, s2, p[2]);
    var s4 := Apply(c, s3, p[3]);
    UnrollThree(c, s, p);
    assert p[3..] == [p[3]] && Run(c, s3, [p[3]]) == s4;
    assert s1.workers[w].Publishing? && s1.workers[w].payload == wk.payload;
    assert s2.workers[w].Published? && s2.workers[w].payload == wk.payload;
    assert s3.workers[w].Marked? && s3.workers[w].payload == wk.payload;
    assert s4.answers[|s4.answers| - 1] == Answer(wk.payload, Ack);
  }

  lemma UnrollThree(c: Config, s: State, p: seq<Action>)
    requires |p| >= 3
    ensures Run(c, s, p) == Run(c, Apply(c, Apply(c, Apply(c, s, p[0]), p[1]), p[2]), p[3..])
  {
    var p1, p2 := p[1..], p[2..];
    assert p1[1..] == p2 && p2[1..] == p[3..] && p1[0] == p[1] && p2[0] == p[2];
    var s1 := Apply(c, s, p[0]);
    var s2 := Apply(c, s1, p[1]);
    assert Run(c, s, p) == Run(c, s1, p1) && Run(c, s1, p1) == Run(c, s2, p2);
  }

  // ---------------------------------------------------------------- the limits of recovery

  ghost predicate HasOwner(s: State, id: string) {
    exists i :: 0 <= i < |s.workers| && Owns(s.workers[i], id)
  }

  ghost predicate Orphaned(s: State, id: string) {
    id in s.db.inbox && s.db.inbox[id].status == Processing && !HasOwner(s, id)
  }

  /** A worker comes to own an operation only by claiming an absent one. */
  lemma OwnersArise(c: Config, s: State, w: nat, move: Move, id: string)
    requires w < |s.workers| && id in s.db.inbox && !Owns(s.workers[w], id)
    ensures !Owns(Take(c, s, w, move).workers[w], id)
  {
  }

  /** Only an owner changes an existing inbox row. */
  lemma OnlyOwnersWrite(c: Config, s: State, w: nat, move: Move, id: string)
    requires w < |s.workers| && id in s.db.inbox && !Owns(s.workers[w], id)
    ensures id in Take(c, s, w, move).db.inbox && Take(c, s, w, move).db.inbox[id] == s.db.inbox[id]
  {
  }

  lemma TakeFrame(c: Config, s: State, w: nat, move: Move)
    requires w < |s.workers|
    ensures var t := Take(c, s, w, move); t.now == s.now && t.workers == s.workers[w := t.workers[w]]
  {
  }

  lemma OrphanStaysOneStep(c: Config, s: State, a: Action, id: string)
    requires Orphaned(s, id)
    ensures Orphaned(Apply(c, s, a), id)
  {
    var t := Apply(c, s, a);
    if a.Step? && a.w < |s.workers| {
      OwnersArise(c, s, a.w, a.move, id);
      OnlyOwnersWrite(c, s, a.w, a.move, id);
      TakeFrame(c, s, a.w, a.move);
    }
  }

  /**
   A claim whose worker is gone stays `processing` in every continuation: no step of the protocol ever takes it over.
   */
  lemma {:induction false} OrphansStayForEver(c: Config, s: State, actions: seq<Action>, id: string)
    requires Orphaned(s, id)
    ensures Orphaned(Run(c, s, actions), id)
    decreases |actions|
  {
    if actions != [] {
      OrphanStaysOneStep(c, s, actions[0], id);
      OrphansStayForEver(c, Apply(c, s, actions[0]), actions[1..], id);
    }
  }

  predicate ReplyFits(c: Config, reply: Bytes) {
    c.rules.isUtf8(reply) && |reply| <= MAX_TRANSPORT_BYTES
  }

  /**
   The two replies that hold nothing but a bounded operation id and a fixed code are UTF-8 text that fits its column.
   */
  ghost predicate ShortRepliesFit(c: Config) {
    forall op: AuthenticatedOperation :: KeyChecks(op.envelope.operationId, op.envelope.subject) ==>
                   ReplyFits(c, ReplyFor(c, op, TimedOut)) && ReplyFits(c, ReplyFor(c, op, Failed("invalid_request")))
  }

  ghost predicate CompletesAfter(c: Config, s: State, id: string, actions: seq<Action>) {
    var t := Run(c, s, actions);
    id in t.db.inbox && t.db.inbox[id].status == Completed
  }

  /** This worker owns the operation and does not hold a reply that the database will refuse. */
  predicate CanStillComplete(c: Config, wk: Worker, id: string) {
    Owns(wk, id) && (wk.Replied? ==> ReplyFits(c, wk.reply))
  }

  ghost predicate Stuck(c: Config, s: State, id: string) {
    && id in s.db.inbox && s.db.inbox[id].status == Processing
    && (c.rules.strictNotNull || forall i :: 0 <= i < |s.workers| ==> !CanStillComplete(c, s.workers[i], id))
  }

  lemma UnfitReplyIsRefused(c: Config, s: State, w: nat, fault: Fault, id: string)
    requires w < |s.workers| && id in s.db.inbox && s.db.inbox[id].status == Processing
    requires c.rules.strictNotNull || !CanStillComplete(c, s.workers[w], id)
    ensures var t := Take(c, s, w, Complete(fault));
            id in t.db.inbox && t.db.inbox[id].status == Processing && (Owns(t.workers[w], id) ==> t == s)
  {
  }

  /** A worker that cannot complete an operation already claimed can neither complete it now nor come to be able to. */
  lemma UnableStaysUnable(c: Config, s: State, w: nat, move: Move, id: string)
    requires w < |s.workers| && id in s.db.inbox && s.db.inbox[id].status == Processing
    requires c.rules.strictNotNull || !CanStillComplete(c, s.workers[w], id)
    ensures var t := Take(c, s, w, move);
            && id in t.db.inbox && t.db.inbox[id].status == Processing
            && (c.rules.strictNotNull || !CanStillComplete(c, t.workers[w], id))
  {
    if move.Complete? {
      UnfitReplyIsRefused(c, s, w, move.fault, id);
    }
  }

  lemma StuckStaysOneStep(c: Config, s: State, a: Action, id: string)
    requires Stuck(c, s, id)
    ensures Stuck(c, Apply(c, s, a), id)
  {
    if a.Step? && a.w < |s.workers| {
      UnableStaysUnable(c, s, a.w, a.move, id);
      TakeFrame(c, s, a.w, a.move);
    } else {
      assert Apply(c, s, a).workers == s.workers;
    }
  }

  lemma {:induction false} StuckForEver(c: Config, s: State, actions: seq<Action>, id: string)
    requires Stuck(c, s, id)
    ensures Stuck(c, Run(c, s, actions), id)
    decreases |actions|
  {
    if actions != [] {
      StuckStaysOneStep(c, s, actions[0], id);
      StuckForEver(c, Apply(c, s, actions[0]), actions[1..], id);
    }
  }

  lemma OwnerBegins(c: Config, s: State, w: nat)
    requires ShortRepliesFit(c) && w < |s.workers| && WorkerOk(c, s, s.workers[w])
    requires CanStillComplete(c, s.workers[w], Subject(s.workers[w]))
    ensures var t := Take(c, s, w, Begin);
            && w < |t.workers| && t.workers[w].op == s.workers[w].op
            && (t.workers[w].Executing? || (t.workers[w].Replied? && ReplyFits(c, t.workers[w].reply)))
  {
  }

  lemma OwnerFinishes(c: Config, s: State, w: nat)
    requires w < |s.workers|
    requires s.workers[w].Executing? || (s.workers[w].Replied? && ReplyFits(c, s.workers[w].reply))
    requires ReplyFits(c, ReplyFor(c, s.workers[w].op, TimedOut))
    ensures var t := Take(c, s, w, Finish(TimedOut));
            && w < |t.workers| && t.workers[w].op == s.workers[w].op
            && t.workers[w].Replied? && ReplyFits(c, t.workers[w].reply)
  {
  }

  /** Executing and timing out brings every owner to a reply that fits, if it has none yet. */
  lemma OwnerComesToReply(c: Config, s: State, w: nat)
    requires Inv(c, s) && ShortRepliesFit(c)
    requires w < |s.workers| && CanStillComplete(c, s.workers[w], Subject(s.workers[w]))
    ensures var t := Take(c, Take(c, s, w, Begin), w, Finish(TimedOut));
            && w < |t.workers| && t.workers[w].op == s.workers[w].op
            && t.workers[w].Replied? && ReplyFits(c, t.workers[w].reply)
  {
    assert WorkerOk(c, s, s.workers[w]);
    OwnerBegins(c, s, w);
    OwnerFinishes(c, Take(c, s, w, Begin), w);
  }

  lemma ReplyCompletes(c: Config, s: State, w: nat)
    requires Inv(c, s) && !c.rules.strictNotNull
    requires w < |s.workers| && s.workers[w].Replied? && ReplyFits(c, s.workers[w].reply)
    ensures var t, id := Apply(c, s, Step(w, Complete(NoFault))), Subject(s.workers[w]);
            id in t.db.inbox && t.db.inbox[id].status == Completed
  {
    assert WorkerOk(c, s, s.workers[w]);
  }

  lemma OwnerCanFinish(c: Config, s: State, w: nat)
    requires Inv(c, s) && ShortRepliesFit(c) && !c.rules.strictNotNull
    requires w < |s.workers| && CanStillComplete(c, s.workers[w], Subject(s.workers[w]))
    ensures CompletesAfter(c, s, Subject(s.workers[w]),
            [Step(w, Begin), Step(w, Finish(TimedOut)), Step(w, Complete(NoFault))])
  {
    var actions := [Step(w, Begin), Step(w, Finish(TimedOut)), Step(w, Complete(NoFault))];
    var s1 := Apply(c, s, actions[0]);
    ApplyKeepsInv(c, s, actions[0]);
    ApplyKeepsInv(c, s1, actions[1]);
    OwnerComesToReply(c, s, w);
    ReplyCompletes(c, Apply(c, s1, actions[1]), w);
    UnrollThree(c, s, actions);
  }

  /**
   An unfinished claim can still be finished exactly if the database accepts completions, some worker owns it, and that
   worker does not already hold a reply that is too long or not text: nothing bounds a reply before `complete`.
   */
  lemma FinishableIffOwned(c: Config, s: State, id: string)
    requires Inv(c, s) && ShortRepliesFit(c)
    requires id in s.db.inbox && s.db.inbox[id].status == Processing
    ensures (exists actions :: CompletesAfter(c, s, id, actions)) <==>
              && !c.rules.strictNotNull
              && exists w :: 0 <= w < |s.workers| && CanStillComplete(c, s.workers[w], id)
  {
    if !Stuck(c, s, id) {
      var w :| 0 <= w < |s.workers| && CanStillComplete(c, s.workers[w], id);
      OwnerCanFinish(c, s, w);
    } else {
      forall actions
        ensures !CompletesAfter(c, s, id, actions)
      {
        StuckForEver(c, s, actions, id);
      }
    }
  }

  // ---------------------------------------------------------------- who can still publish

  /** A worker past admission with a message of this operation, subject and hash. */
  predicate MayServe(c: Config, wk: Worker, id: string, row: InboxRow) {
    && !wk.Idle? && !wk.Received? && !wk.Refusing?
    && wk.op.envelope.operationId == id
    && wk.op.envelope.subject == row.subject
    && Fingerprint(c.rules, wk.payload) == row.requestHash
  }

  /** A message of this operation, subject and hash that is admissible at this time. */
  predicate Serves(c: Config, payload: Bytes, at: nat, id: string, row: InboxRow) {
    var op := Admit(c, payload, at);
    && op.Some?
    && op.value.envelope.operationId == id
    && op.value.envelope.subject == row.subject
    && Fingerprint(c.rules, payload) == row.requestHash
  }

  /** A worker has such a message already, or one can be admitted now or later. */
  ghost predicate Servable(c: Config, s: State, id: string)
    requires id in s.db.inbox
  {
    || (exists i :: 0 <= i < |s.workers| && MayServe(c, s.workers[i], id, s.db.inbox[id]))
    || (exists payload, at: nat :: at >= s.now && Serves(c, payload, at, id, s.db.inbox[id]))
  }

  /** A finished result that nobody has published and that can no longer be served. */
  ghost predicate Stranded(c: Config, s: State, id: string) {
    Abs(s, id).Finished? && !Servable(c, s, id)
  }

  /** Serving a claimed row starts with admitting one of its messages. */
  lemma ServersArise(c: Config, s: State, w: nat, move: Move, id: string)
    requires w < |s.workers| && id in s.db.inbox && !Servable(c, s, id)
    ensures !MayServe(c, Take(c, s, w, move).workers[w], id, s.db.inbox[id])
  {
    var wk := s.workers[w];
    assert !MayServe(c, wk, id, s.db.inbox[id]);
    if move.Validate? && wk.Received? {
      assert !Serves(c, wk.payload, s.now, id, s.db.inbox[id]);
    }
  }

  /** A worker with another message for the same operation gets no further than its claim. */
  lemma StrangersAreRefused(c: Config, s: State, w: nat, move: Move, id: string)
    requires Inv(c, s) && w < |s.workers| && id in s.db.inbox && Subject(s.workers[w]) == id
    requires s.db.inbox[id].status == Completed && !MayServe(c, s.workers[w], id, s.db.inbox[id])
    ensures Take(c, s, w, move).db == s.db && Take(c, s, w, move).results == s.results
  {
    assert WorkerOk(c, s, s.workers[w]) && RowsOk(s.db, id);
  }

  lemma StrandedRegisterKeeps(c: Config, s: State, w: nat, move: Move, id: string)
    requires Inv(c, s) && Stranded(c, s, id) && w < |s.workers|
    ensures Abs(Take(c, s, w, move), id) == Abs(s, id)
  {
    assert RowsOk(s.db, id) && !MayServe(c, s.workers[w], id, s.db.inbox[id]);
    if Subject(s.workers[w]) == id {
      StrangersAreRefused(c, s, w, move, id);
      assert WasPublished(Take(c, s, w, move), id) <==> WasPublished(s, id);
    } else {
      OtherRegistersKeep(c, s, w, move, id);
    }
  }

  lemma StrandedStaysOneStep(c: Config, s: State, a: Action, id: string)
    requires Inv(c, s) && Stranded(c, s, id)
    ensures Stranded(c, Apply(c, s, a), id) && Abs(Apply(c, s, a), id) == Abs(s, id)
  {
    var t := Apply(c, s, a);
    if a.Tick? {
      assert WasPublished(t, id) <==> WasPublished(s, id);
    } else if a.w < |s.workers| {
      assert RowsOk(s.db, id);
      TakeIsForward(c, s, a.w, a.move);
      StrandedRegisterKeeps(c, s, a.w, a.move, id);
      SameRow(c, s, a.w, a.move, id);
      ServersArise(c, s, a.w, a.move, id);
      TakeFrame(c, s, a.w, a.move);
    }
  }

  /** A completed row never changes. */
  lemma SameRow(c: Config, s: State, w: nat, move: Move, id: string)
    requires Inv(c, s) && w < |s.workers| && id in s.db.inbox && s.db.inbox[id].status == Completed
    ensures id in Take(c, s, w, move).db.inbox && Take(c, s, w, move).db.inbox[id] == s.db.inbox[id]
  {
    var own := Subject(s.workers[w]);
    TakeIsForward(c, s, w, move);
    if own != id {
      SameElsewhere(s.db, Take(c, s, w, move).db, own, id);
    }
  }

  /** The outbox has no sweeper: a stranded result is never published in any continuation. */
  lemma {:induction false} StrandedResultsAreNeverPublished(c: Config, s: State, actions: seq<Action>, id: string)
    requires Inv(c, s) && Stranded(c, s, id)
    ensures Abs(Run(c, s, actions), id) == Abs(s, id)
    decreases |actions|
  {
    if actions != [] {
      StrandedStaysOneStep(c, s, actions[0], id);
      ApplyKeepsInv(c, s, actions[0]);
      StrandedResultsAreNeverPublished(c, Apply(c, s, actions[0]), actions[1..], id);
    }
  }

  ghost predicate PublishesAfter(c: Config, s: State, id: string, actions: seq<Action>) {
    WasPublished(Run(c, s, actions), id)
  }

  /** A worker that holds the result publishes it in two undisturbed steps. */
  lemma HolderPublishes(c: Config, s: State, w: nat)
    requires Inv(c, s) && w < |s.workers| && s.workers[w].Holding?
    ensures PublishesAfter(c, s, Subject(s.workers[w]), Pass(w, s.workers[w].payload)[3..])
  {
    var wk, p := s.workers[w], Pass(w, s.workers[w].payload)[3..];
    HeldResultIsSettled(c, s, w);
    RunKeepsInv(c, s, p);
    assert WorkerOk(c, s, wk);
    assert AnswerOk(c, Run(c, s, p), Answer(wk.payload, Ack));
  }

  lemma PublisherPublishes(c: Config, s: State, w: nat)
    requires w < |s.workers| && s.workers[w].Publishing?
    ensures PublishesAfter(c, s, Subject(s.workers[w]), [Step(w, Publish(Stored))])
  {
    var t := Apply(c, s, Step(w, Publish(Stored)));
    assert Run(c, s, [Step(w, Publish(Stored))]) == t;
    assert t.results[|s.results|] in t.results;
  }

  lemma AdmittedPublishes(c: Config, s: State, w: nat)
    requires Inv(c, s) && w < |s.workers| && s.workers[w].Admitted?
    requires var id := Subject(s.workers[w]);
             id in s.db.inbox && s.db.inbox[id].status == Completed && MayServe(c, s.workers[w], id, s.db.inbox[id])
    ensures PublishesAfter(c, s, Subject(s.workers[w]), [Step(w, Claim(NoFault))] + Pass(w, s.workers[w].payload)[3..])
  {
    var wk := s.workers[w];
    var claim := Step(w, Claim(NoFault));
    var t := Apply(c, s, claim);
    assert WorkerOk(c, s, wk) && RowsOk(s.db, Subject(wk));
    FingerprintIsHashText(c.rules, wk.payload);
    ApplyKeepsInv(c, s, claim);
    assert t.workers[w].Holding? && t.workers[w].payload == wk.payload;
    HolderPublishes(c, t, w);
    RunCons(c, s, claim, Pass(w, wk.payload)[3..]);
  }

  /** An admissible message is enough: let time pass, let any worker die, and hand it the message. */
  lemma MessagePublishes(c: Config, s: State, payload: Bytes, at: nat, id: string)
    requires Inv(c, s) && |s.workers| > 0 && id in s.db.inbox && s.db.inbox[id].status == Completed
    requires at >= s.now && Serves(c, payload, at, id, s.db.inbox[id])
    ensures PublishesAfter(c, s, id, [Tick(at - s.now)] + ([Step(0, Crash)] + Pass(0, payload)))
  {
    var tick, crash, pass := Tick(at - s.now), Step(0, Crash), Pass(0, payload);
    var t := Apply(c, s, tick);
    var u := Apply(c, t, crash);
    ApplyKeepsInv(c, s, tick);
    ApplyKeepsInv(c, t, crash);
    OnePassRecovers(c, u, 0, payload);
    RunCons(c, s, tick, [crash] + pass);
    RunCons(c, t, crash, pass);
  }

  lemma ServerPublishes(c: Config, s: State, w: nat, id: string)
    requires Inv(c, s) && Abs(s, id).Finished? && w < |s.workers| && MayServe(c, s.workers[w], id, s.db.inbox[id])
    ensures exists actions :: PublishesAfter(c, s, id, actions)
  {
    var wk := s.workers[w];
    assert RowsOk(s.db, id) && WorkerOk(c, s, wk);
    if wk.Admitted? {
      AdmittedPublishes(c, s, w);
    } else if wk.Holding? {
      HolderPublishes(c, s, w);
    } else {
      assert wk.Publishing?;
      PublisherPublishes(c, s, w);
    }
  }

  /**
   A finished, unpublished result can still be published exactly if some worker past admission carries a message of its
   operation, subject and hash, or such a message is admissible now or at a later time.
   */
  lemma PublishableIffServable(c: Config, s: State, id: string)
    requires Inv(c, s) && |s.workers| > 0 && Abs(s, id).Finished?
    ensures (exists actions :: PublishesAfter(c, s, id, actions)) <==> Servable(c, s, id)
  {
    assert RowsOk(s.db, id);
    if Stranded(c, s, id) {
      forall actions
        ensures !PublishesAfter(c, s, id, actions)
      {
        StrandedResultsAreNeverPublished(c, s, actions, id);
      }
    } else if w :| 0 <= w < |s.workers| && MayServe(c, s.workers[w], id, s.db.inbox[id]) {
      ServerPublishes(c, s, w, id);
    } else {
      var payload, at: nat :| at >= s.now && Serves(c, payload, at, id, s.db.inbox[id]);
      MessagePublishes(c, s, payload, at, id);
    }
  }

  // ---------------------------------------------------------------- both limits are reached

  function UntilClaimed(payload: Bytes): seq<Action> {
    [Step(0, Deliver(payload)), Step(0, Validate), Step(0, Claim(NoFault))]
  }

  function UntilCompleted(): seq<Action> {
    [Step(0, Begin), Step(0, Finish(TimedOut)), Step(0, Complete(NoFault))]
  }

  lemma FirstClaim(c: Config, now: nat, payload: Bytes)
    requires Admit(c, payload, now).Some?
    ensures var s, op := Run(c, Init(1, now), UntilClaimed(payload)), Admit(c, payload, now).value;
            && Inv(c, s) && s.now == now && s.results == []
            && s.workers == [Claimed(payload, op)]
            && op.envelope.operationId in s.db.inbox
            && s.db.inbox[op.envelope.operationId].status == Processing
            && s.db.inbox[op.envelope.operationId].requestHash == Fingerprint(c.rules, payload)
  {
    var s0, op := Init(1, now), Admit(c, payload, now).value;
    var s1, s2 := To(s0, 0, Received(payload)), To(s0, 0, Admitted(payload, op));
    AdmissionIsOneWindow(op.envelope, JetStreamAsync, c.crypto.encode(op.envelope), now, now);
    FingerprintIsHashText(c.rules, payload);
    UnrollThree(c, s0, UntilClaimed(payload));
    assert Apply(c, s0, Step(0, Deliver(payload))) == s1;
    assert Apply(c, s1, Step(0, Validate)) == s2;
    InitInv(c, 1, now);
    RunKeepsInv(c, s0, UntilClaimed(payload));
  }

  /** Any admissible message whose worker dies right after its claim leaves an orphan. */
  lemma OrphansArise(c: Config, now: nat, payload: Bytes)
    requires Admit(c, payload, now).Some?
    ensures Orphaned(Run(c, Init(1, now), UntilClaimed(payload) + [Step(0, Crash)]),
            Admit(c, payload, now).value.envelope.operationId)
  {
    FirstClaim(c, now, payload);
    var s := Run(c, Init(1, now), UntilClaimed(payload));
    RunAppend(c, Init(1, now), UntilClaimed(payload), [Step(0, Crash)]);
    RunCons(c, s, Step(0, Crash), []);
    assert [Step(0, Crash)] + [] == [Step(0, Crash)];
  }

  lemma ExecutingPublishesNothing(c: Config, s: State)
    ensures var t := Run(c, s, UntilCompleted());
            t.now == s.now && t.results == s.results && |t.workers| == |s.workers|
  {
    UnrollThree(c, s, UntilCompleted());
    StepIsSilent(c, s, Begin);
    StepIsSilent(c, Apply(c, s, Step(0, Begin)), Finish(TimedOut));
    StepIsSilent(c, Apply(c, Apply(c, s, Step(0, Begin)), Step(0, Finish(TimedOut))), Complete(NoFault));
  }

  lemma StepIsSilent(c: Config, s: State, move: Move)
    requires !move.Publish?
    ensures var t := Apply(c, s, Step(0, move));
            t.now == s.now && t.results == s.results && |t.workers| == |s.workers|
  {
  }

  lemma ClaimedComesToHold(c: Config, s: State, payload: Bytes, op: AuthenticatedOperation)
    requires Inv(c, s) && ShortRepliesFit(c) && !c.rules.strictNotNull
    requires s.workers == [Claimed(payload, op)]
    ensures var t, id := Run(c, s, UntilCompleted()), op.envelope.operationId;
            && Inv(c, t) && t.now == s.now && t.results == s.results && |t.workers| == 1
            && id in t.db.inbox && t.db.inbox[id].status == Completed
            && t.db.inbox[id].requestHash == s.db.inbox[id].requestHash
  {
    OwnerCanFinish(c, s, 0);
    RunKeepsInv(c, s, UntilCompleted());
    ExecutingPublishesNothing(c, s);
    assert WorkerOk(c, s, s.workers[0]);
    RegistersOnlyAdvance(c, s, UntilCompleted(), op.envelope.operationId);
  }

  lemma ExpiredForEver(c: Config, payload: Bytes, now: nat, at: nat)
    requires Admit(c, payload, now).Some? && at >= now + MAX_OPERATION_DEADLINE_MS
    ensures Admit(c, payload, at).None?
  {
    var e := Admit(c, payload, now).value.envelope;
    AdmissionIsOneWindow(e, JetStreamAsync, c.crypto.encode(e), now, at);
  }

  function DieAndWait(): seq<Action> {
    [Step(0, Crash), Tick(MAX_OPERATION_DEADLINE_MS)]
  }

  lemma DeathStrands(c: Config, t: State, payload: Bytes)
    requires Inv(c, t) && |t.workers| == 1 && t.results == []
    requires Admit(c, payload, t.now).Some?
    requires forall p :: c.parse(p).Some? && Fingerprint(c.rules, p) == Fingerprint(c.rules, payload) ==> p == payload
    requires var id := Admit(c, payload, t.now).value.envelope.operationId;
             id in t.db.inbox && t.db.inbox[id].status == Completed
             && t.db.inbox[id].requestHash == Fingerprint(c.rules, payload)
    ensures Stranded(c, Run(c, t, DieAndWait()), Admit(c, payload, t.now).value.envelope.operationId)
  {
    var id := Admit(c, payload, t.now).value.envelope.operationId;
    var u := Apply(c, t, Step(0, Crash));
    var v := Apply(c, u, Tick(MAX_OPERATION_DEADLINE_MS));
    RunCons(c, t, Step(0, Crash), [Tick(MAX_OPERATION_DEADLINE_MS)]);
    RunCons(c, u, Tick(MAX_OPERATION_DEADLINE_MS), []);
    assert [Step(0, Crash)] + [Tick(MAX_OPERATION_DEADLINE_MS)] == DieAndWait();
    assert [Tick(MAX_OPERATION_DEADLINE_MS)] + [] == [Tick(MAX_OPERATION_DEADLINE_MS)];
    assert RowsOk(t.db, id) && DeliveredOk(t, id);
    forall p, at: nat | at >= v.now
      ensures !Serves(c, p, at, id, v.db.inbox[id])
    {
      if p == payload {
        ExpiredForEver(c, payload, t.now, at);
      }
    }
    assert v.workers == [Idle] && v.db == t.db && v.results == [];
  }

  /**
   Any admissible message whose worker dies right after completing it leaves a stranded result half a minute later,
   unless another readable message has the same hash.
   */
  lemma StrandedArise(c: Config, now: nat, payload: Bytes)
    requires Admit(c, payload, now).Some? && ShortRepliesFit(c) && !c.rules.strictNotNull
    requires forall p :: c.parse(p).Some? && Fingerprint(c.rules, p) == Fingerprint(c.rules, payload) ==> p == payload
    ensures var actions := UntilClaimed(payload) + (UntilCompleted() + DieAndWait());
            Stranded(c, Run(c, Init(1, now), actions), Admit(c, payload, now).value.envelope.operationId)
  {
    FirstClaim(c, now, payload);
    var s := Run(c, Init(1, now), UntilClaimed(payload));
    ClaimedComesToHold(c, s, payload, Admit(c, payload, now).value);
    DeathStrands(c, Run(c, s, UntilCompleted()), payload);
    RunAppend(c, Init(1, now), UntilClaimed(payload), UntilCompleted() + DieAndWait());
    RunAppend(c, s, UntilCompleted(), DieAndWait());
  }

  /** One configuration that meets all of this, with the empty message carrying one signed operation. */
  function ExampleOperation(): AuthenticatedOperation {
    AuthenticatedOperation(
      PREFIX + Hex.EncodeHex(seq(32, _ => 0)),
      OperationEnvelope(1, "a", "b", "c", Read, [], 1000, Some("d")))
  }

  function ExampleConfig(): Config {
    Config(
      Rules(_ => seq(32, _ => 0), _ => true, _ => true, false),
      Crypto((_, _) => seq(32, _ => 0), _ => []),
      seq(32, _ => 0),
      p => if p == [] then Some(ExampleOperation()) else None,
      _ => [])
  }

  lemma OneCharacterIsValid(s: string, maximum: nat)
    requires |s| == 1 && 'a' <= s[0] <= 'z' && maximum >= 1
    ensures ValidIdentifier(s, maximum)
  {
    assert Utf8Length(s) == Utf8Width(s[0]) + Utf8Length(s[1..]);
    assert s[1..] == "";
  }

  /** So there are concrete runs that end in an orphan and in a stranded result. */
  lemma LimitsAreReached()
    ensures Orphaned(Run(ExampleConfig(), Init(1, 0), UntilClaimed([]) + [Step(0, Crash)]), "a")
    ensures var actions := UntilClaimed([]) + (UntilCompleted() + DieAndWait());
            Stranded(ExampleConfig(), Run(ExampleConfig(), Init(1, 0), actions), "a")
  {
    var c, op := ExampleConfig(), ExampleOperation();
    OneCharacterIsValid("a", 128);
    OneCharacterIsValid("b", 256);
    OneCharacterIsValid("c", 96);
    OneCharacterIsValid("d", 128);
    VerifyAcceptsSigned(c.crypto, c.key, op.envelope);
    VerifyAcceptsExactly(c.crypto, c.key, op.envelope, op.authorization);
    assert Sign(c.crypto, c.key, op.envelope).value == op.authorization;
    assert Admit(c, [], 0) == Some(op);
    OrphansArise(c, 0, []);
    StrandedArise(c, 0, []);
  }

  // ---------------------------------------------------------------- the status statement's missing subject

  ghost predicate NothingCompleted(s: State) {
    forall id :: id in s.db.inbox ==> s.db.inbox[id].status == Processing
  }

  lemma {:induction false} StrictKeepsNothingCompleted(c: Config, s: State, actions: seq<Action>)
    requires Inv(c, s) && NothingCompleted(s) && c.rules.strictNotNull
    ensures NothingCompleted(Run(c, s, actions))
    decreases |actions|
  {
    if actions != [] {
      ApplyKeepsInv(c, s, actions[0]);
      assert NothingCompleted(Apply(c, s, actions[0]));
      StrictKeepsNothingCompleted(c, Apply(c, s, actions[0]), actions[1..]);
    }
  }

  lemma PublishedIsCompleted(c: Config, s: State, k: nat)
    requires Inv(c, s) && k < |s.results|
    ensures var id := s.results[k].operationId; id in s.db.inbox && s.db.inbox[id].status == Completed
  {
    assert PublicationOk(s, s.results[k]) && RowsOk(s.db, s.results[k].operationId);
  }

  /**
   A database that rejects the subject-less status row before looking for the conflict never lets any operation finish:
   over every run nothing is completed, nothing is published and nothing is acknowledged.
   */
  lemma StrictNotNullNeverFinishes(c: Config, workers: nat, now: nat, actions: seq<Action>)
    requires c.rules.strictNotNull
    ensures var s := Run(c, Init(workers, now), actions);
            && NothingCompleted(s)
            && s.results == []
            && forall a :: a in s.answers ==> a.kind != Ack
  {
    InitInv(c, workers, now);
    RunKeepsInv(c, Init(workers, now), actions);
    StrictKeepsNothingCompleted(c, Init(workers, now), actions);
    var s := Run(c, Init(workers, now), actions);
    if |s.results| > 0 {
      PublishedIsCompleted(c, s, 0);
    }
    forall a | a in s.answers
      ensures a.kind != Ack
    {
      assert AnswerOk(c, s, a);
    }
  }
}
