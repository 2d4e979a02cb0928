/**
 `handle_jetstream_message` as the program it is: one pass over one message against the journal object, returning at
 the first failure (src/transport_runtime.rs). One uninterrupted call is exactly one run of the protocol's steps.
 */
module Handler {
  import opened Prelude
  import opened DataPlane
  import opened Journal
  import opened Protocol
  import opened Guarantees

  /** What the environment decides during one pass; `ms` is the time that passes before the second validation. */
  datatype Script = Script(
    ms: nat, claim: Fault, outcome: ServiceOutcome, complete: Fault, outbox: Fault, publish: PublishOutcome,
        mark: Fault, sent: bool)

  const PASS_LENGTH: nat := 11

  function StepNumber(payload: Bytes, env: Script, k: nat): Action {
    if k == 0 then Step(0, Deliver(payload))
    else if k == 1 then Step(0, Validate)
    else if k == 2 then Tick(env.ms)
    else if k == 3 then Step(0, Claim(env.claim))
    else if k == 4 then Step(0, Begin)
    else if k == 5 then Step(0, Finish(env.outcome))
    else if k == 6 then Step(0, Complete(env.complete))
    else if k == 7 then Step(0, ReadOutbox(env.outbox))
    else if k == 8 then Step(0, Publish(env.publish))
    else if k == 9 then Step(0, Mark(env.mark))
    else Step(0, SendAnswer(env.sent))
  }

  /** The pass from step `k` on. Steps that a pass does not reach are disabled, so one list describes every pass. */
  function Steps(payload: Bytes, env: Script, k: nat): seq<Action>
    decreases PASS_LENGTH - k
  {
    if k >= PASS_LENGTH then [] else [StepNumber(payload, env, k)] + Steps(payload, env, k + 1)
  }

  lemma Next(c: Config, s: State, payload: Bytes, env: Script, k: nat, t: State)
    requires k < PASS_LENGTH && t == Apply(c, s, StepNumber(payload, env, k))
    ensures Run(c, s, Steps(payload, env, k)) == Run(c, t, Steps(payload, env, k + 1))
  {
    RunCons(c, s, StepNumber(payload, env, k), Steps(payload, env, k + 1));
  }

  lemma OnlyWorker(s: State, wk: Worker)
    requires |s.workers| == 1
    ensures To(s, 0, wk) == s.(workers := [wk])
  {
    assert s.workers[0 := wk] == [wk];
  }

  /** A worker that has given up ignores the rest of the pass. */
  lemma {:induction false} IdleSkips(c: Config, s: State, payload: Bytes, env: Script, k: nat)
    requires s.workers == [Idle] && 3 <= k <= PASS_LENGTH
    ensures Run(c, s, Steps(payload, env, k)) == s
    decreases PASS_LENGTH - k
  {
    if k < PASS_LENGTH {
      Next(c, s, payload, env, k, s);
      IdleSkips(c, s, payload, env, k + 1);
    }
  }

  function Answered(s: State, payload: Bytes, kind: AnswerKind, sent: bool): State {
    s.(workers := [Idle], answers := s.answers + if sent then [Answer(payload, kind)] else [])
  }

  /** A worker that refuses its message goes straight to the answer. */
  lemma {:induction false} RefusingSkips(c: Config, s: State, payload: Bytes, env: Script, k: nat)
    requires |s.workers| == 1 && s.workers[0].Refusing? && 3 <= k < PASS_LENGTH
    ensures Run(c, s, Steps(payload, env, k)) == Answered(s, s.workers[0].payload, s.workers[0].kind, env.sent)
    decreases PASS_LENGTH - k
  {
    if k == 10 {
      var t := Answered(s, s.workers[0].payload, s.workers[0].kind, env.sent);
      Next(c, s, payload, env, 10, t);
      IdleSkips(c, t, payload, env, 11);
    } else {
      Next(c, s, payload, env, k, s);
      RefusingSkips(c, s, payload, env, k + 1);
    }
  }

  lemma ReceivingSteps(c: Config, s: State, payload: Bytes, env: Script)
    requires s.workers == [Idle]
    ensures Run(c, s, Steps(payload, env, 0)) ==
            Run(c, s.(workers := [AfterValidate(c, payload, s.now)], now := s.now + env.ms), Steps(payload, env, 3))
  {
    var s1 := s.(workers := [Received(payload)]);
    var s2 := s.(workers := [AfterValidate(c, payload, s.now)]);
    Next(c, s, payload, env, 0, s1);
    Next(c, s1, payload, env, 1, s2);
    Next(c, s2, payload, env, 2, s2.(now := s.now + env.ms));
  }

  lemma ClaimStep(c: Config, s: State, payload: Bytes, env: Script, op: AuthenticatedOperation)
    requires s.workers == [Admitted(payload, op)]
    ensures var e := op.envelope;
            var (db, r) :=
                WithFault(s.db, ClaimTables(s.db, e.operationId, e.subject, Fingerprint(c.rules, payload)), env.claim);
            Run(c, s, Steps(payload, env, 3)) ==
                Run(c, s.(db := db, workers := [AfterClaim(payload, op, r)]), Steps(payload, env, 4))
  {
    var e := op.envelope;
    var (db, r) :=
        WithFault(s.db, ClaimTables(s.db, e.operationId, e.subject, Fingerprint(c.rules, payload)), env.claim);
    OnlyWorker(s, AfterClaim(payload, op, r));
    Next(c, s, payload, env, 3, s.(db := db, workers := [AfterClaim(payload, op, r)]));
  }

  lemma CompleteStep(c: Config, s: State, payload: Bytes, env: Script, op: AuthenticatedOperation, reply: Bytes)
    requires s.workers == [Replied(payload, op, reply)]
    ensures var (db, r) := CompleteCall(c.rules, s.db, op.envelope.operationId, reply, env.complete);
            Run(c, s, Steps(payload, env, 6)) ==
            Run(c, s.(db := db, workers := [if r.Success? then Holding(payload, op, reply) else Idle]),
                Steps(payload, env, 7))
  {
    var (db, r) := CompleteCall(c.rules, s.db, op.envelope.operationId, reply, env.complete);
    var wk := if r.Success? then Holding(payload, op, reply) else Idle;
    OnlyWorker(s, wk);
    Next(c, s, payload, env, 6, s.(db := db, workers := [wk]));
  }

  /** A replayed message has nothing to execute or complete. */
  lemma HoldingSkips(c: Config, s: State, payload: Bytes, env: Script)
    requires |s.workers| == 1 && s.workers[0].Holding?
    ensures Run(c, s, Steps(payload, env, 4)) == Run(c, s, Steps(payload, env, 7))
  {
    Next(c, s, payload, env, 4, s);
    Next(c, s, payload, env, 5, s);
    Next(c, s, payload, env, 6, s);
  }

  lemma ReadOutboxStep(c: Config, s: State, payload: Bytes, env: Script, op: AuthenticatedOperation, result: Bytes)
    requires s.workers == [Holding(payload, op, result)]
    ensures var pending := PendingResult(s.db, op.envelope.operationId);
            Run(c, s, Steps(payload, env, 7)) ==
            Run(c, s.(workers := [if env.outbox == NoFault then AfterPending(s.workers[0], pending) else Idle]),
                Steps(payload, env, 8))
  {
    var wk := if env.outbox == NoFault then AfterPending(s.workers[0], PendingResult(s.db, op.envelope.operationId))
        else Idle;
    OnlyWorker(s, wk);
    Next(c, s, payload, env, 7, s.(workers := [wk]));
  }

  lemma PublishStep(c: Config, s: State, payload: Bytes, env: Script, op: AuthenticatedOperation, subject: string,
      message: Bytes)
    requires s.workers == [Publishing(payload, op, subject, message)]
    ensures var id := op.envelope.operationId;
            var stored := !env.publish.Lost? && !(env.publish.Deduplicated? && WasPublished(s, id));
            var seen := env.publish.Stored? || env.publish.Deduplicated?;
            Run(c, s, Steps(payload, env, 8)) ==
            Run(c, s.(workers := [if seen then Published(payload, op) else Idle],
                      results := if stored then s.results + [Publication(id, subject, message)] else s.results),
                Steps(payload, env, 9))
  {
    var id := op.envelope.operationId;
    var stored := !env.publish.Lost? && !(env.publish.Deduplicated? && WasPublished(s, id));
    var wk := if env.publish.Stored? || env.publish.Deduplicated? then Published(payload, op) else Idle;
    OnlyWorker(s, wk);
    Next(c, s, payload, env, 8,
         s.(workers := [wk], results := if stored then s.results + [Publication(id, subject, message)] else s.results));
  }

  lemma MarkStep(c: Config, s: State, payload: Bytes, env: Script, op: AuthenticatedOperation)
    requires s.workers == [Published(payload, op)]
    ensures var (db, r) := WithFault(s.db, (MarkTables(s.db, op.envelope.operationId), Success(())), env.mark);
            Run(c, s, Steps(payload, env, 9)) ==
            Run(c, s.(db := db, workers := [if r.Success? then Marked(payload, op) else Idle]), Steps(payload, env, 10))
  {
    var (db, r) := WithFault(s.db, (MarkTables(s.db, op.envelope.operationId), Success(())), env.mark);
    var wk := if r.Success? then Marked(payload, op) else Idle;
    OnlyWorker(s, wk);
    Next(c, s, payload, env, 9, s.(db := db, workers := [wk]));
  }

  lemma AckStep(c: Config, s: State, payload: Bytes, env: Script, op: AuthenticatedOperation)
    requires s.workers == [Marked(payload, op)]
    ensures Run(c, s, Steps(payload, env, 10)) == Answered(s, payload, Ack, env.sent)
  {
    var t := Answered(s, payload, Ack, env.sent);
    Next(c, s, payload, env, 10, t);
    IdleSkips(c, t, payload, env, 11);
  }

  // ---------------------------------------------------------------- which answer a message gets

  function Sent(payload: Bytes, kind: AnswerKind, sent: bool): seq<Answer> {
    if sent then [Answer(payload, kind)] else []
  }

  /** The second half of a pass reaches its acknowledgement exactly when nothing in it fails. */
  predicate Delivers(env: Script) {
    env.outbox == NoFault && (env.publish.Stored? || env.publish.Deduplicated?) && env.mark == NoFault
  }

  lemma AnswerFromHolding(c: Config, s: State, payload: Bytes, env: Script, op: AuthenticatedOperation, result: Bytes)
    requires s.workers == [Holding(payload, op, result)]
    ensures Run(c, s, Steps(payload, env, 7)).answers ==
            s.answers + if Delivers(env) then Sent(payload, Ack, env.sent) else []
  {
    ReadOutboxStep(c, s, payload, env, op, result);
    var wk := if env.outbox == NoFault then AfterPending(s.workers[0], PendingResult(s.db, op.envelope.operationId))
              else Idle;
    var s1 := s.(workers := [wk]);
    if env.outbox != NoFault {
      IdleSkips(c, s1, payload, env, 8);
    } else {
      AnswerFromPublishing(c, s1, payload, env, op, wk.subject, wk.message);
    }
  }

  lemma AnswerFromPublishing(c: Config, s: State, payload: Bytes, env: Script, op: AuthenticatedOperation,
                             subject: string, message: Bytes)
    requires s.workers == [Publishing(payload, op, subject, message)] && env.outbox == NoFault
    ensures Run(c, s, Steps(payload, env, 8)).answers ==
            s.answers + if Delivers(env) then Sent(payload, Ack, env.sent) else []
  {
    PublishStep(c, s, payload, env, op, subject, message);
    var stored := !env.publish.Lost? && !(env.publish.Deduplicated? && WasPublished(s, op.envelope.operationId));
    var results := if stored then s.results + [Publication(op.envelope.operationId, subject, message)] else s.results;
    if env.publish.Stored? || env.publish.Deduplicated? {
      var s1 := s.(workers := [Published(payload, op)], results := results);
      MarkStep(c, s1, payload, env, op);
      var marked := (MarkTables(s1.db, op.envelope.operationId), Success(()));
      var (db, r) := WithFault(s1.db, marked, env.mark);
      var s2 := s1.(db := db, workers := [if r.Success? then Marked(payload, op) else Idle]);
      if r.Success? {
        AckStep(c, s2, payload, env, op);
      } else {
        IdleSkips(c, s2, payload, env, 10);
      }
    } else {
      IdleSkips(c, s.(workers := [Idle], results := results), payload, env, 9);
    }
  }

  /** A claimed worker's execution: started, and its outcome logged, exactly while the request is still valid. */
  lemma ExecutionSteps(c: Config, s: State, payload: Bytes, env: Script, op: AuthenticatedOperation)
    requires s.workers == [Claimed(payload, op)]
    ensures var id, valid := op.envelope.operationId, Validates(c, op, s.now);
            var reply := ReplyFor(c, op, if valid then env.outcome else Failed("invalid_request"));
            var t := s.(workers := [Replied(payload, op, reply)],
                        started := if valid then s.started + [id] else s.started,
                        outcomes := if valid then s.outcomes + [(id, env.outcome)] else s.outcomes);
            Run(c, s, Steps(payload, env, 4)) == Run(c, t, Steps(payload, env, 6))
  {
    var s1 := Apply(c, s, Step(0, Begin));
    var s2 := Apply(c, s1, Step(0, Finish(env.outcome)));
    Next(c, s, payload, env, 4, s1);
    Next(c, s1, payload, env, 5, s2);
    OnlyWorker(s, s1.workers[0]);
    OnlyWorker(s1, s2.workers[0]);
  }

  lemma AnswerFromReplied(c: Config, s: State, payload: Bytes, env: Script, op: AuthenticatedOperation, reply: Bytes)
    requires s.workers == [Replied(payload, op, reply)]
    requires op.envelope.operationId in s.db.inbox && s.db.inbox[op.envelope.operationId].status == Processing
    ensures var stores := env.complete == NoFault && !c.rules.strictNotNull && ReplyFits(c, reply);
            Run(c, s, Steps(payload, env, 6)).answers ==
            s.answers + if stores && Delivers(env) then Sent(payload, Ack, env.sent) else []
  {
    CompleteStep(c, s, payload, env, op, reply);
    var (db, r) := CompleteCall(c.rules, s.db, op.envelope.operationId, reply, env.complete);
    var t := s.(db := db, workers := [if r.Success? then Holding(payload, op, reply) else Idle]);
    if r.Success? {
      AnswerFromHolding(c, t, payload, env, op, reply);
    } else {
      IdleSkips(c, t, payload, env, 7);
    }
  }

  /** A new claim is answered exactly when its reply can be stored and everything after that works. */
  lemma AnswerFromClaimed(c: Config, s: State, payload: Bytes, env: Script, op: AuthenticatedOperation)
    requires s.workers == [Claimed(payload, op)]
    requires op.envelope.operationId in s.db.inbox && s.db.inbox[op.envelope.operationId].status == Processing
    ensures var outcome := if Validates(c, op, s.now) then env.outcome else Failed("invalid_request");
            var stores := env.complete == NoFault && !c.rules.strictNotNull && ReplyFits(c, ReplyFor(c, op, outcome));
            Run(c, s, Steps(payload, env, 4)).answers ==
            s.answers + if stores && Delivers(env) then Sent(payload, Ack, env.sent) else []
  {
    ExecutionSteps(c, s, payload, env, op);
    var id, valid := op.envelope.operationId, Validates(c, op, s.now);
    var reply := ReplyFor(c, op, if valid then env.outcome else Failed("invalid_request"));
    var t := s.(workers := [Replied(payload, op, reply)],
                started := if valid then s.started + [id] else s.started,
                outcomes := if valid then s.outcomes + [(id, env.outcome)] else s.outcomes);
    AnswerFromReplied(c, t, payload, env, op, reply);
  }

  /** An admitted message is answered by the row its claim finds. */
  lemma AnswerFromAdmitted(c: Config, s: State, payload: Bytes, env: Script, op: AuthenticatedOperation)
    requires s.workers == [Admitted(payload, op)] && TablesOk(s.db)
    requires KeyChecks(op.envelope.operationId, op.envelope.subject)
    ensures var t, e := Run(c, s, Steps(payload, env, 3)), op.envelope;
            var hash := Fingerprint(c.rules, payload);
            && (env.claim != NoFault ==> t.answers == s.answers)
            && (env.claim == NoFault && e.operationId in s.db.inbox ==>
                  var row := s.db.inbox[e.operationId];
                  t.answers == s.answers +
                    if row.subject != e.subject || row.requestHash != hash then Sent(payload, Term, env.sent)
                    else if row.status == Processing then Sent(payload, Nak, env.sent)
                    else if Delivers(env) then Sent(payload, Ack, env.sent)
                    else [])
            && (env.claim == NoFault && e.operationId !in s.db.inbox ==>
                  var outcome := if Validates(c, op, s.now) then env.outcome else Failed("invalid_request");
                  var fits := ReplyFits(c, ReplyFor(c, op, outcome));
                  var stores := env.complete == NoFault && !c.rules.strictNotNull && fits;
                  t.answers == s.answers + if stores && Delivers(env) then Sent(payload, Ack, env.sent) else [])
  {
    var e := op.envelope;
    ClaimStep(c, s, payload, env, op);
    FingerprintIsHashText(c.rules, payload);
    assert RowsOk(s.db, e.operationId);
    var claimed := ClaimTables(s.db, e.operationId, e.subject, Fingerprint(c.rules, payload));
    var (db, r) := WithFault(s.db, claimed, env.claim);
    var s1 := s.(db := db, workers := [AfterClaim(payload, op, r)]);
    if r.Failure? {
      IdleSkips(c, s1, payload, env, 4);
    } else if r.value.New? {
      AnswerFromClaimed(c, s1, payload, env, op);
    } else if r.value.Replay? {
      HoldingSkips(c, s1, payload, env);
      AnswerFromHolding(c, s1, payload, env, op, r.value.payload);
    } else {
      RefusingSkips(c, s1, payload, env, 4);
    }
  }

  /**
   The answer of one whole pass, read off the message, the clock, the old inbox row and what fails: `Term` for what is
   not admissible or belongs to someone else, `Nak` for what is still processing, `Ack` once the result is out and
   marked, and none when a call fails.
   */
  lemma AnswerOfAPass(c: Config, s: State, payload: Bytes, env: Script)
    requires s.workers == [Idle] && TablesOk(s.db)
    ensures var t := Run(c, s, Steps(payload, env, 0));
            match Admit(c, payload, s.now)
            case None => t.answers == s.answers + Sent(payload, Term, env.sent)
            case Some(op) =>
              var e := op.envelope;
              if env.claim != NoFault then t.answers == s.answers
              else if e.operationId in s.db.inbox then
                var row := s.db.inbox[e.operationId];
                t.answers == s.answers +
                  if row.subject != e.subject || row.requestHash != Fingerprint(c.rules, payload)
                  then Sent(payload, Term, env.sent)
                  else if row.status == Processing then Sent(payload, Nak, env.sent)
                  else if Delivers(env) then Sent(payload, Ack, env.sent)
                  else []
              else
                var outcome := if Validates(c, op, s.now + env.ms) then env.outcome else Failed("invalid_request");
                var fits := ReplyFits(c, ReplyFor(c, op, outcome));
                var stores := env.complete == NoFault && !c.rules.strictNotNull && fits;
                t.answers == s.answers + if stores && Delivers(env) then Sent(payload, Ack, env.sent) else []
  {
    ReceivingSteps(c, s, payload, env);
    var s1 := s.(workers := [AfterValidate(c, payload, s.now)], now := s.now + env.ms);
    match Admit(c, payload, s.now) {
      case None => RefusingSkips(c, s1, payload, env, 3);
      case Some(op) =>
        AdmissionIsOneWindow(op.envelope, JetStreamAsync, c.crypto.encode(op.envelope), s.now, s.now);
        AnswerFromAdmitted(c, s1, payload, env, op);
    }
  }

  // ---------------------------------------------------------------- one worker among many

  /** The shared state with only worker `w` in it. */
  function Alone(s: State, w: nat): State
    requires w < |s.workers|
  {
    s.(workers := [s.workers[w]])
  }

  predicate ByFirst(actions: seq<Action>) {
    forall a :: a in actions && a.Step? ==> a.w == 0
  }

  /** The same action, taken by worker `w`. */
  function By(a: Action, w: nat): Action {
    if a.Step? then Step(w, a.move) else a
  }

  function AllBy(actions: seq<Action>, w: nat): seq<Action> {
    if actions == [] then [] else [By(actions[0], w)] + AllBy(actions[1..], w)
  }

  lemma TableMoveAsIfAlone(c: Config, s: State, w: nat, move: Move)
    requires w < |s.workers| && (move.Claim? || move.Complete? || move.Mark? || move.Publish?)
    ensures var t := Take(c, s, w, move); w < |t.workers| && Alone(t, w) == Take(c, Alone(s, w), 0, move)
  {
    OnlyWorker(Alone(s, w), Take(c, s, w, move).workers[w]);
    assert WasPublished(Alone(s, w), Subject(s.workers[w])) <==> WasPublished(s, Subject(s.workers[w]));
  }

  lemma OtherMoveAsIfAlone(c: Config, s: State, w: nat, move: Move)
    requires w < |s.workers| && !move.Claim? && !move.Complete? && !move.Mark? && !move.Publish?
    ensures var t := Take(c, s, w, move); w < |t.workers| && Alone(t, w) == Take(c, Alone(s, w), 0, move)
  {
    OnlyWorker(Alone(s, w), Take(c, s, w, move).workers[w]);
  }

  lemma ActsAsIfAlone(c: Config, s: State, w: nat, a: Action)
    requires w < |s.workers| && (a.Step? ==> a.w == 0)
    ensures var t := Apply(c, s, By(a, w));
            && |t.workers| == |s.workers| && t.workers == s.workers[w := t.workers[w]]
            && Alone(t, w) == Apply(c, Alone(s, w), a)
  {
    if a.Step? {
      TakeFrame(c, s, w, a.move);
      if a.move.Claim? || a.move.Complete? || a.move.Mark? || a.move.Publish? {
        TableMoveAsIfAlone(c, s, w, a.move);
      } else {
        OtherMoveAsIfAlone(c, s, w, a.move);
      }
    }
  }

  /** While only worker `w` acts, among any others, what it does is what it would do alone. */
  lemma {:induction false} RunsAsIfAlone(c: Config, s: State, w: nat, actions: seq<Action>)
    requires w < |s.workers| && ByFirst(actions)
    ensures var t := Run(c, s, AllBy(actions, w));
            && |t.workers| == |s.workers| && t.workers == s.workers[w := t.workers[w]]
            && Alone(t, w) == Run(c, Alone(s, w), actions)
    decreases |actions|
  {
    if actions != [] {
      ActsAsIfAlone(c, s, w, actions[0]);
      RunsAsIfAlone(c, Apply(c, s, By(actions[0], w)), w, actions[1..]);
      RunCons(c, s, By(actions[0], w), AllBy(actions[1..], w));
    }
  }

  lemma {:induction false} StepsAreByFirst(payload: Bytes, env: Script, k: nat)
    ensures ByFirst(Steps(payload, env, k))
    decreases PASS_LENGTH - k
  {
    if k < PASS_LENGTH {
      StepsAreByFirst(payload, env, k + 1);
    }
  }

  /**
   A pass by any worker of any state, with the other workers in the middle of anything: it is a run of the protocol that
   leaves the others where they are, and shared state and logs are those of the pass taken alone.
   */
  lemma PassOfAnyWorker(c: Config, s: State, w: nat, payload: Bytes, env: Script)
    requires w < |s.workers|
    ensures var t := Run(c, s, AllBy(Steps(payload, env, 0), w));
            && |t.workers| == |s.workers| && t.workers == s.workers[w := t.workers[w]]
            && Alone(t, w) == Run(c, Alone(s, w), Steps(payload, env, 0))
            && (Inv(c, s) ==> Inv(c, t))
  {
    StepsAreByFirst(payload, env, 0);
    RunsAsIfAlone(c, s, w, Steps(payload, env, 0));
    if Inv(c, s) {
      RunKeepsInv(c, s, AllBy(Steps(payload, env, 0), w));
    }
  }

  class JetStreamConsumer {
    const config: Config
    const journal: SeaOrmOperationJournal
    var now: nat
    var started: seq<string>
    ghost var outcomes: seq<(string, ServiceOutcome)>
    var results: seq<Publication>
    var answers: seq<Answer>

    ghost predicate Valid()
      reads this, journal
    {
      journal.Valid() && journal.rules == config.rules
    }

    ghost function World(wk: Worker): State
      reads this, journal
    {
      State(journal.Snapshot(), now, [wk], started, outcomes, results, answers)
    }

    constructor (config: Config, journal: SeaOrmOperationJournal, now: nat)
      requires journal.Valid() && journal.rules == config.rules
      ensures Valid() && this.config == config && this.journal == journal
      ensures World(Idle) == State(journal.Snapshot(), now, [Idle], [], [], [], [])
    {
      this.config, this.journal, this.now := config, journal, now;
      started, outcomes, results, answers := [], [], [], [];
    }

    method Reply(payload: Bytes, kind: AnswerKind, sent: bool)
      modifies this`answers
      ensures answers == old(answers) + if sent then [Answer(payload, kind)] else []
    {
      if sent {
        answers := answers + [Answer(payload, kind)];
      }
    }

    /**
     `process_payload` after its bound check and parse, which a claimed message has passed already: exactly the
     protocol's begin and finish of this worker, so the service starts at most once and only while the request is still
     valid.
     */
    method Execute(payload: Bytes, op: AuthenticatedOperation, outcome: ServiceOutcome) returns (reply: Bytes)
      modifies this`started, this`outcomes
      ensures World(Replied(payload, op, reply)) ==
              Apply(config, Apply(config, old(World(Claimed(payload, op))), Step(0, Begin)), Step(0, Finish(outcome)))
      ensures old(Inv(config, World(Claimed(payload, op)))) ==> Inv(config, World(Replied(payload, op, reply)))
    {
      ghost var s := World(Claimed(payload, op));
      ghost var t := Apply(config, s, Step(0, Begin));
      if Inv(config, s) {
        ApplyKeepsInv(config, s, Step(0, Begin));
        ApplyKeepsInv(config, t, Step(0, Finish(outcome)));
      }
      if !Validates(config, op, now) {
        reply := ReplyFor(config, op, Failed("invalid_request"));
        OnlyWorker(s, Replied(payload, op, reply));
        return;
      }
      started := started + [op.envelope.operationId];
      outcomes := outcomes + [(op.envelope.operationId, outcome)];
      reply := ReplyFor(config, op, outcome);
      OnlyWorker(s, Executing(payload, op));
      OnlyWorker(t, Replied(payload, op, reply));
    }

    /** The second half of a pass: publish what the outbox holds, mark it delivered, acknowledge. */
    method Deliver(payload: Bytes, op: AuthenticatedOperation, result: Bytes, env: Script)
      requires Valid()
      modifies this, journal
      ensures Valid()
      ensures World(Idle) == Run(config, old(World(Holding(payload, op, result))), Steps(payload, env, 7))
    {
      var id := op.envelope.operationId;
      ReadOutboxStep(config, World(Holding(payload, op, result)), payload, env, op, result);
      var pending := journal.Pending(id, env.outbox);
      if pending.Failure? {
        IdleSkips(config, World(Idle), payload, env, 8);
        return;
      }
      var subject, message := RESULT_SUBJECT, result;
      if pending.value.Some? {
        subject, message := pending.value.value.0, pending.value.value.1;
      }
      Send(payload, op, subject, message, env);
    }

    method Send(payload: Bytes, op: AuthenticatedOperation, subject: string, message: Bytes, env: Script)
      requires Valid()
      modifies this, journal
      ensures Valid()
      ensures World(Idle) == Run(config, old(World(Publishing(payload, op, subject, message))), Steps(payload, env, 8))
    {
      var id := op.envelope.operationId;
      PublishStep(config, World(Publishing(payload, op, subject, message)), payload, env, op, subject, message);
      var duplicate := env.publish.Deduplicated? && exists p :: p in results && p.operationId == id;
      if !env.publish.Lost? && !duplicate {
        results := results + [Publication(id, subject, message)];
      }
      if env.publish.Lost? || env.publish.StoredUnseen? {
        IdleSkips(config, World(Idle), payload, env, 9);
        return;
      }
      Settle(payload, op, env);
    }

    method Settle(payload: Bytes, op: AuthenticatedOperation, env: Script)
      requires Valid()
      modifies this, journal
      ensures Valid()
      ensures World(Idle) == Run(config, old(World(Published(payload, op))), Steps(payload, env, 9))
    {
      MarkStep(config, World(Published(payload, op)), payload, env, op);
      var marked := journal.MarkResultPublished(op.envelope.operationId, env.mark);
      if marked.Failure? {
        IdleSkips(config, World(Idle), payload, env, 10);
        return;
      }
      AckStep(config, World(Marked(payload, op)), payload, env, op);
      Reply(payload, Ack, env.sent);
    }

    /** The first half of a new claim: execute once and complete the row. */
    method Work(payload: Bytes, op: AuthenticatedOperation, env: Script)
      requires Valid()
      modifies this, journal
      ensures Valid()
      ensures World(Idle) == Run(config, old(World(Claimed(payload, op))), Steps(payload, env, 4))
    {
      ghost var s := World(Claimed(payload, op));
      ghost var t := Apply(config, s, Step(0, Begin));
      Next(config, s, payload, env, 4, t);
      Next(config, t, payload, env, 5, Apply(config, t, Step(0, Finish(env.outcome))));
      var reply := Execute(payload, op, env.outcome);
      CompleteStep(config, World(Replied(payload, op, reply)), payload, env, op, reply);
      var done := journal.Complete(op.envelope.operationId, reply, env.complete);
      if done.Failure? {
        IdleSkips(config, World(Idle), payload, env, 7);
        return;
      }
      Deliver(payload, op, reply, env);
    }

    /** An admitted message: claim its operation and act on what the journal says. */
    method Process(payload: Bytes, op: AuthenticatedOperation, env: Script)
      requires Valid()
      modifies this, journal
      ensures Valid()
      ensures World(Idle) == Run(config, old(World(Admitted(payload, op))), Steps(payload, env, 3))
    {
      ClaimStep(config, World(Admitted(payload, op)), payload, env, op);
      var claim := journal.Claim(op.envelope.operationId, op.envelope.subject, payload, env.claim);
      if claim.Failure? {
        IdleSkips(config, World(Idle), payload, env, 4);
        return;
      }
      match claim.value {
        case InProgress =>
          RefusingSkips(config, World(Refusing(payload, Nak)), payload, env, 4);
          Reply(payload, Nak, env.sent);
        case Conflict =>
          RefusingSkips(config, World(Refusing(payload, Term)), payload, env, 4);
          Reply(payload, Term, env.sent);
        case Replay(result) =>
          HoldingSkips(config, World(Holding(payload, op, result)), payload, env);
          Deliver(payload, op, result, env);
        case New =>
          Work(payload, op, env);
      }
    }

    /**
     One message, from delivery to the last answer or the first failure. Without failures the answer is fixed by the old
     inbox row of the message's operation.
     */
    method Handle(payload: Bytes, env: Script)
      requires Valid()
      modifies this, journal
      ensures Valid()
      ensures World(Idle) == Run(config, old(World(Idle)), Steps(payload, env, 0))
      ensures env.sent && old(Admit(config, payload, now)).None? ==> answers == old(answers) + [Answer(payload, Term)]
      ensures env.sent && env.claim == NoFault && Delivers(env) && old(Admit(config, payload, now)).Some? ==>
                var e := old(Admit(config, payload, now)).value.envelope;
                e.operationId in old(journal.inbox) ==>
                  var row := old(journal.inbox)[e.operationId];
                  answers == old(answers) + [Answer(payload,
                    if row.subject != e.subject || row.requestHash != Fingerprint(config.rules, payload) then Term
                    else if row.status == Processing then Nak
                    else Ack)]
    {
      ReceivingSteps(config, World(Idle), payload, env);
      AnswerOfAPass(config, World(Idle), payload, env);
      var admitted := Admit(config, payload, now);
      now := now + env.ms;
      if admitted.None? {
        RefusingSkips(config, World(Refusing(payload, Term)), payload, env, 3);
        Reply(payload, Term, env.sent);
        return;
      }
      Process(payload, admitted.value, env);
    }
  }
}
