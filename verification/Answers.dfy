/**
 What the durable operation protocol tells the other side: what a stored result says about the execution, and why a
 message was refused (src/transport_runtime.rs).
 */
module Answers {
  import opened Prelude
  import opened Attestation
  import opened Journal
  import opened Protocol
  import opened Guarantees

  // ---------------------------------------------------------------- results say what happened

  predicate Logged(s: State, id: string) {
    exists k :: 0 <= k < |s.outcomes| && s.outcomes[k].0 == id
  }

  /** The reply says what the log knows: the logged outcome of the execution, or that there was none. */
  ghost predicate Told(c: Config, s: State, id: string, reply: Bytes) {
    if id in s.started then
      exists k :: 0 <= k < |s.outcomes| && s.outcomes[k].0 == id && Carries(c, id, s.outcomes[k].1, reply)
    else reply == c.encodeReply(OperationReply(Some(id), None, Some("invalid_request")))
  }

  ghost predicate WorkerTold(c: Config, s: State, wk: Worker) {
    match wk
    case Executing(_, op) => op.envelope.operationId in s.started && !Logged(s, op.envelope.operationId)
    case Replied(_, op, reply) => Told(c, s, op.envelope.operationId, reply)
    case _ => true
  }

  ghost predicate RowTold(c: Config, s: State, id: string) {
    id in s.db.inbox && s.db.inbox[id].status == Completed ==>
      s.db.inbox[id].resultJson.Some? && Told(c, s, id, s.db.inbox[id].resultJson.value)
  }

  /** Each execution that has been started comes to at most one outcome. */
  ghost predicate LogOk(s: State) {
    && (forall i, j :: 0 <= i < j < |s.outcomes| ==> s.outcomes[i].0 != s.outcomes[j].0)
    && (forall k :: 0 <= k < |s.outcomes| ==> s.outcomes[k].0 in s.started)
  }

  ghost predicate Honest(c: Config, s: State) {
    && LogOk(s)
    && (forall i :: 0 <= i < |s.workers| ==> WorkerTold(c, s, s.workers[i]))
    && (forall id :: RowTold(c, s, id))
  }

  /** What was told of an operation stays true while its own execution is not touched. */
  lemma ToldStays(c: Config, s: State, t: State, id: string, reply: Bytes)
    requires Told(c, s, id, reply) && s.outcomes <= t.outcomes && (id in t.started <==> id in s.started)
    ensures Told(c, t, id, reply)
  {
    if id in s.started {
      var k :| 0 <= k < |s.outcomes| && s.outcomes[k].0 == id && Carries(c, id, s.outcomes[k].1, reply);
      assert t.outcomes[k] == s.outcomes[k];
    }
  }

  /** A completed operation has no owner, and an owned one has only one. */
  lemma OwnerIsAlone(c: Config, s: State, w: nat, id: string)
    requires Inv(c, s) && w < |s.workers| && Owns(s.workers[w], id)
    ensures id in s.db.inbox && s.db.inbox[id].status == Processing
    ensures forall i :: 0 <= i < |s.workers| && i != w ==> !Owns(s.workers[i], id)
  {
    assert WorkerOk(c, s, s.workers[w]);
  }

  /** Another execution's outcome is not logged by this worker's step. */
  lemma LogElsewhere(c: Config, s: State, w: nat, move: Move, id: string)
    requires w < |s.workers| && (move.Finish? && s.workers[w].Executing? ==> id != Subject(s.workers[w]))
    ensures Logged(Take(c, s, w, move), id) ==> Logged(s, id)
  {
  }

  /** Another worker keeps its story. */
  lemma OtherStaysHonest(c: Config, s: State, w: nat, move: Move, i: nat)
    requires Inv(c, s) && Honest(c, s) && w < |s.workers| && i < |s.workers| && i != w && !move.Complete?
    requires move.Begin? ==> s.workers[w].Claimed?
    requires move.Finish? ==> s.workers[w].Executing?
    ensures WorkerTold(c, Take(c, s, w, move), s.workers[i])
  {
    var wk, own, t := s.workers[i], Subject(s.workers[w]), Take(c, s, w, move);
    assert WorkerTold(c, s, wk);
    if wk.Executing? || wk.Replied? {
      var id := wk.op.envelope.operationId;
      assert Owns(wk, id);
      if move.Begin? || move.Finish? {
        OwnerIsAlone(c, s, w, own);
        assert id != own;
      }
      LogElsewhere(c, s, w, move, id);
      if wk.Replied? {
        ToldStays(c, s, t, id, wk.reply);
      }
    }
  }

  lemma RowsStayHonest(c: Config, s: State, w: nat, move: Move)
    requires Inv(c, s) && Honest(c, s) && w < |s.workers| && !move.Complete?
    requires move.Begin? ==> s.workers[w].Claimed?
    requires move.Finish? ==> s.workers[w].Executing?
    ensures forall id :: RowTold(c, Take(c, s, w, move), id)
  {
    var own, t := Subject(s.workers[w]), Take(c, s, w, move);
    if move.Begin? || move.Finish? {
      OwnerIsAlone(c, s, w, own);
    }
    forall id
      ensures RowTold(c, t, id)
    {
      assert RowTold(c, s, id);
      OnlyCompletionCompletes(c, s, w, move, id);
      if id in t.db.inbox && t.db.inbox[id].status == Completed {
        ToldStays(c, s, t, id, s.db.inbox[id].resultJson.value);
      }
    }
  }

  /** The others keep their stories when one worker's step concerns the execution of its own operation only. */
  lemma OthersStayHonest(c: Config, s: State, w: nat, move: Move)
    requires Inv(c, s) && Honest(c, s) && w < |s.workers| && !move.Complete?
    requires move.Begin? ==> s.workers[w].Claimed?
    requires move.Finish? ==> s.workers[w].Executing?
    ensures var t := Take(c, s, w, move);
            && (forall i :: 0 <= i < |s.workers| && i != w ==> WorkerTold(c, t, s.workers[i]))
            && (forall id :: RowTold(c, t, id))
  {
    forall i | 0 <= i < |s.workers| && i != w
      ensures WorkerTold(c, Take(c, s, w, move), s.workers[i])
    {
      OtherStaysHonest(c, s, w, move, i);
    }
    RowsStayHonest(c, s, w, move);
  }

  lemma BeginIsHonest(c: Config, s: State, w: nat)
    requires Inv(c, s) && Honest(c, s) && w < |s.workers| && s.workers[w].Claimed?
    ensures Honest(c, Take(c, s, w, Begin))
  {
    var t := Take(c, s, w, Begin);
    assert WorkerOk(c, s, s.workers[w]);
    OthersStayHonest(c, s, w, Begin);
    TakeFrame(c, s, w, Begin);
    assert t.outcomes == s.outcomes;
    assert !Logged(t, Subject(s.workers[w]));
    assert WorkerTold(c, t, t.workers[w]);
  }

  lemma FinishIsHonest(c: Config, s: State, w: nat, outcome: ServiceOutcome)
    requires Inv(c, s) && Honest(c, s) && w < |s.workers| && s.workers[w].Executing?
    ensures Honest(c, Take(c, s, w, Finish(outcome)))
  {
    var t, id := Take(c, s, w, Finish(outcome)), Subject(s.workers[w]);
    assert WorkerTold(c, s, s.workers[w]);
    OthersStayHonest(c, s, w, Finish(outcome));
    TakeFrame(c, s, w, Finish(outcome));
    assert t.outcomes[|s.outcomes|] == (id, outcome) && Carries(c, id, outcome, t.workers[w].reply);
    assert WorkerTold(c, t, t.workers[w]);
  }

  lemma CompleteIsHonest(c: Config, s: State, w: nat, fault: Fault)
    requires Inv(c, s) && Honest(c, s) && w < |s.workers| && s.workers[w].Replied?
    ensures Honest(c, Take(c, s, w, Complete(fault)))
  {
    var t, own := Take(c, s, w, Complete(fault)), Subject(s.workers[w]);
    assert WorkerTold(c, s, s.workers[w]);
    TakeIsForward(c, s, w, Complete(fault));
    TakeFrame(c, s, w, Complete(fault));
    assert t.started == s.started && t.outcomes == s.outcomes;
    forall id
      ensures RowTold(c, t, id)
    {
      assert RowTold(c, s, id) && RowsOk(s.db, id);
      if id != own {
        SameElsewhere(s.db, t.db, own, id);
      }
    }
    forall i | 0 <= i < |t.workers|
      ensures WorkerTold(c, t, t.workers[i])
    {
      assert WorkerTold(c, s, s.workers[i]);
      assert forall id :: Logged(t, id) <==> Logged(s, id);
    }
  }

  lemma OtherMoveIsHonest(c: Config, s: State, w: nat, move: Move)
    requires Inv(c, s) && Honest(c, s) && w < |s.workers| && !move.Begin? && !move.Finish? && !move.Complete?
    ensures Honest(c, Take(c, s, w, move))
  {
    var t := Take(c, s, w, move);
    OthersStayHonest(c, s, w, move);
    TakeFrame(c, s, w, move);
    assert t.started == s.started && t.outcomes == s.outcomes;
    assert t.workers[w] == s.workers[w] || (!t.workers[w].Executing? && !t.workers[w].Replied?);
    if t.workers[w] == s.workers[w] {
      assert WorkerTold(c, s, s.workers[w]);
      assert forall id :: Logged(t, id) <==> Logged(s, id);
    }
  }

  lemma StepIsHonest(c: Config, s: State, a: Action)
    requires Inv(c, s) && Honest(c, s)
    ensures Honest(c, Apply(c, s, a))
  {
    var t := Apply(c, s, a);
    if a.Step? && a.w < |s.workers| && t != s {
      match a.move {
        case Begin => BeginIsHonest(c, s, a.w);
        case Finish(outcome) => FinishIsHonest(c, s, a.w, outcome);
        case Complete(fault) => CompleteIsHonest(c, s, a.w, fault);
        case _ => OtherMoveIsHonest(c, s, a.w, a.move);
      }
    } else {
      assert t.db == s.db && t.workers == s.workers && t.started == s.started && t.outcomes == s.outcomes;
      assert forall id :: Logged(t, id) <==> Logged(s, id);
      assert forall id, reply :: Told(c, t, id, reply) <==> Told(c, s, id, reply);
      assert forall id :: RowTold(c, s, id) ==> RowTold(c, t, id);
      assert forall i :: 0 <= i < |s.workers| ==> WorkerTold(c, s, s.workers[i]) ==> WorkerTold(c, t, t.workers[i]);
    }
  }

  lemma {:induction false} RunsAreHonest(c: Config, s: State, actions: seq<Action>)
    requires Inv(c, s) && Honest(c, s)
    ensures Honest(c, Run(c, s, actions))
    decreases |actions|
  {
    if actions != [] {
      StepIsHonest(c, s, actions[0]);
      ApplyKeepsInv(c, s, actions[0]);
      RunsAreHonest(c, Apply(c, s, actions[0]), actions[1..]);
    }
  }

  /**
   Over every run, a completed row says exactly what became of its operation. If it was never started:
   `invalid_request`. If it was: its one logged outcome, a result as that result and nothing else, a failure as its
   code, and a timeout as `operation_timeout`.
   */
  lemma ResultsTellTheOutcome(c: Config, workers: nat, now: nat, actions: seq<Action>, id: string)
    requires var s := Run(c, Init(workers, now), actions); id in s.db.inbox && s.db.inbox[id].status == Completed
    ensures var s := Run(c, Init(workers, now), actions);
            var stored := s.db.inbox[id].resultJson;
            && (id !in s.started ==>
                  stored == Some(c.encodeReply(OperationReply(Some(id), None, Some("invalid_request")))))
            && (id in s.started ==>
                  exists k :: 0 <= k < |s.outcomes| && s.outcomes[k].0 == id &&
                    match s.outcomes[k].1
                    case Returned(result) => stored == Some(c.encodeReply(OperationReply(Some(id), Some(result), None)))
                    case Failed(code) => stored == Some(c.encodeReply(OperationReply(Some(id), None, Some(code))))
                    case TimedOut =>
                      stored == Some(c.encodeReply(OperationReply(Some(id), None, Some("operation_timeout")))))
            && (forall i, j :: 0 <= i < j < |s.outcomes| ==> s.outcomes[i].0 != s.outcomes[j].0)
  {
    var s := Run(c, Init(workers, now), actions);
    InitInv(c, workers, now);
    RunsAreHonest(c, Init(workers, now), actions);
    assert RowTold(c, s, id);
  }

  // ---------------------------------------------------------------- refusals have a reason

  /** A row of the message's operation exists, and whether it is this message's own. */
  predicate HasRow(c: Config, s: State, payload: Bytes, own: bool) {
    && c.parse(payload).Some?
    && var e := c.parse(payload).value.envelope;
       && e.operationId in s.db.inbox
       && var row := s.db.inbox[e.operationId];
          own <==> row.subject == e.subject && row.requestHash == Fingerprint(c.rules, payload)
  }

  /** `Nak` means come back later, `Term` never: the message was inadmissible, or another one has its operation. */
  ghost predicate Justified(c: Config, s: State, payload: Bytes, kind: AnswerKind) {
    match kind
    case Ack => true
    case Nak => HasRow(c, s, payload, true)
    case Term => HasRow(c, s, payload, false) || exists at: nat :: at <= s.now && Admit(c, payload, at).None?
  }

  ghost predicate WorkerJustified(c: Config, s: State, i: nat) {
    i < |s.workers| && s.workers[i].Refusing? ==> Justified(c, s, s.workers[i].payload, s.workers[i].kind)
  }

  ghost predicate AllJustified(c: Config, s: State) {
    && (forall i :: WorkerJustified(c, s, i))
    && (forall a :: a in s.answers ==> Justified(c, s, a.payload, a.kind))
  }

  lemma ReasonsLast(c: Config, s: State, a: Action, payload: Bytes, kind: AnswerKind)
    requires Inv(c, s) && Justified(c, s, payload, kind)
    ensures Justified(c, Apply(c, s, a), payload, kind)
  {
    if a.Step? && a.w < |s.workers| {
      var own, t := Subject(s.workers[a.w]), Take(c, s, a.w, a.move);
      TakeIsForward(c, s, a.w, a.move);
      if kind != Ack && c.parse(payload).Some? {
        var id := c.parse(payload).value.envelope.operationId;
        if id != own {
          SameElsewhere(s.db, t.db, own, id);
        }
      }
    }
  }

  /** A refusal is justified when it arises. */
  lemma RefusalsArise(c: Config, s: State, w: nat, move: Move)
    requires Inv(c, s) && w < |s.workers| && WorkerJustified(c, s, w)
    ensures WorkerJustified(c, Take(c, s, w, move), w)
  {
    var wk, t := s.workers[w], Take(c, s, w, move);
    assert WorkerOk(c, s, wk);
    if wk.Admitted? {
      FingerprintIsHashText(c.rules, wk.payload);
    }
    if wk.Received? && move.Validate? && t.workers[w].Refusing? {
      assert Admit(c, wk.payload, s.now).None? && t.now == s.now;
    }
  }

  /** A worker that does not move keeps its reason. */
  lemma WorkerIsJustified(c: Config, s: State, a: Action, i: nat)
    requires Inv(c, s) && WorkerJustified(c, s, i)
    ensures WorkerJustified(c, Apply(c, s, a), i)
  {
    if i < |s.workers| && a.Step? && a.w == i {
      RefusalsArise(c, s, i, a.move);
    } else {
      if a.Step? && a.w < |s.workers| {
        TakeFrame(c, s, a.w, a.move);
      }
      if i < |s.workers| && s.workers[i].Refusing? {
        ReasonsLast(c, s, a, s.workers[i].payload, s.workers[i].kind);
      }
    }
  }

  lemma StepIsJustified(c: Config, s: State, a: Action)
    requires Inv(c, s) && AllJustified(c, s)
    ensures AllJustified(c, Apply(c, s, a))
  {
    var t := Apply(c, s, a);
    forall x | x in t.answers
      ensures Justified(c, t, x.payload, x.kind)
    {
      assert x !in s.answers ==> WorkerJustified(c, s, a.w);
      ReasonsLast(c, s, a, x.payload, x.kind);
    }
    forall i
      ensures WorkerJustified(c, t, i)
    {
      WorkerIsJustified(c, s, a, i);
    }
  }

  lemma {:induction false} RunsAreJustified(c: Config, s: State, actions: seq<Action>)
    requires Inv(c, s) && AllJustified(c, s)
    ensures AllJustified(c, Run(c, s, actions))
    decreases |actions|
  {
    if actions != [] {
      StepIsJustified(c, s, actions[0]);
      ApplyKeepsInv(c, s, actions[0]);
      RunsAreJustified(c, Apply(c, s, actions[0]), actions[1..]);
    }
  }

  /**
   Over every run: a message that was sent back for later is one whose operation it has claimed itself, and a message
   that was terminated was inadmissible at some instant, or its operation belongs to another subject or other content.
   */
  lemma RefusalsHaveAReason(c: Config, workers: nat, now: nat, actions: seq<Action>, a: Answer)
    requires a in Run(c, Init(workers, now), actions).answers && a.kind != Ack
    ensures var s := Run(c, Init(workers, now), actions);
            match a.kind
            case Ack => true
            case Nak =>
              && c.parse(a.payload).Some?
              && var e := c.parse(a.payload).value.envelope;
                 && e.operationId in s.db.inbox && s.db.inbox[e.operationId].subject == e.subject
                 && s.db.inbox[e.operationId].requestHash == Fingerprint(c.rules, a.payload)
            case Term =>
              || (exists at: nat :: at <= s.now && Admit(c, a.payload, at).None?)
              || (&& c.parse(a.payload).Some?
                  && var e := c.parse(a.payload).value.envelope;
                     && e.operationId in s.db.inbox
                     && (s.db.inbox[e.operationId].subject != e.subject
                         || s.db.inbox[e.operationId].requestHash != Fingerprint(c.rules, a.payload)))
  {
    InitInv(c, workers, now);
    RunsAreJustified(c, Init(workers, now), actions);
  }
}
