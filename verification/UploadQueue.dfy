/**
 `processUploadJob_` as the program it is: a status query, then a loop of chunk PUTs, over the persisted job and the
 server's sessions (apps-script/src/06_UploadQueue.gs). Its effects are a run of the upload machine.
 */
module UploadQueue {
  import opened Prelude
  import opened Upload

  const MAX_CHUNKS_PER_RUN: int := 6

  /**
   The environment of one round: the server, Drive, whether a new session can be opened, whether the deadline has
   passed.
   */
  datatype Env = Env(server: ServerMove, drive: DriveMove, initialized: bool, late: bool)

  /** A round without faults: Drive delivers, the server keeps whole chunks, and there is time left. */
  predicate Smooth(e: Env) {
    && e.server.Finish? && e.server.count >= CHUNK && e.server.video.Identified?
    && e.drive.Partial? && e.drive.count >= CHUNK
    && !e.late
  }

  /**
   The argument as `Number(maxChunks || 6)` reads it: nothing or another falsy value, a number, text that reads as a
   number (which is not falsy even at zero), or text that does not. An infinite number acts as any other beyond the
   bounds.
   */
  datatype Requested = Missing | Numeric(n: real) | NumericText(n: real) | NotANumber

  function Ceiling(x: real): (n: int)
    ensures n as real - 1.0 < x <= n as real
  {
    -(-x).Floor
  }

  function ClampedLimit(x: real): real {
    if x < 1.0 then 1.0 else if x > 12.0 then 12.0 else x
  }

  /** The loop's test on its counter. */
  predicate RoundStarts(processed: nat, limit: real) {
    processed as real < ClampedLimit(limit)
  }

  function RequestedLimit(maxChunks: Requested): Option<real> {
    match maxChunks
    case Missing => Some(MAX_CHUNKS_PER_RUN as real)
    case Numeric(n) => Some(if n == 0.0 then MAX_CHUNKS_PER_RUN as real else n)
    case NumericText(n) => Some(n)
    case NotANumber => None
  }

  /** The least whole number of rounds that covers `x`, but at least one and at most twelve. */
  predicate IsClampedCeiling(limit: nat, x: real) {
    if x <= 1.0 then limit == 1
    else if x >= 12.0 then limit == 12
    else limit as real - 1.0 < x <= limit as real
  }

  /** Rounds that may start: the counter runs over whole numbers below the limit, and over none below no number. */
  function ChunkLimit(maxChunks: Requested): (limit: nat)
    ensures limit <= 12
    ensures forall n: nat :: n < limit <==>
                             RequestedLimit(maxChunks).Some? && RoundStarts(n, RequestedLimit(maxChunks).value)
    ensures match maxChunks
            case Missing => limit == 6
            case Numeric(x) => if x == 0.0 then limit == 6 else IsClampedCeiling(limit, x)
            case NumericText(x) => IsClampedCeiling(limit, x)
            case NotANumber => limit == 0
  {
    if RequestedLimit(maxChunks).None? then 0 else Ceiling(ClampedLimit(RequestedLimit(maxChunks).value))
  }

  function Puts(actions: seq<Action>): nat {
    if actions == [] then 0
    else Puts(actions[..|actions| - 1]) + if actions[|actions| - 1].Send? then 1 else 0
  }

  /** Chunks needed for this many bytes: the quotient rounded up. */
  function Chunks(bytes: nat): nat {
    (bytes + CHUNK - 1) / CHUNK
  }

  lemma {:induction false} PutsAppend(a: seq<Action>, b: seq<Action>)
    ensures Puts(a + b) == Puts(a) + Puts(b)
  {
    if b == [] {
      assert a + b == a;
    } else {
      assert (a + b)[..|a + b| - 1] == a + b[..|b| - 1];
      PutsAppend(a, b[..|b| - 1]);
    }
  }

  /** Two stretches of one run, joined. */
  lemma Join(w: World, a: seq<Action>, b: seq<Action>)
    ensures Run(w, a + b) == Run(Run(w, a), b)
    ensures Puts(a + b) == Puts(a) + Puts(b)
    ensures NoOverwrite(a) && NoOverwrite(b) ==> NoOverwrite(a + b)
    ensures Inv(w) ==> Inv(Run(w, a + b)) && Inv(Run(w, a))
  {
    RunAppend(w, a, b);
    PutsAppend(a, b);
    if Inv(w) {
      RunKeepsInv(w, a + b);
      RunKeepsInv(w, a);
    }
  }

  lemma RunOfOne(w: World, a: Action)
    ensures Run(w, [a]) == Apply(w, a)
    ensures Puts([a]) == if a.Send? then 1 else 0
  {
    OneMore(w, [], a);
    assert [] + [a] == [a] && [a][..0] == [];
  }

  lemma RunOfTwo(w: World, a: Action, b: Action)
    ensures Run(w, [a, b]) == Apply(Apply(w, a), b)
    ensures Puts([a, b]) == (if a.Send? then 1 else 0) + (if b.Send? then 1 else 0)
  {
    OneMore(w, [], a);
    OneMore(w, [a], b);
    assert [] + [a] == [a] && [a] + [b] == [a, b];
    PutsAppend([], [a]);
    PutsAppend([a], [b]);
    assert [a][..0] == [] && [b][..0] == [];
  }

  lemma RunOfThree(w: World, a: Action, b: Action, c: Action)
    ensures Run(w, [a, b, c]) == Apply(Apply(Apply(w, a), b), c)
    ensures Puts([a, b, c]) == (if a.Send? then 1 else 0) + (if b.Send? then 1 else 0) + (if c.Send? then 1 else 0)
  {
    RunOfTwo(w, a, b);
    OneMore(w, [a, b], c);
    PutsAppend([a, b], [c]);
    assert [a, b] + [c] == [a, b, c] && [c][..0] == [];
  }

  /** The error codes a run can end with; a body that is not JSON raises an error without one. */
  datatype Problem = JobCancelled | DriveRange | UploadInit | UploadRefused | StatusRefused | NotJson

  datatype PutOutcome = Continued | Accepted | Troubled | Errored(problem: Problem)

  /** Why a run that has had the effects `done` fails now: by the server's last answer, or by Drive's. */
  ghost predicate Causes(w: World, done: seq<Action>, problem: Problem) {
    var run := Run(w, done).run;
    && run.Some?
    && match run.value.heard
       case Some(Gone) => problem == UploadInit
       case Some(Garbled) => problem == NotJson
       case Some(Refused) =>
         done != [] && problem == if done[|done| - 1].Query? then StatusRefused else UploadRefused
       case _ => problem == DriveRange
  }

  /** The run has ended in its catch block, for this reason. */
  ghost predicate FailsBy(w: World, t: seq<Action>, problem: Problem) {
    exists done :: FailsAfter(w, t, done, problem)
  }

  ghost predicate FailsAfter(w: World, t: seq<Action>, done: seq<Action>, problem: Problem) {
    t == done + [Fail] && Fail !in done && Causes(w, done, problem)
  }

  lemma CausesLater(w: World, first: seq<Action>, rest: seq<Action>, problem: Problem)
    requires Causes(Run(w, first), rest, problem)
    ensures Causes(w, first + rest, problem)
  {
    RunAppend(w, first, rest);
    if rest != [] {
      assert (first + rest)[|first + rest| - 1] == rest[|rest| - 1];
    }
  }

  lemma FailsLater(w: World, first: seq<Action>, rest: seq<Action>, problem: Problem)
    requires Fail !in first && FailsBy(Run(w, first), rest, problem)
    ensures FailsBy(w, first + rest, problem)
  {
    var done :| FailsAfter(Run(w, first), rest, done, problem);
    CausesLater(w, first, done, problem);
    assert FailsAfter(w, first + rest, first + done, problem);
  }

  /** How a run has ended: without failing, or in its catch block. */
  ghost predicate EndsWith(w: World, t: seq<Action>, problem: Option<Problem>) {
    if problem.None? then Fail !in t else FailsBy(w, t, problem.value)
  }

  class UploadJob {
    const backup: Bytes
    var stored: Job
    var sessions: seq<Session>

    function Snapshot(run: Option<RunState>): World
      reads this
    {
      World(backup, stored, run, sessions)
    }

    /** The world while a run holds `job` and has used the last answer. */
    function Running(job: Job): World
      reads this
    {
      Snapshot(Some(RunState(job, true, None)))
    }

    ghost predicate Valid()
      reads this
    {
      Inv(Snapshot(None))
    }

    constructor (backup: Bytes)
      ensures Valid() && Snapshot(None) == Init(backup)
    {
      this.backup, stored, sessions := backup, START, [Session([], Live)];
      new;
      RunKeepsInv(Init(backup), []);
    }

    /** The catch block: mark the persisted record and give up. */
    method HandleError(ghost run: RunState)
      modifies this`stored
      ensures Snapshot(None) == Apply(old(Snapshot(Some(run))), Fail)
    {
      stored := stored.(status := Failed);
    }

    /** Open a new session for the job and save it; without a new session the run fails. */
    method RestartSession(job: Job, initialized: bool)
      returns (problem: Option<Problem>, next: Job, ghost t: seq<Action>)
      requires job.url < |sessions|
      modifies this
      ensures NoOverwrite(t) && Puts(t) == 0
      ensures problem == if initialized then None else Some(UploadInit)
      ensures initialized ==>
                && next.url < |sessions| && Fail !in t
                && Running(next) == Run(old(Snapshot(Some(RunState(job, true, Some(Gone))))), t)
                && next == job.(url := |old(sessions)|, offset := 0) && stored == next
      ensures !initialized ==>
                && t == [Fail] && Snapshot(None) == Run(old(Snapshot(Some(RunState(job, true, Some(Gone))))), t)
                && stored == old(stored).(status := Failed)
    {
      ghost var w := Snapshot(Some(RunState(job, true, Some(Gone))));
      if !initialized {
        HandleError(RunState(job, true, Some(Gone)));
        RunOfOne(w, Fail);
        return Some(UploadInit), job, [Fail];
      }
      next := job.(url := |sessions|, offset := 0);
      sessions := sessions + [Session([], Live)];
      stored := next;
      problem, t := None, [Restart, Save];
      RunOfTwo(w, Restart, Save);
    }

    /** The status query: what it makes of each answer, and, against a live session, the exact position. */
    method SyncResumableUploadState(job: Job, e: Env)
      returns (problem: Option<Problem>, next: Job, ghost t: seq<Action>)
      requires job.url < |sessions|
      modifies this
      ensures NoOverwrite(t) && Puts(t) == 0 && Query(e.server) in t
      ensures EndsWith(old(Running(job)), t, problem)
      ensures problem.None? ==> next.url < |sessions| && stored == next && Running(next) == Run(old(Running(job)), t)
      ensures problem.Some? ==> Snapshot(None) == Run(old(Running(job)), t)
      ensures var session := old(sessions[job.url]);
              match Receive(session, |session.received|, [], |backup|, e.server).1
              case Resume(position) => problem == None && next == job.(offset := position)
              case Done(video) =>
                problem == None && next == job.(offset := |backup|, video := video, status := Finalizing)
              case Gone =>
                if e.initialized then problem == None && next == job.(url := |old(sessions)|, offset := 0)
                else problem == Some(UploadInit)
              case Trouble => problem == None && next == job
              case Garbled => problem == Some(NotJson)
              case Refused => problem == Some(StatusRefused)
      ensures Smooth(e) && old(sessions[job.url].phase) == Live ==>
                var got := |old(sessions[job.url].received)|;
                && problem == None && next.url == job.url
                && sessions[job.url].received == old(sessions[job.url].received)
                && if got == |backup|
                   then sessions[job.url].phase == Complete && next.status == Finalizing && next.video.Identified?
                   else sessions[job.url].phase == Live && next == job.(offset := got)
    {
      ghost var w, query := Running(job), Query(e.server);
      var (session, reply) := Receive(sessions[job.url], |sessions[job.url].received|, [], |backup|, e.server);
      sessions := sessions[job.url := session];
      assert Snapshot(Some(RunState(job, true, Some(reply)))) == Apply(w, query);
      var outcome;
      ghost var rest;
      outcome, next, rest := HandleReply(job, reply, e.initialized, StatusRefused);
      problem := if outcome.Errored? then Some(outcome.problem) else None;
      if outcome == Troubled {
        OneMore(Apply(w, query), rest, Save);
        PutsAppend(rest, [Save]);
        stored := next;
        rest := rest + [Save];
      }
      t := [query] + rest;
      RunOfOne(w, query);
      Join(w, [query], rest);
      FailsAtOnce(w, query, rest, outcome, reply);
    }

    /** One round of the loop up to its `continue`, `break` or `return`; after a 5xx the caller reconciles. */
    method PutChunk(job: Job, e: Env) returns (outcome: PutOutcome, next: Job, ghost t: seq<Action>)
      requires Inv(Running(job)) && job.offset < |backup|
      modifies this
      ensures NoOverwrite(t) && Puts(t) <= 1
      ensures EndsWith(old(Running(job)), t, if outcome.Errored? then Some(outcome.problem) else None)
      ensures !outcome.Errored? ==> Puts(t) == 1 && next.url < |sessions| && Running(next) == Run(old(Running(job)), t)
      ensures outcome.Errored? ==> Snapshot(None) == Run(old(Running(job)), t)
      ensures ReadChunk(backup, job.offset, e.drive).None? ==> outcome == Errored(DriveRange) && Puts(t) == 0
      ensures ReadChunk(backup, job.offset, e.drive).Some? ==>
                var body := ReadChunk(backup, job.offset, e.drive).value;
                match Receive(old(sessions[job.url]), job.offset, body, |backup|, e.server).1
                case Resume(position) => outcome == Continued && next == job.(offset := position)
                case Done(video) =>
                  outcome == Accepted && next == job.(offset := |backup|, video := video, status := Finalizing)
                case Gone =>
                  if e.initialized then outcome == Continued && next == job.(url := |old(sessions)|, offset := 0)
                  else outcome == Errored(UploadInit)
                case Trouble => outcome == Troubled && next == job
                case Garbled => outcome == Errored(NotJson)
                case Refused => outcome == Errored(UploadRefused)
      ensures outcome == Continued || outcome == Accepted ==> stored == next
      ensures Smooth(e) && old(InStep(Running(job))) ==>
                if job.offset + CHUNK >= |backup| then outcome == Accepted && Uploaded(job.url, next)
                else outcome == Continued && Ahead(job, next, 1)
    {
      ghost var w := Running(job);
      var end := ChunkEnd(job.offset, |backup|);
      var bytes := DriveBody(backup, job.offset, end, e.drive);
      if bytes.None? || |bytes.value| != end - job.offset + 1 {
        ChunkIsTheRange(backup, job.offset, e.drive);
        HandleError(RunState(job, true, None));
        RunOfOne(w, Fail);
        assert FailsAfter(w, [Fail], [], DriveRange);
        return Errored(DriveRange), job, [Fail];
      }
      outcome, next, t := PutBody(job, e, bytes.value);
    }

    /** The PUT of a chunk that has been read, and what follows its answer. */
    method PutBody(job: Job, e: Env, body: Bytes) returns (outcome: PutOutcome, next: Job, ghost t: seq<Action>)
      requires Inv(Running(job)) && job.offset < |backup| && ReadChunk(backup, job.offset, e.drive) == Some(body)
      modifies this
      ensures NoOverwrite(t) && Puts(t) == 1
      ensures EndsWith(old(Running(job)), t, if outcome.Errored? then Some(outcome.problem) else None)
      ensures !outcome.Errored? ==> next.url < |sessions| && Running(next) == Run(old(Running(job)), t)
      ensures outcome.Errored? ==> Snapshot(None) == Run(old(Running(job)), t) && stored.status == Failed
      ensures match Receive(old(sessions[job.url]), job.offset, body, |backup|, e.server).1
              case Resume(position) => outcome == Continued && next == job.(offset := position)
              case Done(video) =>
                outcome == Accepted && next == job.(offset := |backup|, video := video, status := Finalizing)
              case Gone =>
                if e.initialized then outcome == Continued && next == job.(url := |old(sessions)|, offset := 0)
                else outcome == Errored(UploadInit)
              case Trouble => outcome == Troubled && next == job
              case Garbled => outcome == Errored(NotJson)
              case Refused => outcome == Errored(UploadRefused)
      ensures outcome == Continued || outcome == Accepted ==> stored == next
      ensures Smooth(e) && old(InStep(Running(job))) ==>
                if job.offset + CHUNK >= |backup| then outcome == Accepted && Uploaded(job.url, next)
                else outcome == Continued && Ahead(job, next, 1)
    {
      ghost var w := Running(job);
      ghost var send := Send(e.drive, e.server);
      if Smooth(e) && InStep(w) {
        SmoothPut(w, e);
      }
      var (session, reply) := Receive(sessions[job.url], job.offset, body, |backup|, e.server);
      sessions := sessions[job.url := session];
      assert Snapshot(Some(RunState(job, true, Some(reply)))) == Apply(w, send);
      ghost var rest;
      outcome, next, rest := HandleReply(job, reply, e.initialized, UploadRefused);
      t := [send] + rest;
      RunOfOne(w, send);
      Join(w, [send], rest);
      FailsAtOnce(w, send, rest, outcome, reply);
    }

    /** What a chunk PUT and a status query alike make of an answer; only a 5xx is left to the caller. */
    method HandleReply(job: Job, reply: Reply, initialized: bool, refusal: Problem)
      returns (outcome: PutOutcome, next: Job, ghost t: seq<Action>)
      requires job.url < |sessions|
      modifies this
      ensures NoOverwrite(t) && Puts(t) == 0
      ensures !outcome.Errored? ==>
                && next.url < |sessions| && Fail !in t
                && Running(next) == Run(old(Snapshot(Some(RunState(job, true, Some(reply))))), t)
      ensures outcome.Errored? ==>
                t == [Fail] && Snapshot(None) == Run(old(Snapshot(Some(RunState(job, true, Some(reply))))), t)
      ensures match reply
              case Done(video) =>
                outcome == Accepted && next == job.(offset := |backup|, video := video, status := Finalizing)
              case Resume(position) => outcome == Continued && next == job.(offset := position)
              case Gone =>
                if initialized then outcome == Continued && next == job.(url := |old(sessions)|, offset := 0)
                else outcome == Errored(UploadInit)
              case Trouble => outcome == Troubled && next == job
              case Garbled => outcome == Errored(NotJson)
              case Refused => outcome == Errored(refusal)
      ensures !reply.Gone? ==> sessions == old(sessions)
      ensures outcome == Troubled ==> stored == old(stored)
      ensures outcome.Errored? ==> stored == old(stored).(status := Failed)
      ensures outcome == Accepted || outcome == Continued ==> stored == next
    {
      ghost var w := Snapshot(Some(RunState(job, true, Some(reply))));
      match reply {
        case Gone =>
          var problem;
          problem, next, t := RestartSession(job, initialized);
          outcome := if problem.None? then Continued else Errored(problem.value);
        case Garbled =>
          HandleError(RunState(job, true, Some(reply)));
          RunOfOne(w, Fail);
          return Errored(NotJson), job, [Fail];
        case Refused =>
          HandleError(RunState(job, true, Some(reply)));
          RunOfOne(w, Fail);
          return Errored(refusal), job, [Fail];
        case Trouble =>
          RunOfOne(w, Learn);
          return Troubled, job, [Learn];
        case _ =>
          next := Informed(job, reply, |backup|);
          stored := next;
          outcome, t := if reply.Done? then Accepted else Continued, [Learn, Save];
          RunOfTwo(w, Learn, Save);
      }
    }

    /** Set the final status of a run, save it and end the run. */
    method Conclude(job: Job, status: JobStatus) returns (ghost t: seq<Action>)
      requires status == Queued || (status == Completed && job.video.Identified?)
      modifies this`stored
      ensures t == [SetStatus(status), Save, Stop] && Puts(t) == 0 && NoOverwrite(t) && Fail !in t
      ensures Snapshot(None) == Run(old(Running(job)), t)
      ensures stored == job.(status := status)
    {
      RunOfThree(Running(job), SetStatus(status), Save, Stop);
      stored := job.(status := status);
      t := [SetStatus(status), Save, Stop];
    }

    /** `finalizeUploadJob_` as far as the upload is concerned, or back to the queue when the video has no id. */
    method FinishRun(job: Job) returns (ghost t: seq<Action>)
      modifies this`stored
      ensures |t| == 3 && Puts(t) == 0 && NoOverwrite(t) && Fail !in t
      ensures Snapshot(None) == Run(old(Running(job)), t)
      ensures stored == job.(status := if job.offset >= |backup| && job.video.Identified? then Completed else Queued)
    {
      if job.offset >= |backup| && job.video.Identified? {
        t := Conclude(job, Completed);
      } else {
        t := Conclude(job, Queued);
      }
    }

    /** The run that started in `w` has had the effects `t`; it still holds `job`, or it is over. */
    ghost predicate Holding(w: World, t: seq<Action>, job: Job)
      reads this
    {
      NoOverwrite(t) && Fail !in t && Running(job) == Run(w, t) && Inv(Running(job))
    }

    /** The run is over, without a failure or with this one. */
    ghost predicate Over(w: World, t: seq<Action>, problem: Option<Problem>)
      reads this
    {
      && NoOverwrite(t) && Snapshot(None) == Run(w, t) && EndsWith(w, t, problem)
      && (problem.Some? ==> stored.status == Failed)
    }

    /** What ended after a first stretch ended after both. */
    lemma OverAfterBoth(w: World, first: seq<Action>, rest: seq<Action>, problem: Option<Problem>)
      requires NoOverwrite(first) && Fail !in first && Over(Run(w, first), rest, problem)
      ensures Over(w, first + rest, problem) && Puts(first + rest) == Puts(first) + Puts(rest)
    {
      RunAppend(w, first, rest);
      PutsAppend(first, rest);
      if problem.Some? {
        FailsLater(w, first, rest, problem.value);
      }
    }

    lemma HoldingAfterBoth(w: World, first: seq<Action>, rest: seq<Action>, job: Job)
      requires NoOverwrite(first) && Fail !in first && Holding(Run(w, first), rest, job)
      ensures Holding(w, first + rest, job) && Puts(first + rest) == Puts(first) + Puts(rest)
    {
      RunAppend(w, first, rest);
      PutsAppend(first, rest);
    }

    /** In step with its live session, `n` chunks further than `from`. */
    ghost predicate Ahead(from: Job, now: Job, n: nat)
      reads this
    {
      InStep(Running(now)) && now.url == from.url && now.offset == from.offset + Span(n)
    }

    /** The job's session holds the whole backup and the job knows its video. */
    ghost predicate Uploaded(url: nat, job: Job)
      reads this
    {
      && job.url == url < |sessions| && sessions[url] == Session(backup, Complete)
      && job.offset == |backup| && job.video.Identified?
    }

    /** The last of `n` chunks has just completed the session. */
    ghost predicate Sent(from: Job, now: Job, n: nat)
      reads this
    {
      Uploaded(from.url, now) && Span(n) - CHUNK < |backup| - from.offset <= Span(n)
    }

    function ProblemOf(outcome: PutOutcome): Option<Problem> {
      if outcome.Errored? then Some(outcome.problem) else None
    }

    /** A run that started in `w` is in its loop after `n` rounds, every one of them in time. */
    ghost predicate Looping(w: World, from: Job, env: nat -> Env, smooth: bool, t: seq<Action>, now: Job, n: nat)
      reads this
    {
      && Holding(w, t, now) && Puts(t) == n && InTime(env, n)
      && (smooth ==> Ahead(from, now, n))
    }

    /** One round of the loop, with the reconciliation and return that follow a 5xx. */
    method Round(ghost w: World, ghost from: Job, ghost smooth: bool, ghost before: seq<Action>, job: Job, n: nat,
                 env: nat -> Env)
      returns (outcome: PutOutcome, next: Job, ghost t: seq<Action>)
      requires Inv(w) && Looping(w, from, env, smooth, before, job, n) && job.offset < |backup| && !env(n + 1).late
      requires smooth ==> Smooth(env(n + 1))
      modifies this
      ensures InTime(env, Puts(t)) && Puts(t) <= n + 1
      ensures outcome == Continued ==> Looping(w, from, env, smooth, t, next, n + 1)
      ensures outcome == Accepted ==> Puts(t) == n + 1 && Holding(w, t, next) && next.offset == |backup|
      ensures outcome == Troubled || outcome.Errored? ==> !smooth && Over(w, t, ProblemOf(outcome))
      ensures outcome == Troubled ==> stored.status == Completed || stored.status == Queued
      ensures smooth ==>
                if job.offset + CHUNK >= |backup| then outcome == Accepted && Sent(from, next, n + 1)
                else outcome == Continued
    {
      ghost var more;
      outcome, next, more := PutOrReconcile(job, env(n + 1), env(n + 2));
      assert InTime(env, n + 1);
      if outcome == Continued || outcome == Accepted {
        HoldingAfterBoth(w, before, more, next);
      } else {
        OverAfterBoth(w, before, more, ProblemOf(outcome));
      }
      t := before + more;
    }

    /** A 5xx is followed by a status query and ends the run; every other answer is the caller's. */
    method PutOrReconcile(job: Job, e: Env, afterError: Env)
      returns (outcome: PutOutcome, next: Job, ghost t: seq<Action>)
      requires Inv(Running(job)) && job.offset < |backup|
      modifies this
      ensures Puts(t) <= 1
      ensures if outcome == Continued || outcome == Accepted then Puts(t) == 1 && Holding(old(Running(job)), t, next)
              else Over(old(Running(job)), t, ProblemOf(outcome))
      ensures outcome == Accepted ==> next.offset == |backup|
      ensures ReadChunk(backup, job.offset, e.drive).Some? ==>
                var body := ReadChunk(backup, job.offset, e.drive).value;
                Receive(old(sessions[job.url]), job.offset, body, |backup|, e.server).1 == Trouble ==>
                  Query(afterError.server) in t && (outcome == Troubled || outcome.Errored?)
      ensures outcome == Troubled ==> stored.status == Completed || stored.status == Queued
      ensures Smooth(e) && old(InStep(Running(job))) ==>
                if job.offset + CHUNK >= |backup| then outcome == Accepted && Uploaded(job.url, next)
                else outcome == Continued && Ahead(job, next, 1)
    {
      ghost var w := Running(job);
      outcome, next, t := PutChunk(job, e);
      RunKeepsInv(w, t);
      if outcome == Troubled {
        var problem;
        ghost var rest;
        problem, rest := Reconcile(next, afterError);
        OverAfterBoth(w, t, rest, problem);
        if problem.Some? {
          outcome := Errored(problem.value);
        }
        t := t + rest;
      }
    }

    /**
     The chunk loop. `ended` means that the run has ended inside it, in its catch block or after a 5xx. No chunk is sent
     after the deadline, and nothing but the limit or the deadline stops the loop short of the last byte.
     */
    method ChunkLoop(job: Job, limit: nat, env: nat -> Env)
      returns (ended: bool, problem: Option<Problem>, now: Job, ghost t: seq<Action>)
      requires Inv(Running(job))
      modifies this
      ensures Puts(t) <= limit && (problem.Some? ==> ended)
      ensures if ended then Over(old(Running(job)), t, problem) else Holding(old(Running(job)), t, now)
      ensures ended && problem.None? ==> stored.status == Completed || stored.status == Queued
      ensures InTime(env, Puts(t))
      ensures !ended && now.offset < |backup| ==> Puts(t) == limit || env(Puts(t) + 1).late
      ensures (forall n :: Smooth(env(n))) && old(InStep(Running(job))) ==>
                && !ended
                && if now.offset == |backup|
                   then Sent(job, now, Puts(t))
                   else Ahead(job, now, Puts(t)) && Puts(t) == limit
    {
      ghost var w := Running(job);
      ghost var smooth := (forall n :: Smooth(env(n))) && InStep(w);
      var processed := 0;
      now, t, ended, problem := job, [], false, None;
      while now.offset < |backup| && processed < limit && !env(processed + 1).late
        invariant processed <= limit
        invariant Looping(w, job, env, smooth, t, now, processed)
        decreases limit - processed
      {
        var outcome, next;
        outcome, next, t := Round(w, job, smooth, t, now, processed, env);
        if outcome == Troubled || outcome.Errored? {
          ended, problem := true, ProblemOf(outcome);
          return;
        }
        processed := processed + 1;
        now := next;
        if outcome == Accepted {
          return;
        }
      }
    }

    /** A run without faults has moved the session by `puts` whole chunks and filed the job accordingly. */
    ghost predicate Advanced(url: nat, had: nat, puts: nat)
      reads this
    {
      && stored.url == url < |sessions|
      && |sessions[url].received| == Min(|backup|, had + Span(puts))
      && stored.status == (if had + Span(puts) >= |backup| then Completed else Queued)
      && sessions[url].phase == (if had + Span(puts) >= |backup| then Complete else Live)
    }

    /** The chunk loop and the end of the run. */
    method SendChunks(job: Job, limit: nat, env: nat -> Env) returns (problem: Option<Problem>, ghost t: seq<Action>)
      requires Inv(Running(job))
      modifies this
      ensures Puts(t) <= limit && Over(old(Running(job)), t, problem)
      ensures problem.None? ==> stored.status == Completed || stored.status == Queued
      ensures InTime(env, Puts(t))
      ensures (forall n :: Smooth(env(n))) && old(InStep(Running(job))) ==>
                && problem == None
                && Puts(t) == Min(limit, Chunks(|backup| - job.offset)) && Advanced(job.url, job.offset, Puts(t))
    {
      ghost var w := Running(job);
      var ended, now;
      ended, problem, now, t := ChunkLoop(job, limit, env);
      if ended {
        return;
      }
      ChunkCount(Max(|backup| - job.offset, 0), Puts(t));
      var rest := FinishRun(now);
      OverAfterBoth(w, t, rest, None);
      t := t + rest;
    }

    /**
     After a 5xx: ask for the position, finish if the video turns out to be there, and otherwise wait for the trigger.
     */
    method Reconcile(job: Job, e: Env) returns (problem: Option<Problem>, ghost t: seq<Action>)
      requires job.url < |sessions|
      modifies this
      ensures Puts(t) == 0 && Query(e.server) in t && Over(old(Running(job)), t, problem)
      ensures var session := old(sessions[job.url]);
              match Receive(session, |session.received|, [], |backup|, e.server).1
              case Resume(position) => problem == None && stored == Filed(job.(offset := position))
              case Done(video) =>
                problem == None && stored == Filed(job.(offset := |backup|, video := video, status := Finalizing))
              case Gone =>
                if e.initialized then problem == None && stored == Filed(job.(url := |old(sessions)|, offset := 0))
                else problem == Some(UploadInit)
              case Trouble => problem == None && stored == Filed(job)
              case Garbled => problem == Some(NotJson)
              case Refused => problem == Some(StatusRefused)
    {
      ghost var w := Running(job);
      var next;
      problem, next, t := SyncResumableUploadState(job, e);
      if problem.Some? {
        return;
      }
      ghost var rest;
      if next.status == Finalizing && next.video.Identified? {
        rest := Conclude(next, Completed);
      } else {
        rest := Conclude(next, Queued);
      }
      OverAfterBoth(w, t, rest, None);
      t := t + rest;
    }

    /** A reconciled job: finish it if its video is there, and otherwise send chunks. */
    method UploadReconciled(job: Job, limit: nat, env: nat -> Env)
      returns (problem: Option<Problem>, ghost t: seq<Action>)
      requires Inv(Running(job))
      modifies this
      ensures Puts(t) <= limit && Over(old(Running(job)), t, problem)
      ensures problem.None? ==> stored.status == Completed || stored.status == Queued
      ensures InTime(env, Puts(t))
      ensures job.status == Finalizing && job.video.Identified? ==>
                && Puts(t) == 0 && problem == None
                && stored == job.(status := Completed) && sessions == old(sessions)
      ensures (forall n :: Smooth(env(n))) && job.status != Finalizing && old(InStep(Running(job))) ==>
                && problem == None
                && Puts(t) == Min(limit, Chunks(|backup| - job.offset)) && Advanced(job.url, job.offset, Puts(t))
    {
      problem := None;
      if job.status == Finalizing && job.video.Identified? {
        t := Conclude(job, Completed);
      } else {
        problem, t := SendChunks(job, limit, env);
      }
    }

    /** The status query of a loaded job, as the start of its run. */
    method AskPosition(job: Job, e: Env) returns (problem: Option<Problem>, next: Job, ghost t: seq<Action>)
      requires Inv(Running(job)) && job.status == Uploading
      modifies this
      ensures Puts(t) == 0 && Query(e.server) in t
      ensures if problem.Some? then Over(old(Running(job)), t, problem) else Holding(old(Running(job)), t, next)
      ensures Smooth(e) && old(sessions[job.url].phase) == Live ==>
                var got := |old(sessions[job.url].received)|;
                && problem == None && next.url == job.url
                && if got == |backup|
                   then
                     && next.status == Finalizing && next.video.Identified?
                     && sessions[job.url] == Session(backup, Complete)
                   else next.status != Finalizing && next.offset == got && InStep(Running(next))
    {
      ghost var w := Running(job);
      assert SessionOk(w, w.sessions[job.url]);
      problem, next, t := SyncResumableUploadState(job, e);
      RunKeepsInv(w, t);
    }

    /** A loaded job: reconcile, then finish or send chunks. */
    method UploadLoaded(job: Job, limit: nat, env: nat -> Env)
      returns (problem: Option<Problem>, ghost t: seq<Action>)
      requires Inv(Running(job)) && job.status == Uploading
      modifies this
      ensures Puts(t) <= limit && Over(old(Running(job)), t, problem) && Query(env(0).server) in t
      ensures problem.None? ==> stored.status == Completed || stored.status == Queued
      ensures InTime(env, Puts(t))
      ensures (forall n :: Smooth(env(n))) && old(sessions[job.url].phase) == Live ==>
                var had := |old(sessions[job.url].received)|;
                && problem == None
                && Puts(t) == Min(limit, Chunks(|backup| - had)) && Advanced(job.url, had, Puts(t))
    {
      ghost var w := Running(job);
      assert SessionOk(w, w.sessions[job.url]);
      var next;
      problem, next, t := AskPosition(job, env(0));
      if problem.Some? {
        return;
      }
      ghost var rest;
      problem, rest := UploadReconciled(next, limit, env);
      OverAfterBoth(w, t, rest, problem);
      t := t + rest;
    }

    /**
     One run. Its effects are a run of the machine without a second save, it sends at most twelve chunks whatever the
     server answers and none after the deadline, and without faults it moves the session forward by exactly the chunks
     its limit allows. It answers with the job as stored, and with an error exactly when it has ended in its catch
     block.
     */
    method ProcessUploadJob(maxChunks: Requested, env: nat -> Env)
      returns (r: Result<Job, Problem>, ghost t: seq<Action>)
      requires Valid()
      modifies this
      ensures Valid()
      ensures Puts(t) <= ChunkLimit(maxChunks) <= 12
      ensures NoOverwrite(t) && Snapshot(None) == Run(old(Snapshot(None)), t)
      ensures old(stored.status) == Completed ==> t == [] && r == Success(old(stored))
      ensures old(stored.status) == Cancelled ==> t == [] && r == Failure(JobCancelled)
      ensures old(stored.status) != Completed && old(stored.status) != Cancelled ==>
                && Query(env(0).server) in t
                && (r.Success? <==> Fail !in t)
                && (r.Success? ==> r.value == stored && (stored.status == Completed || stored.status == Queued))
                && (r.Failure? ==> stored.status == Failed && FailsBy(old(Snapshot(None)), t, r.error))
      ensures forall n :: 1 <= n <= Puts(t) ==> !env(n).late
      ensures (forall n :: Smooth(env(n))) && old(stored.status) != Completed && old(stored.status) != Cancelled
              && old(sessions[stored.url].phase) == Live ==>
                var had := |old(sessions[stored.url].received)|;
                && r == Success(stored)
                && Puts(t) == Min(ChunkLimit(maxChunks), Chunks(|backup| - had))
                && Advanced(old(stored.url), had, Puts(t))
    {
      ghost var w := Snapshot(None);
      if stored.status == Completed {
        return Success(stored), [];
      }
      if stored.status == Cancelled {
        return Failure(JobCancelled), [];
      }
      var job := stored.(status := Uploading);
      stored := job;
      RunOfOne(w, Load);
      RunKeepsInv(w, [Load]);
      var problem;
      ghost var rest;
      problem, rest := UploadLoaded(job, ChunkLimit(maxChunks), env);
      Join(w, [Load], rest);
      OverAfterBoth(w, [Load], rest, problem);
      InTimeMeans(env, Puts(rest));
      t := [Load] + rest;
      if problem.Some? {
        return Failure(problem.value), t;
      }
      r := Success(stored);
    }

    /**
     `puts` of the chunks `budget` allows for have been sent since the session held `had` bytes, and the trigger may go
     on.
     */
    ghost predicate Partway(url: nat, had: nat, puts: nat, budget: nat)
      reads this
    {
      && had <= |backup| && puts == Min(budget, Chunks(|backup| - had))
      && stored.url == url < |sessions|
      && |sessions[url].received| == Min(|backup|, had + Span(puts))
      && if Pending(stored.status) then sessions[url].phase == Live
         else stored.status == Completed && Advanced(url, had, puts) && puts == Chunks(|backup| - had)
    }

    /** One visit of the trigger, which only looks at pending jobs. */
    method VisitJob(ghost had: nat, ghost puts: nat, ghost budget: nat, env: nat -> Env) returns (ghost more: nat)
      requires Valid()
      modifies this
      ensures Valid() && more <= MAX_CHUNKS_PER_RUN
      ensures !Pending(old(stored.status)) ==> stored == old(stored) && sessions == old(sessions) && more == 0
      ensures (forall n :: Smooth(env(n))) && old(Partway(stored.url, had, puts, budget)) ==>
                && Partway(old(stored.url), had, puts + more, budget + MAX_CHUNKS_PER_RUN)
                && Advanced(old(stored.url), had, puts + more)
    {
      more := 0;
      ghost var left := Max(|backup| - had, 0);
      ChunksLeft(left, puts);
      if Pending(stored.status) {
        var r;
        ghost var t;
        r, t := ProcessUploadJob(Numeric(MAX_CHUNKS_PER_RUN as real), env);
        more := Puts(t);
        ChunksLeft(left, puts + more);
      }
    }

    /**
     Successive visits of the trigger to this job. It leaves alone what it does not look for, a job killed while
     `finalizing` included; and without faults it spreads exactly the chunks the backup still needs over its visits.
     */
    method ProcessAllPendingUploads(visits: nat, env: nat -> nat -> Env) returns (ghost puts: nat)
      requires Valid()
      modifies this
      ensures Valid() && puts <= visits * 6
      ensures old(stored.status) == Finalizing || old(stored.status) == Completed || old(stored.status) == Cancelled ==>
                stored == old(stored) && sessions == old(sessions) && puts == 0
      ensures (forall v, n :: Smooth(env(v)(n)))
              && old(stored.status == Queued || stored.status == Uploading || stored.status == Failed)
              && old(sessions[stored.url].phase) == Live && visits > 0 ==>
                var had := |old(sessions[stored.url].received)|;
                && had <= |backup|
                && puts == Min(visits * 6, Chunks(|backup| - had))
                && Advanced(old(stored.url), had, puts)
    {
      ghost var url, had := stored.url, |sessions[stored.url].received|;
      ghost var smooth := (forall v, n :: Smooth(env(v)(n))) && Pending(stored.status) && sessions[url].phase == Live;
      assert SessionOk(Snapshot(None), sessions[url]);
      puts := 0;
      for visit := 0 to visits
        invariant Valid() && puts <= visit * MAX_CHUNKS_PER_RUN
        invariant !Pending(old(stored.status)) ==> stored == old(stored) && sessions == old(sessions) && puts == 0
        invariant smooth ==>
            Partway(url, had, puts, visit * MAX_CHUNKS_PER_RUN) && (visit > 0 ==> Advanced(url, had, puts))
      {
        ghost var more := VisitJob(had, puts, visit * MAX_CHUNKS_PER_RUN, env(visit));
        puts := puts + more;
      }
    }
  }

  /** None of these rounds, the first of which is number 1, starts after the deadline. */
  predicate InTime(env: nat -> Env, rounds: nat) {
    rounds == 0 || (InTime(env, rounds - 1) && !env(rounds).late)
  }

  lemma {:induction false} InTimeMeans(env: nat -> Env, rounds: nat)
    requires InTime(env, rounds)
    ensures forall n :: 1 <= n <= rounds ==> !env(n).late
  {
    if rounds > 0 {
      InTimeMeans(env, rounds - 1);
    }
  }

  /** A run that ends on an answer files a job whose video is known as completed, and any other for the trigger. */
  function Filed(job: Job): Job {
    job.(status := if job.status == Finalizing && job.video.Identified? then Completed else Queued)
  }

  /** A failure right after one exchange is that exchange's. */
  lemma FailsAtOnce(w: World, exchange: Action, rest: seq<Action>, outcome: PutOutcome, reply: Reply)
    requires exchange.Query? || exchange.Send?
    requires Run(w, [exchange]).run.Some? && Run(w, [exchange]).run.value.heard == Some(reply)
    requires if outcome.Errored? then rest == [Fail] else Fail !in rest
    requires outcome.Errored? ==>
               match reply
               case Gone => outcome.problem == UploadInit
               case Garbled => outcome.problem == NotJson
               case Refused => outcome.problem == if exchange.Query? then StatusRefused else UploadRefused
               case _ => false
    ensures EndsWith(w, [exchange] + rest, if outcome.Errored? then Some(outcome.problem) else None)
  {
    if outcome.Errored? {
      assert FailsAfter(w, [exchange] + rest, [exchange], outcome.problem);
    }
  }

  /** Eight mebibytes a chunk, rounded up. */
  lemma ChunksAreRoundedUp(bytes: nat)
    ensures bytes <= Chunks(bytes) * 8_388_608 && Chunks(bytes) * 8_388_608 < bytes + 8_388_608
  {
  }

  /** What is left after `n` whole chunks needs `n` chunks fewer. */
  lemma ChunksLeft(bytes: nat, n: nat)
    ensures Span(n) <= bytes ==> Chunks(bytes - Span(n)) == Chunks(bytes) - n
    ensures bytes <= Span(n) <==> Chunks(bytes) <= n
  {
  }

  /** `n` chunks cover exactly the byte counts above `n - 1` chunks. */
  lemma ChunkCount(bytes: nat, n: nat)
    ensures Span(n) - CHUNK < bytes <= Span(n) ==> Chunks(bytes) == n
    ensures Span(n) < bytes ==> Chunks(bytes) > n
  {
  }

  lemma SmoothPut(w: World, e: Env)
    requires Smooth(e) && Inv(w) && InStep(w)
    ensures var job := w.run.value.job;
            var chunk := ReadChunk(w.backup, job.offset, e.drive);
            && chunk.Some?
            && var (s, reply) := Receive(w.sessions[job.url], job.offset, chunk.value, |w.backup|, e.server);
               if job.offset + CHUNK >= |w.backup|
               then s == Session(w.backup, Complete) && reply == Done(e.server.video)
               else s.phase == Live && |s.received| == job.offset + CHUNK && reply == Resume(job.offset + CHUNK)
  {
    var job := w.run.value.job;
    assert SessionOk(w, w.sessions[job.url]);
    ChunkIsTheRange(w.backup, job.offset, e.drive);
    var chunk := ReadChunk(w.backup, job.offset, e.drive).value;
    ReceiveKeepsPrefix(w.backup, w.sessions[job.url], job.offset, chunk, e.server);
  }
}
