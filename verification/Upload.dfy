/**
 The resumable upload of one job: the persisted job record, the record a run holds in memory, the Drive backup, and
 YouTube's resumable sessions as an honest but unreliable server (apps-script/src/06_UploadQueue.gs).

 The honesty assumptions are the body of `Receive`: a session appends bytes only where the request says they belong,
 never reports more than it holds, finishes only when it holds every byte, goes on answering 200 once it has finished,
 and never comes back once it has answered 404. Everything else is up to the server: how much of a chunk it keeps,
 when it fails, and when it forgets.
 */
module Upload {
  import opened Prelude

  /** Bytes in this many full chunks of eight mebibytes. */
  function Span(chunks: nat): nat {
    chunks * 0x80_0000
  }

  const CHUNK: nat := Span(1)
  const GRANULE: nat := 256 * 1024

  // ---------------------------------------------------------------- the server

  datatype Phase = Live | Expired | Complete

  datatype Session = Session(received: Bytes, phase: Phase)

  /** What a finished session's answer holds: no JSON at all, JSON without an `id`, or a video. */
  datatype Video = NoVideo | Unidentified | Identified(id: string)

  /** 308 with the bytes committed so far, 200 or 201 with and without JSON, 404, 5xx, and any other answer or none. */
  datatype Reply = Resume(position: nat) | Done(video: Video) | Garbled | Gone | Trouble | Refused

  /** The server's free choice for one request. */
  datatype ServerMove =
    | Keep(count: nat, report: nat)
    | Finish(count: nat, video: Video)
    | Forget
    | Stumble(count: nat, finished: bool)
    | Reject(count: nat, finished: bool)

  function Append(received: Bytes, at: nat, body: Bytes, count: nat): Bytes {
    if at <= |received| <= at + |body| then
      var rest := body[|received| - at..];
      received + rest[..Min(count, |rest|)]
    else received
  }

  function Finished(video: Video): Reply {
    if video == NoVideo then Garbled else Done(video)
  }

  function Receive(s: Session, at: nat, body: Bytes, total: nat, m: ServerMove): (Session, Reply) {
    match s.phase
    case Expired => (s, if m.Stumble? then Trouble else if m.Reject? then Refused else Gone)
    case Complete =>
      (s, if m.Stumble? then Trouble else if m.Reject? then Refused
          else if m.Finish? then Finished(m.video) else Done(Unidentified))
    case Live =>
      match m
      case Keep(count, report) =>
        var got := Append(s.received, at, body, count);
        (Session(got, Live), Resume(Min(report, |got|)))
      case Finish(count, video) =>
        var got := Append(s.received, at, body, count);
        if |got| == total then (Session(got, Complete), Finished(video)) else (Session(got, Live), Resume(|got|))
      case Forget => (s.(phase := Expired), Gone)
      case Stumble(count, finished) => (Unheard(Append(s.received, at, body, count), total, finished), Trouble)
      case Reject(count, finished) => (Unheard(Append(s.received, at, body, count), total, finished), Refused)
  }

  /** A live session after a request whose answer says nothing: it may have finished all the same. */
  function Unheard(got: Bytes, total: nat, finished: bool): Session {
    Session(got, if finished && |got| == total then Complete else Live)
  }

  // ---------------------------------------------------------------- Drive

  /**
   Drive answers a range request with 206 and some or all of the range, with 200 and the whole file, or not at all.
   */
  datatype DriveMove = Partial(count: nat) | Whole | Unreadable

  function DriveBody(backup: Bytes, start: nat, end: nat, d: DriveMove): Option<Bytes>
    requires start <= end < |backup|
  {
    match d
    case Partial(count) => Some(backup[start..start + Min(count, end + 1 - start)])
    case Whole => Some(backup)
    case Unreadable => None
  }

  function ChunkEnd(offset: nat, total: nat): nat
    requires offset < total
  {
    Min(total - 1, offset + CHUNK - 1)
  }

  /** The chunk a run sends, or nothing when Drive's answer has the wrong length. */
  function ReadChunk(backup: Bytes, offset: nat, d: DriveMove): Option<Bytes>
    requires offset < |backup|
  {
    var end := ChunkEnd(offset, |backup|);
    var body := DriveBody(backup, offset, end, d);
    if body.Some? && |body.value| == end - offset + 1 then body else None
  }

  /** The length check makes it safe to accept a full-body 200: whatever passes is exactly the range asked for. */
  lemma ChunkIsTheRange(backup: Bytes, offset: nat, d: DriveMove)
    requires offset < |backup|
    ensures var end := ChunkEnd(offset, |backup|);
            && (ReadChunk(backup, offset, d).Some? ==> ReadChunk(backup, offset, d).value == backup[offset..end + 1])
            && (d == Whole ==> (ReadChunk(backup, offset, d).Some? <==> offset == 0 && |backup| <= CHUNK))
            && offset <= end < |backup| && end - offset + 1 <= CHUNK
            && (end + 1 < |backup| ==> end - offset + 1 == 8_388_608)
            && (end + 1 < |backup| && offset % 262_144 == 0 ==> (end + 1) % 262_144 == 0)
            && (end + 1 < |backup| && offset % GRANULE == 0 ==> (end + 1) % GRANULE == 0)
  {
    var end := ChunkEnd(offset, |backup|);
    if d == Whole && |backup| == end - offset + 1 {
      assert backup[0..|backup|] == backup;
    }
  }

  // ---------------------------------------------------------------- the machine

  datatype JobStatus = Queued | Uploading | Finalizing | Completed | Failed | Cancelled

  /** The fields of a job that its upload changes; `url` is the index of its session. */
  datatype Job = Job(status: JobStatus, url: nat, offset: nat, video: Video)

  /** A run's copy of the job, whether its session has been saved, and the server's last answer until it is used. */
  datatype RunState = RunState(job: Job, saved: bool, heard: Option<Reply>)

  datatype World = World(backup: Bytes, stored: Job, run: Option<RunState>, sessions: seq<Session>)

  /**
   The effects a run is made of. `Stop` ends a run, and also stands for a run killed at that point; `Overwrite` is the
   second save of `startUploadJob_`, which is not serialized with the runs.
   */
  datatype Action =
    | Load
    | Query(server: ServerMove)
    | Send(drive: DriveMove, server: ServerMove)
    | Learn
    | Restart
    | Save
    | SetStatus(status: JobStatus)
    | Stop
    | Fail
    | Overwrite

  const START: Job := Job(Queued, 0, 0, NoVideo)

  function Init(backup: Bytes): World {
    World(backup, START, None, [Session([], Live)])
  }

  /** What a run makes of the server's answer; a 5xx is dropped and the position kept. */
  function Informed(job: Job, reply: Reply, total: nat): Job {
    match reply
    case Resume(position) => job.(offset := position)
    case Done(video) => job.(offset := total, video := video, status := Finalizing)
    case _ => job
  }

  predicate Enabled(w: World, a: Action) {
    match a
    case Load => w.run.None? && w.stored.status != Completed && w.stored.status != Cancelled
    case Query(_) => w.run.Some? && w.run.value.saved && w.run.value.heard.None? && w.run.value.job.url < |w.sessions|
    case Send(drive, _) =>
      && w.run.Some? && w.run.value.saved && w.run.value.heard.None? && w.run.value.job.url < |w.sessions|
      && w.run.value.job.offset < |w.backup|
      && ReadChunk(w.backup, w.run.value.job.offset, drive).Some?
    case Learn => w.run.Some? && w.run.value.heard.Some? && w.run.value.heard != Some(Gone) &&
        w.run.value.heard != Some(Garbled)
    case Restart => w.run.Some? && w.run.value.heard == Some(Gone)
    case Save => w.run.Some?
    case SetStatus(status) =>
      w.run.Some? &&
          (status == Queued || status == Uploading || (status == Completed && w.run.value.job.video.Identified?))
    case Stop => w.run.Some?
    case Fail => w.run.Some?
    case Overwrite => true
  }

  function Apply(w: World, a: Action): World {
    if !Enabled(w, a) then w
    else match a
    case Load =>
      var job := w.stored.(status := Uploading);
      w.(stored := job, run := Some(RunState(job, true, None)))
    case Query(m) => Exchange(w, |w.sessions[w.run.value.job.url].received|, [], m)
    case Send(drive, m) =>
      Exchange(w, w.run.value.job.offset, ReadChunk(w.backup, w.run.value.job.offset, drive).value, m)
    case Learn =>
      var r := w.run.value;
      w.(run := Some(r.(job := Informed(r.job, r.heard.value, |w.backup|), heard := None)))
    case Restart =>
      var r := w.run.value;
      w.(sessions := w.sessions + [Session([], Live)],
         run := Some(RunState(r.job.(url := |w.sessions|, offset := 0), false, None)))
    case Save => w.(stored := w.run.value.job, run := Some(w.run.value.(saved := true)))
    case SetStatus(status) => w.(run := Some(w.run.value.(job := w.run.value.job.(status := status))))
    case Stop => w.(run := None)
    case Fail => w.(stored := w.stored.(status := Failed), run := None)
    case Overwrite => w.(stored := START)
  }

  function Exchange(w: World, at: nat, body: Bytes, m: ServerMove): World
    requires w.run.Some? && w.run.value.job.url < |w.sessions|
  {
    var url := w.run.value.job.url;
    var (session, reply) := Receive(w.sessions[url], at, body, |w.backup|, m);
    w.(sessions := w.sessions[url := session], run := Some(w.run.value.(heard := Some(reply))))
  }

  function Run(w: World, actions: seq<Action>): World {
    if actions == [] then w else Apply(Run(w, actions[..|actions| - 1]), actions[|actions| - 1])
  }

  // ---------------------------------------------------------------- content integrity

  ghost predicate SessionOk(w: World, s: Session) {
    s.received <= w.backup && (s.phase == Complete ==> s.received == w.backup)
  }

  /** The position is never ahead of the session, and a known video means the session has finished. */
  ghost predicate JobOk(w: World, job: Job) {
    && job.url < |w.sessions|
    && job.offset <= |w.sessions[job.url].received|
    && (job.video != NoVideo ==> w.sessions[job.url].phase == Complete)
    && (job.status == Finalizing || job.status == Completed ==> job.video != NoVideo)
  }

  ghost predicate HeardOk(w: World, job: Job, reply: Reply)
    requires job.url < |w.sessions|
  {
    match reply
    case Resume(position) => position <= |w.sessions[job.url].received|
    case Done(video) => w.sessions[job.url].phase == Complete && video != NoVideo
    case Garbled => w.sessions[job.url].phase == Complete
    case Gone => w.sessions[job.url].phase == Expired
    case _ => true
  }

  ghost predicate Inv(w: World) {
    && (forall k :: 0 <= k < |w.sessions| ==> SessionOk(w, w.sessions[k]))
    && JobOk(w, w.stored)
    && |w.sessions| > 0
    && (w.run.Some? ==>
          && JobOk(w, w.run.value.job)
          && (w.run.value.heard.Some? ==> HeardOk(w, w.run.value.job, w.run.value.heard.value)))
  }

  /**
   An honest server holding a prefix of the file goes on holding one, whatever it keeps of a chunk that belongs there.
   */
  lemma ReceiveKeepsPrefix(backup: Bytes, s: Session, at: nat, body: Bytes, m: ServerMove)
    requires s.received <= backup && (s.phase == Complete ==> s.received == backup)
    requires at + |body| <= |backup| && body == backup[at..at + |body|]
    ensures var (t, reply) := Receive(s, at, body, |backup|, m);
            && s.received <= t.received <= backup
            && (t.phase == Complete ==> t.received == backup)
            && (s.phase != Live ==> t == s)
            && (reply.Resume? ==> reply.position <= |t.received|)
            && (reply.Done? ==> t.phase == Complete && reply.video != NoVideo)
            && (reply.Garbled? ==> t.phase == Complete)
            && (reply.Gone? ==> t.phase == Expired)
  {
  }

  lemma ExchangeKeepsInv(w: World, at: nat, body: Bytes, m: ServerMove)
    requires Inv(w) && w.run.Some?
    requires at + |body| <= |w.backup| && body == w.backup[at..at + |body|]
    ensures Inv(Exchange(w, at, body, m))
  {
    var url := w.run.value.job.url;
    assert SessionOk(w, w.sessions[url]);
    ReceiveKeepsPrefix(w.backup, w.sessions[url], at, body, m);
    var t := Exchange(w, at, body, m);
    forall k | 0 <= k < |t.sessions|
      ensures SessionOk(t, t.sessions[k])
    {
      assert k != url ==> t.sessions[k] == w.sessions[k];
    }
  }

  lemma ApplyKeepsInv(w: World, a: Action)
    requires Inv(w)
    ensures Inv(Apply(w, a)) && Apply(w, a).backup == w.backup
  {
    if Enabled(w, a) {
      match a
      case Query(m) =>
        assert SessionOk(w, w.sessions[w.run.value.job.url]);
        ExchangeKeepsInv(w, |w.sessions[w.run.value.job.url].received|, [], m);
      case Send(drive, m) =>
        ChunkIsTheRange(w.backup, w.run.value.job.offset, drive);
        ExchangeKeepsInv(w, w.run.value.job.offset, ReadChunk(w.backup, w.run.value.job.offset, drive).value, m);
      case Learn =>
        assert SessionOk(w, w.sessions[w.run.value.job.url]);
      case Restart =>
        var t := Apply(w, a);
        assert forall k :: 0 <= k < |w.sessions| ==> t.sessions[k] == w.sessions[k];
      case _ =>
        QuietActionKeepsInv(w, a);
    }
  }

  /** The actions that leave the server alone. */
  lemma QuietActionKeepsInv(w: World, a: Action)
    requires Inv(w) && Enabled(w, a) && (a.Load? || a.Save? || a.SetStatus? || a.Stop? || a.Fail? || a.Overwrite?)
    ensures Inv(Apply(w, a))
  {
    assert Apply(w, a).sessions == w.sessions && Apply(w, a).backup == w.backup;
  }

  lemma {:induction false} RunKeepsInv(w: World, actions: seq<Action>)
    requires Inv(w)
    ensures Inv(Run(w, actions)) && Run(w, actions).backup == w.backup
  {
    if actions != [] {
      RunKeepsInv(w, actions[..|actions| - 1]);
      ApplyKeepsInv(Run(w, actions[..|actions| - 1]), actions[|actions| - 1]);
    }
  }

  /**
   Over every run of effects, with kills, restarts, partial chunks and even the unserialized second save: each session
   holds a prefix of the backup, no saved position is ahead of its session, and a job that has reached `finalizing` or
   `complete` has a session that holds exactly the backup.
   */
  lemma UploadedBytesAreTheBackup(backup: Bytes, actions: seq<Action>)
    ensures var w := Run(Init(backup), actions);
            && w.stored.url < |w.sessions|
            && (forall k :: 0 <= k < |w.sessions| ==> w.sessions[k].received <= backup)
            && w.stored.offset <= |w.sessions[w.stored.url].received|
            && (w.stored.status == Finalizing || w.stored.status == Completed ==>
                w.sessions[w.stored.url].received == backup)
  {
    RunKeepsInv(Init(backup), actions);
    var w := Run(Init(backup), actions);
    assert SessionOk(w, w.sessions[w.stored.url]);
    forall k | 0 <= k < |w.sessions|
      ensures w.sessions[k].received <= backup
    {
      assert SessionOk(w, w.sessions[k]);
    }
  }

  // ---------------------------------------------------------------- at most one finished video

  predicate Is(w: World, url: nat, phase: Phase) {
    url < |w.sessions| && w.sessions[url].phase == phase
  }

  /**
   The only session that can have finished is the one the stored job names. A run works on that session, or has lost its
   own like the stored one.
   */
  ghost predicate OneVideo(w: World) {
    && (w.stored.url != START.url ==> Is(w, START.url, Expired))
    && (forall k :: 0 <= k < |w.sessions| && w.sessions[k].phase == Complete ==> k == w.stored.url)
    && (w.run.Some? && w.run.value.saved ==>
          w.run.value.job.url == w.stored.url || (Is(w, w.run.value.job.url, Expired) && Is(w, w.stored.url, Expired)))
    && (w.run.Some? && !w.run.value.saved ==> Is(w, w.stored.url, Expired))
  }

  /**
   A second save now takes the job back from a session that has finished, or that a run is still filling. Otherwise it
   is harmless.
   */
  predicate Spoils(w: World) {
    w.stored.url != START.url && (Is(w, w.stored.url, Complete) || (w.run.Some? && Is(w, w.stored.url, Live)))
  }

  predicate Orderly(w: World, a: Action) {
    a.Overwrite? ==> !Spoils(w)
  }

  predicate OrderlyRun(w: World, actions: seq<Action>) {
    actions == [] ||
    var front := actions[..|actions| - 1];
    OrderlyRun(w, front) && Orderly(Run(w, front), actions[|actions| - 1])
  }

  lemma ApplyKeepsOneVideo(w: World, a: Action)
    requires Inv(w) && OneVideo(w) && Orderly(w, a)
    ensures OneVideo(Apply(w, a))
  {
    if Enabled(w, a) && w.run.Some? && (a.Query? || a.Send?) {
      var url := w.run.value.job.url;
      assert forall k :: 0 <= k < |w.sessions| && k != url ==> Apply(w, a).sessions[k] == w.sessions[k];
    }
  }

  lemma {:induction false} RunKeepsOneVideo(w: World, actions: seq<Action>)
    requires Inv(w) && OneVideo(w) && OrderlyRun(w, actions)
    ensures OneVideo(Run(w, actions))
  {
    if actions != [] {
      var front := actions[..|actions| - 1];
      RunKeepsOneVideo(w, front);
      RunKeepsInv(w, front);
      ApplyKeepsOneVideo(Run(w, front), actions[|actions| - 1]);
    }
  }

  ghost predicate TwoVideos(w: World) {
    exists j, k :: 0 <= j < k < |w.sessions| && w.sessions[j].phase == Complete && w.sessions[k].phase == Complete
  }

  /**
   Unless a second save spoils the job, at most one session of it ever finishes: whatever is killed, however often
   sessions expire, wherever harmless second saves land, there is never a second video.
   */
  lemma AtMostOneVideo(backup: Bytes, actions: seq<Action>)
    requires OrderlyRun(Init(backup), actions)
    ensures !TwoVideos(Run(Init(backup), actions))
  {
    RunKeepsOneVideo(Init(backup), actions);
  }

  // ---------------------------------------------------------------- what the second save can break

  lemma {:induction false} RunAppend(w: World, first: seq<Action>, rest: seq<Action>)
    ensures Run(w, first + rest) == Run(Run(w, first), rest)
  {
    if rest == [] {
      assert first + rest == first;
    } else {
      assert (first + rest)[..|first + rest| - 1] == first + rest[..|rest| - 1];
      RunAppend(w, first, rest[..|rest| - 1]);
    }
  }

  lemma OneMore(w: World, actions: seq<Action>, a: Action)
    ensures Run(w, actions + [a]) == Apply(Run(w, actions), a)
  {
    assert (actions + [a])[..|actions|] == actions;
  }

  predicate NoOverwrite(actions: seq<Action>) {
    forall a :: a in actions ==> !a.Overwrite?
  }

  /** A run's conversation with the server, and nothing else. */
  predicate Exchanges(actions: seq<Action>) {
    forall a :: a in actions ==> a.Query? || a.Send? || a.Learn?
  }

  lemma {:induction false} NoOverwriteIsOrderly(w: World, actions: seq<Action>)
    requires NoOverwrite(actions)
    ensures OrderlyRun(w, actions)
  {
    if actions != [] {
      NoOverwriteIsOrderly(w, actions[..|actions| - 1]);
    }
  }

  /** A run that is in step with a live session. */
  ghost predicate InStep(w: World) {
    && w.run.Some? && w.run.value.saved && w.run.value.heard.None?
    && w.run.value.job.url < |w.sessions|
    && w.sessions[w.run.value.job.url].phase == Live
    && |w.sessions[w.run.value.job.url].received| == w.run.value.job.offset < |w.backup|
  }

  /** From `w` to `t` the session has finished, and no other session nor the stored job has changed. */
  ghost predicate FinishedBy(w: World, t: World, url: nat) {
    && |t.sessions| == |w.sessions| && Is(t, url, Complete)
    && (forall k :: 0 <= k < |w.sessions| && k != url ==> t.sessions[k] == w.sessions[k])
    && t.stored == w.stored && t.backup == w.backup && t.run.Some?
  }

  /** A server that keeps whole chunks lets a run in step finish its session, chunk by chunk. */
  lemma {:induction false} CanFinish(w: World) returns (actions: seq<Action>)
    requires Inv(w) && InStep(w)
    ensures Exchanges(actions)
    ensures FinishedBy(w, Run(w, actions), w.run.value.job.url)
    decreases |w.backup| - w.run.value.job.offset
  {
    var send := Send(Partial(CHUNK), Finish(CHUNK, Unidentified));
    var t := Apply(w, send);
    assert Run(w, [send]) == t by {
      assert [send][..0] == [];
    }
    var url, end := w.run.value.job.url, ChunkEnd(w.run.value.job.offset, |w.backup|);
    assert SessionOk(w, w.sessions[url]);
    assert |t.sessions[url].received| == end + 1;
    if end + 1 == |w.backup| {
      actions := [send];
    } else {
      var u := Apply(t, Learn);
      ApplyKeepsInv(w, send);
      ApplyKeepsInv(t, Learn);
      var rest := CanFinish(u);
      actions := [send, Learn] + rest;
      assert [send, Learn][..1] == [send];
      RunAppend(w, [send, Learn], rest);
    }
  }

  lemma EmptyBodyAddsNothing(received: Bytes, count: nat)
    ensures Append(received, |received|, [], count) == received
  {
    var none: Bytes := [];
    assert received + none[0..][..Min(count, 0)] == received;
  }

  /** A run that has used its last answer can ask for the position and then finish its live session. */
  lemma CanCatchUp(w: World) returns (actions: seq<Action>)
    requires Inv(w) && w.run.Some? && w.run.value.saved && w.run.value.heard.None? && Is(w, w.run.value.job.url, Live)
    ensures Exchanges(actions) && FinishedBy(w, Run(w, actions), w.run.value.job.url)
  {
    var url := w.run.value.job.url;
    var had := |w.sessions[url].received|;
    assert SessionOk(w, w.sessions[url]);
    if had == |w.backup| {
      var query := Query(Finish(0, Unidentified));
      actions := [] + [query];
      OneMore(w, [], query);
    } else {
      var query := Query(Keep(0, had));
      var t := Apply(w, query);
      var u := Apply(t, Learn);
      OneMore(w, [], query);
      OneMore(w, [] + [query], Learn);
      ApplyKeepsInv(w, query);
      ApplyKeepsInv(t, Learn);
      EmptyBodyAddsNothing(w.sessions[url].received, 0);
      assert t.sessions == w.sessions;
      var rest := CanFinish(u);
      actions := [] + [query] + [Learn] + rest;
      RunAppend(w, [] + [query] + [Learn], rest);
    }
  }

  /** So can any run with a live session, whatever it heard last. */
  lemma LiveRunCanFinish(w: World) returns (actions: seq<Action>)
    requires Inv(w) && w.run.Some? && w.run.value.saved && Is(w, w.run.value.job.url, Live)
    ensures Exchanges(actions) && FinishedBy(w, Run(w, actions), w.run.value.job.url)
  {
    if w.run.value.heard.None? {
      actions := CanCatchUp(w);
    } else {
      var t := Apply(w, Learn);
      OneMore(w, [], Learn);
      ApplyKeepsInv(w, Learn);
      var rest := CanCatchUp(t);
      actions := [] + [Learn] + rest;
      RunAppend(w, [] + [Learn], rest);
    }
  }

  function RestartSteps(): seq<Action> {
    [] + [Load] + [Query(Keep(0, 0))] + [Restart] + [Save]
  }

  /** A run that finds its session gone moves its job to a new one. */
  lemma RestartMoves(w: World)
    requires Inv(w) && w.run.None? && w.stored.status != Completed && w.stored.status != Cancelled
    requires Is(w, w.stored.url, Expired)
    ensures var t := Run(w, RestartSteps());
            && Inv(t) && t.backup == w.backup && t.sessions == w.sessions + [Session([], Live)]
            && t.stored.url == |w.sessions| && t.stored.status == Uploading
            && t.run == Some(RunState(t.stored, true, None))
  {
    var query := Query(Keep(0, 0));
    OneMore(w, [], Load);
    OneMore(w, [] + [Load], query);
    OneMore(w, [] + [Load] + [query], Restart);
    OneMore(w, [] + [Load] + [query] + [Restart], Save);
    RunKeepsInv(w, RestartSteps());
    assert w.sessions[w.stored.url := w.sessions[w.stored.url]] == w.sessions;
  }

  /** And then it can finish the new one. */
  lemma ExpiredJobFinishesAgain(w: World) returns (actions: seq<Action>)
    requires Inv(w) && w.run.None? && w.stored == START && Is(w, START.url, Expired)
    ensures NoOverwrite(actions)
    ensures var t := Run(w, actions);
            && |t.sessions| == |w.sessions| + 1
            && t.sessions[|w.sessions|].phase == Complete
            && forall k :: 0 <= k < |w.sessions| ==> t.sessions[k] == w.sessions[k]
  {
    RestartMoves(w);
    var t := Run(w, RestartSteps());
    var rest := LiveRunCanFinish(t);
    actions := RestartSteps() + rest;
    RunAppend(w, RestartSteps(), rest);
  }

  /** The further run has no second save and ends with two videos. */
  ghost predicate EndsWithTwoVideos(w: World, rest: seq<Action>) {
    NoOverwrite(rest) && TwoVideos(Run(w, rest))
  }

  /** With a finished session left behind, the job starts over. */
  lemma LeftBehindMakesTwo(w: World, url: nat) returns (rest: seq<Action>)
    requires Inv(w) && w.stored == START && Is(w, START.url, Expired) && Is(w, url, Complete)
    ensures EndsWithTwoVideos(w, rest)
  {
    var t := Apply(w, Stop);
    OneMore(w, [], Stop);
    ApplyKeepsInv(w, Stop);
    var more := ExpiredJobFinishesAgain(t);
    rest := [] + [Stop] + more;
    RunAppend(w, [] + [Stop], more);
    var u := Run(w, rest);
    assert u.sessions[url].phase == Complete && u.sessions[|w.sessions|].phase == Complete;
  }

  lemma SpoiltJobMakesTwo(w: World) returns (rest: seq<Action>)
    requires Inv(w) && OneVideo(w) && Spoils(w)
    ensures EndsWithTwoVideos(Apply(w, Overwrite), rest)
  {
    var t, url := Apply(w, Overwrite), w.stored.url;
    ApplyKeepsInv(w, Overwrite);
    if Is(w, url, Complete) {
      rest := LeftBehindMakesTwo(t, url);
    } else {
      var first := LiveRunCanFinish(t);
      RunKeepsInv(t, first);
      var more := LeftBehindMakesTwo(Run(t, first), url);
      rest := first + more;
      RunAppend(t, first, more);
    }
  }

  /**
   When the second save of `startUploadJob_` lands, at any reachable moment, it lets a second video appear exactly if
   the job has moved to a new session that has finished or that a run is still filling.
   */
  lemma SecondSaveIffSpoils(w: World)
    requires Inv(w) && OneVideo(w)
    ensures (exists rest :: EndsWithTwoVideos(Apply(w, Overwrite), rest)) <==> Spoils(w)
    ensures !Spoils(w) ==>
              forall rest :: OrderlyRun(Apply(w, Overwrite), rest) ==> !TwoVideos(Run(Apply(w, Overwrite), rest))
  {
    var t := Apply(w, Overwrite);
    if Spoils(w) {
      var rest := SpoiltJobMakesTwo(w);
    } else {
      ApplyKeepsInv(w, Overwrite);
      ApplyKeepsOneVideo(w, Overwrite);
      forall rest | OrderlyRun(t, rest)
        ensures !TwoVideos(Run(t, rest))
      {
        RunKeepsOneVideo(t, rest);
      }
      forall rest
        ensures !EndsWithTwoVideos(t, rest)
      {
        if NoOverwrite(rest) {
          NoOverwriteIsOrderly(t, rest);
        }
      }
    }
  }

  function ExpiryThenRestart(): seq<Action> {
    [] + [Load] + [Query(Forget)] + [Restart] + [Save]
  }

  /** For every backup a run reaches such a moment: its session expires, it restarts, and it has not finished yet. */
  lemma SpoilingIsReachable(backup: Bytes)
    ensures var w := Run(Init(backup), ExpiryThenRestart());
            OrderlyRun(Init(backup), ExpiryThenRestart()) && Inv(w) && OneVideo(w) && Spoils(w)
    ensures exists rest :: EndsWithTwoVideos(Apply(Run(Init(backup), ExpiryThenRestart()), Overwrite), rest)
  {
    var w := Init(backup);
    OneMore(w, [], Load);
    OneMore(w, [] + [Load], Query(Forget));
    OneMore(w, [] + [Load] + [Query(Forget)], Restart);
    OneMore(w, [] + [Load] + [Query(Forget)] + [Restart], Save);
    NoOverwriteIsOrderly(w, ExpiryThenRestart());
    RunKeepsInv(w, ExpiryThenRestart());
    RunKeepsOneVideo(w, ExpiryThenRestart());
    SecondSaveIffSpoils(Run(w, ExpiryThenRestart()));
  }

  // ---------------------------------------------------------------- which jobs can still be completed

  /** The statuses the trigger looks for. */
  predicate Pending(status: JobStatus) {
    status == Queued || status == Uploading || status == Failed
  }

  /** What happens to a job that only the trigger starts runs of, once both of its saves are done. */
  predicate TriggerStep(w: World, a: Action) {
    && !a.Overwrite?
    && (a.Load? ==> Pending(w.stored.status))
  }

  predicate TriggerRun(w: World, actions: seq<Action>) {
    actions == [] ||
    var front := actions[..|actions| - 1];
    TriggerRun(w, front) && TriggerStep(Run(w, front), actions[|actions| - 1])
  }

  lemma OneMoreStep(w: World, actions: seq<Action>, a: Action)
    requires TriggerRun(w, actions) && TriggerStep(Run(w, actions), a)
    ensures TriggerRun(w, actions + [a]) && Run(w, actions + [a]) == Apply(Run(w, actions), a)
  {
    assert (actions + [a])[..|actions|] == actions;
  }

  lemma {:induction false} TriggerRunAppend(w: World, first: seq<Action>, rest: seq<Action>)
    requires TriggerRun(w, first) && TriggerRun(Run(w, first), rest)
    ensures TriggerRun(w, first + rest) && Run(w, first + rest) == Run(Run(w, first), rest)
  {
    RunAppend(w, first, rest);
    if rest == [] {
      assert first + rest == first;
    } else {
      var front := rest[..|rest| - 1];
      assert (first + rest)[..|first + rest| - 1] == first + front;
      TriggerRunAppend(w, first, front);
    }
  }

  lemma {:induction false} ExchangesAreTriggered(w: World, actions: seq<Action>)
    requires Exchanges(actions)
    ensures TriggerRun(w, actions)
  {
    if actions != [] {
      ExchangesAreTriggered(w, actions[..|actions| - 1]);
      assert actions[|actions| - 1] in actions;
    }
  }

  ghost predicate CompletesAfter(w: World, actions: seq<Action>) {
    TriggerRun(w, actions) && Run(w, actions).stored.status == Completed
  }

  /** A run asks a finished session for its video and learns of it. */
  function LearnVideo(): seq<Action> {
    [] + [Load] + [Query(Finish(0, Identified("")))] + [Learn]
  }

  lemma VideoIsLearnt(w: World)
    requires Inv(w) && w.run.None? && Pending(w.stored.status) && Is(w, w.stored.url, Complete)
    ensures var t := Run(w, LearnVideo());
            && TriggerRun(w, LearnVideo())
            && t.sessions == w.sessions && t.stored == w.stored.(status := Uploading)
            && t.run == Some(RunState(Job(Finalizing, w.stored.url, |w.backup|, Identified("")), true, None))
  {
    var query, job := Query(Finish(0, Identified(""))), w.stored.(status := Uploading);
    OneMoreStep(w, [], Load);
    OneMoreStep(w, [] + [Load], query);
    OneMoreStep(w, [] + [Load] + [query], Learn);
    var w1 := w.(stored := job, run := Some(RunState(job, true, None)));
    assert Apply(w, Load) == w1;
    AskingFinished(w1, Identified(""));
  }

  /** A finished session answers a query with its video, and nothing else changes. */
  lemma AskingFinished(w: World, video: Video)
    requires w.run.Some? && w.run.value.saved && w.run.value.heard.None? && Is(w, w.run.value.job.url, Complete)
    requires video != NoVideo
    ensures Apply(w, Query(Finish(0, video))) == w.(run := Some(w.run.value.(heard := Some(Done(video)))))
  {
    var url := w.run.value.job.url;
    assert w.sessions[url := w.sessions[url]] == w.sessions;
  }

  /** The end of every completion. */
  function FileVideo(): seq<Action> {
    LearnVideo() + [SetStatus(Completed)] + [Save]
  }

  lemma FinishedJobCompletes(w: World)
    requires Inv(w) && w.run.None? && Pending(w.stored.status) && Is(w, w.stored.url, Complete)
    ensures CompletesAfter(w, FileVideo())
  {
    VideoIsLearnt(w);
    OneMoreStep(w, LearnVideo(), SetStatus(Completed));
    OneMoreStep(w, LearnVideo() + [SetStatus(Completed)], Save);
  }

  /** A run with a live session that has saved its job can finish it, stop, and leave the rest to a later run. */
  lemma LiveRunCompletes(w: World) returns (actions: seq<Action>)
    requires Inv(w) && w.run.Some? && w.run.value.saved && Is(w, w.run.value.job.url, Live)
    requires w.stored.url == w.run.value.job.url && Pending(w.stored.status)
    ensures CompletesAfter(w, actions)
  {
    var talk := LiveRunCanFinish(w);
    ExchangesAreTriggered(w, talk);
    OneMoreStep(w, talk, Stop);
    var t := Run(w, talk + [Stop]);
    RunKeepsInv(w, talk + [Stop]);
    FinishedJobCompletes(t);
    actions := talk + [Stop] + FileVideo();
    TriggerRunAppend(w, talk + [Stop], FileVideo());
  }

  lemma RestartIsTriggered(w: World)
    requires Inv(w) && w.run.None? && Pending(w.stored.status) && Is(w, w.stored.url, Expired)
    ensures TriggerRun(w, RestartSteps())
  {
    OneMoreStep(w, [], Load);
    OneMoreStep(w, [] + [Load], Query(Keep(0, 0)));
    OneMoreStep(w, [] + [Load] + [Query(Keep(0, 0))], Restart);
    OneMoreStep(w, [] + [Load] + [Query(Keep(0, 0))] + [Restart], Save);
  }

  lemma PendingJobCompletes(w: World) returns (actions: seq<Action>)
    requires Inv(w) && w.run.None? && Pending(w.stored.status)
    ensures CompletesAfter(w, actions)
  {
    var url := w.stored.url;
    match w.sessions[url].phase {
      case Complete =>
        FinishedJobCompletes(w);
        actions := FileVideo();
      case Live =>
        OneMoreStep(w, [], Load);
        RunKeepsInv(w, [] + [Load]);
        var rest := LiveRunCompletes(Run(w, [] + [Load]));
        actions := [] + [Load] + rest;
        TriggerRunAppend(w, [] + [Load], rest);
      case Expired =>
        RestartMoves(w);
        RestartIsTriggered(w);
        var rest := LiveRunCompletes(Run(w, RestartSteps()));
        actions := RestartSteps() + rest;
        TriggerRunAppend(w, RestartSteps(), rest);
    }
  }

  /** Left between runs in a status the trigger does not look for, a job keeps its record for ever. */
  lemma {:induction false} UnseenJobStays(w: World, actions: seq<Action>)
    requires w.run.None? && !Pending(w.stored.status) && TriggerRun(w, actions)
    ensures Run(w, actions).run.None? && Run(w, actions).stored == w.stored
  {
    if actions != [] {
      UnseenJobStays(w, actions[..|actions| - 1]);
    }
  }

  /**
   From every reachable moment, runs that the trigger starts can still complete the job exactly if it is complete
   already, its status is one the trigger looks for, or a run is still at work on it.
   */
  lemma CompletableIffSeen(w: World)
    requires Inv(w)
    ensures (exists actions :: CompletesAfter(w, actions)) <==>
            || w.run.Some? || w.stored.status == Completed
            || w.stored.status == Queued || w.stored.status == Uploading || w.stored.status == Failed
  {
    if w.stored.status == Completed {
      assert CompletesAfter(w, []);
    } else if w.run.Some? {
      OneMoreStep(w, [], Fail);
      RunKeepsInv(w, [] + [Fail]);
      var rest := PendingJobCompletes(Run(w, [] + [Fail]));
      TriggerRunAppend(w, [] + [Fail], rest);
      assert CompletesAfter(w, [] + [Fail] + rest);
    } else if Pending(w.stored.status) {
      var actions := PendingJobCompletes(w);
    } else {
      forall actions
        ensures !CompletesAfter(w, actions)
      {
        if TriggerRun(w, actions) {
          UnseenJobStays(w, actions);
        }
      }
    }
  }

  /** A run that learns of its video, saves the job as finalizing, and is killed there. */
  function DieFinalizing(): seq<Action> {
    LearnVideo() + [Save] + [Stop]
  }

  lemma FinishedJobCanDie(w: World)
    requires Inv(w) && w.run.None? && Pending(w.stored.status) && Is(w, w.stored.url, Complete)
    ensures var t := Run(w, DieFinalizing());
            && TriggerRun(w, DieFinalizing())
            && t.run.None? && t.stored.status == Finalizing && Is(t, t.stored.url, Complete)
  {
    VideoIsLearnt(w);
    OneMoreStep(w, LearnVideo(), Save);
    OneMoreStep(w, LearnVideo() + [Save], Stop);
  }

  /** A first run can finish its session and stop before it learns of it. */
  lemma VideoCanBeFinished(backup: Bytes) returns (actions: seq<Action>)
    ensures TriggerRun(Init(backup), actions)
    ensures var w := Run(Init(backup), actions);
            Inv(w) && w.run.None? && Pending(w.stored.status) && Is(w, w.stored.url, Complete)
  {
    var w, load := Init(backup), [] + [Load];
    OneMoreStep(w, [], Load);
    RunKeepsInv(w, load);
    var talk := LiveRunCanFinish(Run(w, load));
    ExchangesAreTriggered(Run(w, load), talk);
    TriggerRunAppend(w, load, talk);
    OneMoreStep(w, load + talk, Stop);
    actions := load + talk + [Stop];
    RunKeepsInv(w, actions);
  }

  /** For every backup a job can get there, with its video finished and nobody to file it. */
  lemma FinalizingIsReachable(backup: Bytes) returns (actions: seq<Action>)
    ensures TriggerRun(Init(backup), actions)
    ensures var w := Run(Init(backup), actions);
            w.run.None? && w.stored.status == Finalizing && Is(w, w.stored.url, Complete)
  {
    var first := VideoCanBeFinished(backup);
    FinishedJobCanDie(Run(Init(backup), first));
    TriggerRunAppend(Init(backup), first, DieFinalizing());
    actions := first + DieFinalizing();
  }
}
