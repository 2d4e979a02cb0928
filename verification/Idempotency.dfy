/**
 The reservation protocol that makes `startUploadJob_` idempotent: the lock-protected property of one key, and any
 number of attempts that reserve, save a job, and commit or release in any interleaving
 (apps-script/src/06_UploadQueue.gs).
 */
module Idempotency {
  import opened Prelude

  const PATIENCE_MS: nat := 15 * 60 * 1000

  /**
   The property's two forms: `PENDING:uuid:time` and `JOB:id`. Identifiers are drawn from one supply and never repeat.
   */
  datatype Entry = Pending(uuid: nat, createdAt: nat) | Bound(jobId: nat)

  datatype ReserveResult = Existing(jobId: nat) | InProgress | Reserved(reservation: Entry)

  // ---------------------------------------------------------------- the three locked sections

  /** The guard of a reservation, which a caller could read off the property, the saved jobs and the clock. */
  predicate Granted(entry: Option<Entry>, jobs: set<nat>, now: nat) {
    match entry
    case None => true
    case Some(Bound(job)) => job !in jobs
    case Some(Pending(_, createdAt)) => createdAt == 0 || now - createdAt >= PATIENCE_MS
  }

  function ReserveEntry(entry: Option<Entry>, jobs: set<nat>, reservation: Entry, now: nat)
    : (Option<Entry>, ReserveResult)
  {
    if Granted(entry, jobs, now) then (Some(reservation), Reserved(reservation))
    else if entry.value.Bound? then (entry, Existing(entry.value.jobId))
    else (entry, InProgress)
  }

  function CommitEntry(entry: Option<Entry>, reservation: Entry, jobId: nat): Option<Entry> {
    if entry == Some(reservation) || entry.None? then Some(Bound(jobId)) else entry
  }

  function ReleaseEntry(entry: Option<Entry>, jobs: set<nat>, reservation: Entry, jobId: Option<nat>): Option<Entry> {
    if jobId.Some? && jobId.value in jobs then Some(Bound(jobId.value))
    else if entry == Some(reservation) then None
    else entry
  }

  /** The property store: one entry for the hash of each key, and the saved jobs. */
  class UploadReservations {
    const hash: string -> string
    var properties: map<string, Entry>
    var jobs: set<nat>

    constructor (hash: string -> string)
      ensures this.hash == hash && properties == map[] && jobs == {}
    {
      this.hash, properties, jobs := hash, map[], {};
    }

    function EntryOf(key: string): Option<Entry>
      reads this
    {
      if hash(key) in properties then Some(properties[hash(key)]) else None
    }

    method Put(key: string, entry: Option<Entry>)
      modifies this`properties
      ensures EntryOf(key) == entry
      ensures forall other :: hash(other) != hash(key) ==> EntryOf(other) == old(EntryOf(other))
    {
      if entry.Some? {
        properties := properties[hash(key) := entry.value];
      } else {
        properties := properties - {hash(key)};
      }
    }

    /**
     `rawKey` is the trimmed key; an empty key turns idempotency off. The reservation's stamp is drawn before the wait
     for the lock, `now` is read inside it.
     */
    method Reserve(rawKey: string, uuid: nat, stamp: nat, now: nat, lockFree: bool)
      returns (r: Result<Option<ReserveResult>, string>)
      modifies this`properties
      ensures |rawKey| > 200 ==> r == Failure("VALIDATION_ERROR")
      ensures rawKey == "" ==> r == Success(None)
      ensures 1 <= |rawKey| <= 200 && !lockFree ==> r == Failure("UPLOAD_BUSY")
      ensures 1 <= |rawKey| <= 200 && lockFree ==>
                match old(EntryOf(rawKey))
                case None => r == Success(Some(Reserved(Pending(uuid, stamp))))
                case Some(Bound(job)) =>
                  r == Success(Some(if job in jobs then Existing(job) else Reserved(Pending(uuid, stamp))))
                case Some(Pending(_, createdAt)) =>
                  r == if createdAt != 0 && now - createdAt < 900_000 then Failure("IDEMPOTENCY_IN_PROGRESS")
                       else Success(Some(Reserved(Pending(uuid, stamp))))
      ensures r == Success(Some(Reserved(Pending(uuid, stamp)))) ==> EntryOf(rawKey) == Some(Pending(uuid, stamp))
      ensures r != Success(Some(Reserved(Pending(uuid, stamp)))) ==> properties == old(properties)
      ensures 1 <= |rawKey| <= 200 && lockFree ==>
                var (entry, result) := ReserveEntry(old(EntryOf(rawKey)), jobs, Pending(uuid, stamp), now);
                && EntryOf(rawKey) == entry
                && r == if result.InProgress? then Failure("IDEMPOTENCY_IN_PROGRESS") else Success(Some(result))
      ensures forall other :: hash(other) != hash(rawKey) ==> EntryOf(other) == old(EntryOf(other))
    {
      if |rawKey| > 200 {
        return Failure("VALIDATION_ERROR");
      }
      if rawKey == "" {
        return Success(None);
      }
      var reservation := Pending(uuid, stamp);
      if !lockFree {
        return Failure("UPLOAD_BUSY");
      }
      var existing := EntryOf(rawKey);
      if existing.Some? && existing.value.Bound? {
        if existing.value.jobId in jobs {
          return Success(Some(Existing(existing.value.jobId)));
        }
        Put(rawKey, None);
      } else if existing.Some? {
        var createdAt := existing.value.createdAt;
        if createdAt != 0 && now - createdAt < PATIENCE_MS {
          return Failure("IDEMPOTENCY_IN_PROGRESS");
        }
        Put(rawKey, None);
      }
      Put(rawKey, Some(reservation));
      return Success(Some(Reserved(reservation)));
    }

    method SaveJob(jobId: nat)
      modifies this`jobs
      ensures jobs == old(jobs) + {jobId}
    {
      jobs := jobs + {jobId};
    }

    method Commit(key: string, reservation: Entry, jobId: nat)
      modifies this`properties
      ensures old(EntryOf(key)) == Some(reservation) || old(EntryOf(key)) == None ==> EntryOf(key) == Some(Bound(jobId))
      ensures old(EntryOf(key)) != Some(reservation) && old(EntryOf(key)) != None ==> EntryOf(key) == old(EntryOf(key))
      ensures EntryOf(key) == CommitEntry(old(EntryOf(key)), reservation, jobId)
      ensures forall other :: hash(other) != hash(key) ==> EntryOf(other) == old(EntryOf(other))
    {
      var current := EntryOf(key);
      if current == Some(reservation) || current.None? {
        Put(key, Some(Bound(jobId)));
      }
    }

    method Release(key: string, reservation: Entry, jobId: Option<nat>)
      modifies this`properties
      ensures EntryOf(key) ==
              if exists job :: jobId == Some(job) && job in jobs then Some(Bound(jobId.value))
              else if old(EntryOf(key)) == Some(reservation) then None
              else old(EntryOf(key))
      ensures EntryOf(key) == ReleaseEntry(old(EntryOf(key)), jobs, reservation, jobId)
      ensures forall other :: hash(other) != hash(key) ==> EntryOf(other) == old(EntryOf(other))
    {
      var current := EntryOf(key);
      if jobId.Some? && jobId.value in jobs {
        Put(key, Some(Bound(jobId.value)));
      } else if current == Some(reservation) {
        Put(key, None);
      }
    }
  }

  // ---------------------------------------------------------------- attempts on one key

  /**
   An attempt before it starts, with its stamp drawn and waiting for the lock, between reservation and commit, in its
   catch block, or over.
   */
  datatype Attempt =
    | Fresh
    | Stamped(reservation: Entry)
    | Working(reservation: Entry, jobId: Option<nat>, saved: bool)
    | Failing(reservation: Entry, jobId: Option<nat>, saved: bool)
    | Over

  /** `jobs` are the jobs saved for the key; `returned` logs the job every successful attempt answered with. */
  datatype State = State(
    entry: Option<Entry>, jobs: set<nat>, now: nat, supply: nat, attempts: seq<Attempt>, returned: seq<nat>)

  datatype Move = Stamp | Reserve | ChooseId | SaveJob | Commit | Throw | Release | Kill

  datatype Action = Tick(ms: nat) | Step(i: nat, move: Move)

  function Init(attempts: nat, now: nat): State {
    State(None, {}, now, 0, seq(attempts, _ => Fresh), [])
  }

  function To(s: State, i: nat, a: Attempt): State
    requires i < |s.attempts|
  {
    s.(attempts := s.attempts[i := a])
  }

  function Take(s: State, i: nat, move: Move): State
    requires i < |s.attempts|
  {
    var a := s.attempts[i];
    match move
    case Stamp => if a.Fresh? then To(s, i, Stamped(Pending(s.supply, s.now))).(supply := s.supply + 1) else s
    case Reserve =>
      if !a.Stamped? then s
      else
        var (entry, r) := ReserveEntry(s.entry, s.jobs, a.reservation, s.now);
        (match r
         case Existing(job) => To(s, i, Over).(returned := s.returned + [job])
         case InProgress => To(s, i, Over)
         case Reserved(reservation) => To(s, i, Working(reservation, None, false)).(entry := entry))
    case ChooseId =>
      if a.Working? && a.jobId.None? then
        To(s, i, Working(a.reservation, Some(s.supply), a.saved)).(supply := s.supply + 1)
      else s
    case SaveJob =>
      if a.Working? && a.jobId.Some? then
        To(s, i, Working(a.reservation, a.jobId, true)).(jobs := s.jobs + {a.jobId.value})
      else s
    case Commit =>
      if a.Working? && a.saved && a.jobId.Some? then
        To(s, i, Over)
          .(entry := CommitEntry(s.entry, a.reservation, a.jobId.value), returned := s.returned + [a.jobId.value])
      else s
    case Throw => if a.Working? then To(s, i, Failing(a.reservation, a.jobId, a.saved)) else s
    case Release =>
      if a.Failing? then To(s, i, Over).(entry := ReleaseEntry(s.entry, s.jobs, a.reservation, a.jobId)) else s
    case Kill => To(s, i, Over)
  }

  function Apply(s: State, a: Action): State {
    match a
    case Tick(ms) => s.(now := s.now + ms)
    case Step(i, move) => if i < |s.attempts| then Take(s, i, move) else s
  }

  function Run(s: State, actions: seq<Action>): State
    decreases |actions|
  {
    if actions == [] then s else Run(Apply(s, actions[0]), actions[1..])
  }

  predicate Active(a: Attempt) {
    a.Working? || a.Failing?
  }

  predicate MaySave(a: Attempt) {
    a.Working? && !a.saved
  }

  predicate SomeoneMaySave(s: State) {
    exists k :: 0 <= k < |s.attempts| && MaySave(s.attempts[k])
  }

  /** A waiting attempt would be granted its reservation while a job is saved or another attempt may still save one. */
  predicate Doubles(s: State, i: nat) {
    && i < |s.attempts| && s.attempts[i].Stamped?
    && Granted(s.entry, s.jobs, s.now)
    && (s.jobs != {} || SomeoneMaySave(s))
  }

  /** Anything may happen but such a grant: attempts may fail, dawdle and die anywhere. */
  predicate Civil(s: State, a: Action) {
    a.Step? && a.move == Reserve ==> !Doubles(s, a.i)
  }

  predicate CivilRun(s: State, actions: seq<Action>)
    decreases |actions|
  {
    actions == [] || (Civil(s, actions[0]) && CivilRun(Apply(s, actions[0]), actions[1..]))
  }

  ghost predicate TwoJobs(s: State) {
    exists j, k :: j in s.jobs && k in s.jobs && j != k
  }

  // ---------------------------------------------------------------- when a second job can come

  /** What every attempt knows of its job in every run: saved ids are saved, unsaved ones are not. */
  ghost predicate IdOk(s: State, a: Attempt) {
    Active(a) ==>
      && (a.jobId.Some? ==> a.jobId.value < s.supply)
      && (a.saved ==> a.jobId.Some?)
      && (a.jobId.Some? ==> (a.saved <==> a.jobId.value in s.jobs))
  }

  ghost predicate DistinctIds(s: State) {
    forall i, j :: 0 <= i < |s.attempts| && 0 <= j < |s.attempts| && i != j
                   && Active(s.attempts[i]) && Active(s.attempts[j]) && s.attempts[i].jobId.Some? ==>
                     s.attempts[i].jobId != s.attempts[j].jobId
  }

  ghost predicate IdsOk(s: State) {
    && (forall i :: 0 <= i < |s.attempts| ==> IdOk(s, s.attempts[i]))
    && DistinctIds(s)
    && (forall j :: j in s.jobs ==> j < s.supply)
  }

  lemma MoveKeepsIds(s: State, i: nat, move: Move)
    requires IdsOk(s) && i < |s.attempts|
    ensures IdsOk(Take(s, i, move))
  {
    var t := Take(s, i, move);
    assert IdOk(s, s.attempts[i]);
    forall k | 0 <= k < |s.attempts|
      ensures IdOk(t, t.attempts[k])
      ensures k != i ==> t.attempts[k] == s.attempts[k] && IdOk(s, s.attempts[k])
    {
      assert IdOk(s, s.attempts[k]);
    }
  }

  lemma ApplyKeepsIds(s: State, a: Action)
    requires IdsOk(s)
    ensures IdsOk(Apply(s, a))
  {
    if a.Step? && a.i < |s.attempts| {
      MoveKeepsIds(s, a.i, a.move);
    } else {
      var t := Apply(s, a);
      assert forall k :: 0 <= k < |t.attempts| ==> IdOk(s, t.attempts[k]) ==> IdOk(t, t.attempts[k]);
    }
  }

  lemma {:induction false} RunKeepsIds(s: State, actions: seq<Action>)
    requires IdsOk(s)
    ensures IdsOk(Run(s, actions))
    decreases |actions|
  {
    if actions != [] {
      ApplyKeepsIds(s, actions[0]);
      RunKeepsIds(Apply(s, actions[0]), actions[1..]);
    }
  }

  ghost predicate TwoMaySave(s: State) {
    exists i, j :: 0 <= i < |s.attempts| && 0 <= j < |s.attempts| && i != j
                   && MaySave(s.attempts[i]) && MaySave(s.attempts[j])
  }

  /** Two jobs are there, or one job and an attempt that may save another, or two such attempts. */
  ghost predicate TwoPossible(s: State) {
    TwoJobs(s) || (s.jobs != {} && SomeoneMaySave(s)) || TwoMaySave(s)
  }

  /** A reservation makes a second job possible exactly if it is such a grant. */
  lemma ReservingMakesTwoPossible(s: State, i: nat)
    requires i < |s.attempts|
    ensures TwoPossible(Take(s, i, Reserve)) <==> TwoPossible(s) || Doubles(s, i)
  {
    var t := Take(s, i, Reserve);
    assert t.jobs == s.jobs;
    assert forall k :: 0 <= k < |s.attempts| && k != i ==> t.attempts[k] == s.attempts[k];
    assert !MaySave(s.attempts[i]) || t == s;
    assert MaySave(t.attempts[i]) <==>
        MaySave(s.attempts[i]) || (s.attempts[i].Stamped? && Granted(s.entry, s.jobs, s.now));
    assert forall k :: 0 <= k < |s.attempts| && MaySave(s.attempts[k]) ==> MaySave(t.attempts[k]);
  }

  /** Nothing else makes a second job possible. */
  lemma OtherMovesKeepOne(s: State, i: nat, move: Move)
    requires IdsOk(s) && !TwoPossible(s) && i < |s.attempts| && move != Reserve
    ensures !TwoPossible(Take(s, i, move))
  {
    var t := Take(s, i, move);
    assert IdOk(s, s.attempts[i]);
    assert forall k :: 0 <= k < |s.attempts| && k != i ==> t.attempts[k] == s.attempts[k];
    assert MaySave(t.attempts[i]) ==> MaySave(s.attempts[i]);
    assert forall k :: 0 <= k < |t.attempts| && MaySave(t.attempts[k]) ==> MaySave(s.attempts[k]);
  }

  lemma CivilKeepsOne(s: State, a: Action)
    requires IdsOk(s) && !TwoPossible(s) && Civil(s, a)
    ensures !TwoPossible(Apply(s, a))
  {
    match a
    case Tick(ms) =>
      assert Apply(s, a).attempts == s.attempts && Apply(s, a).jobs == s.jobs;
    case Step(i, move) =>
      if i < |s.attempts| {
        if move == Reserve {
          ReservingMakesTwoPossible(s, i);
        } else {
          OtherMovesKeepOne(s, i, move);
        }
      }
  }

  lemma {:induction false} CivilRunKeepsOne(s: State, actions: seq<Action>)
    requires IdsOk(s) && !TwoPossible(s) && CivilRun(s, actions)
    ensures !TwoPossible(Run(s, actions))
    decreases |actions|
  {
    if actions != [] {
      CivilKeepsOne(s, actions[0]);
      ApplyKeepsIds(s, actions[0]);
      CivilRunKeepsOne(Apply(s, actions[0]), actions[1..]);
    }
  }

  lemma RunCons(s: State, a: Action, rest: seq<Action>)
    ensures Run(s, [a] + rest) == Run(Apply(s, a), rest)
    ensures CivilRun(s, [a] + rest) <==> Civil(s, a) && CivilRun(Apply(s, a), rest)
  {
    assert ([a] + rest)[1..] == rest;
  }

  lemma {:induction false} RunAppend(s: State, first: seq<Action>, rest: seq<Action>)
    ensures Run(s, first + rest) == Run(Run(s, first), rest)
    decreases |first|
  {
    if first == [] {
      assert first + rest == rest;
    } else {
      assert (first + rest)[1..] == first[1..] + rest;
      RunAppend(Apply(s, first[0]), first[1..], rest);
    }
  }

  predicate NoReserve(actions: seq<Action>) {
    forall a :: a in actions ==> !(a.Step? && a.move == Reserve)
  }

  lemma {:induction false} NoReserveIsCivil(s: State, actions: seq<Action>)
    requires NoReserve(actions)
    ensures CivilRun(s, actions)
    decreases |actions|
  {
    if actions != [] {
      assert actions[0] in actions;
      NoReserveIsCivil(Apply(s, actions[0]), actions[1..]);
    }
  }

  /** Attempt `i` chooses an id and saves its job. */
  function SaveSteps(i: nat): seq<Action> {
    [Step(i, ChooseId), Step(i, SaveJob)]
  }

  lemma SavingTakesTwoSteps(s: State, i: nat)
    requires IdsOk(s) && i < |s.attempts| && MaySave(s.attempts[i])
    ensures var t := Run(s, SaveSteps(i));
            && IdsOk(t) && |t.attempts| == |s.attempts| && t.attempts == s.attempts[i := t.attempts[i]]
            && exists j :: j !in s.jobs && t.jobs == s.jobs + {j}
  {
    var u := Apply(s, Step(i, ChooseId));
    var t := Apply(u, Step(i, SaveJob));
    RunCons(u, Step(i, SaveJob), []);
    RunCons(s, Step(i, ChooseId), [Step(i, SaveJob)]);
    assert [Step(i, SaveJob)] + [] == [Step(i, SaveJob)];
    assert [Step(i, ChooseId)] + [Step(i, SaveJob)] == SaveSteps(i);
    ApplyKeepsIds(s, Step(i, ChooseId));
    ApplyKeepsIds(u, Step(i, SaveJob));
    assert IdOk(s, s.attempts[i]) && IdOk(u, u.attempts[i]);
    assert u.attempts[i].jobId.value !in s.jobs;
  }

  /** The further run reserves nothing and ends with two jobs. */
  ghost predicate EndsWithTwoJobs(s: State, rest: seq<Action>) {
    NoReserve(rest) && TwoJobs(Run(s, rest))
  }

  lemma TwoPossibleComesTrue(s: State) returns (rest: seq<Action>)
    requires IdsOk(s) && TwoPossible(s)
    ensures EndsWithTwoJobs(s, rest)
  {
    if TwoJobs(s) {
      rest := [];
    } else if s.jobs != {} && SomeoneMaySave(s) {
      var i :| 0 <= i < |s.attempts| && MaySave(s.attempts[i]);
      rest := SaveSteps(i);
      SavingTakesTwoSteps(s, i);
      var j :| j in s.jobs;
      assert j in Run(s, rest).jobs;
    } else {
      var i, k :| 0 <= i < |s.attempts| && 0 <= k < |s.attempts| && i != k
                  && MaySave(s.attempts[i]) && MaySave(s.attempts[k]);
      SavingTakesTwoSteps(s, i);
      var t := Run(s, SaveSteps(i));
      assert t.attempts[k] == s.attempts[k];
      SavingTakesTwoSteps(t, k);
      rest := SaveSteps(i) + SaveSteps(k);
      RunAppend(s, SaveSteps(i), SaveSteps(k));
      var j :| j in t.jobs;
      assert j in Run(s, rest).jobs;
    }
  }

  /** A second job can come without any further reservation exactly if it is possible in this sense. */
  lemma SecondJobIffPossible(s: State)
    requires IdsOk(s)
    ensures (exists rest :: EndsWithTwoJobs(s, rest)) <==> TwoPossible(s)
  {
    if TwoPossible(s) {
      var rest := TwoPossibleComesTrue(s);
    } else {
      forall rest
        ensures !EndsWithTwoJobs(s, rest)
      {
        if NoReserve(rest) {
          NoReserveIsCivil(s, rest);
          CivilRunKeepsOne(s, rest);
        }
      }
    }
  }

  /**
   In every state of every run, whatever was granted before: a reservation can lead to a second job, without any further
   reservation, exactly if that was possible already, or if it is granted while a job is saved or another attempt may
   still save one.
   */
  lemma SecondJobIffDoubles(attempts: nat, now: nat, actions: seq<Action>, i: nat)
    requires i < |Run(Init(attempts, now), actions).attempts|
    ensures var s := Run(Init(attempts, now), actions);
            (exists rest :: EndsWithTwoJobs(Take(s, i, Reserve), rest)) <==> TwoPossible(s) || Doubles(s, i)
  {
    var s := Run(Init(attempts, now), actions);
    RunKeepsIds(Init(attempts, now), actions);
    ApplyKeepsIds(s, Step(i, Reserve));
    SecondJobIffPossible(Take(s, i, Reserve));
    ReservingMakesTwoPossible(s, i);
  }

  // ---------------------------------------------------------------- what holds without such a grant

  /**
   A working attempt, and a failing one that has saved its job, own the property and the only job. A failing attempt
   that has saved nothing may have been replaced; then it can do nothing any more.
   */
  ghost predicate AttemptOk(s: State, a: Attempt) {
    && (a.Stamped? ==> a.reservation.Pending? && a.reservation.uuid < s.supply && s.entry != Some(a.reservation))
    && (Active(a) ==>
          && a.reservation.Pending? && a.reservation.uuid < s.supply
          && (a.jobId.Some? ==> a.jobId.value < s.supply)
          && (a.saved ==> a.jobId.Some? && s.jobs == {a.jobId.value})
          && (!a.saved ==> a.jobId.Some? ==> a.jobId.value !in s.jobs)
          && (a.Working? || a.saved ==> s.entry == Some(a.reservation))
          && (!a.saved && s.entry == Some(a.reservation) ==> s.jobs == {}))
  }

  predicate HasStamp(a: Attempt) {
    a.Stamped? || Active(a)
  }

  /** Two attempts never share a reservation. */
  ghost predicate DistinctStamps(s: State) {
    forall i, j :: 0 <= i < |s.attempts| && 0 <= j < |s.attempts| && i != j
                   && HasStamp(s.attempts[i]) && HasStamp(s.attempts[j]) ==>
                     s.attempts[i].reservation != s.attempts[j].reservation
  }

  ghost predicate Inv(s: State) {
    && (s.entry.Some? && s.entry.value.Pending? ==> s.entry.value.uuid < s.supply)
    && (s.entry.Some? && s.entry.value.Bound? ==> s.jobs == {s.entry.value.jobId})
    && (s.entry.None? ==> s.jobs == {})
    && (forall j :: j in s.jobs ==> j < s.supply)
    && (forall i :: 0 <= i < |s.attempts| ==> AttemptOk(s, s.attempts[i]))
    && DistinctIds(s)
    && DistinctStamps(s)
    && (forall r :: r in s.returned ==> s.entry == Some(Bound(r)))
  }

  lemma StampKeepsInv(s: State, i: nat)
    requires Inv(s) && i < |s.attempts|
    ensures Inv(Take(s, i, Stamp))
  {
    var t := Take(s, i, Stamp);
    forall k | 0 <= k < |s.attempts|
      ensures AttemptOk(t, t.attempts[k])
      ensures k != i ==> t.attempts[k] == s.attempts[k] && AttemptOk(s, s.attempts[k])
    {
      assert AttemptOk(s, s.attempts[k]);
    }
  }

  lemma ReserveKeepsInv(s: State, i: nat)
    requires Inv(s) && i < |s.attempts| && !Doubles(s, i)
    ensures Inv(Take(s, i, Reserve))
  {
    var t := Take(s, i, Reserve);
    assert AttemptOk(s, s.attempts[i]);
    forall k | 0 <= k < |s.attempts|
      ensures AttemptOk(t, t.attempts[k])
      ensures k != i ==> t.attempts[k] == s.attempts[k] && AttemptOk(s, s.attempts[k])
    {
      assert AttemptOk(s, s.attempts[k]);
      assert k != i && HasStamp(s.attempts[k]) && HasStamp(s.attempts[i]) ==>
          s.attempts[k].reservation != s.attempts[i].reservation;
    }
  }

  lemma QuietMoveKeepsInv(s: State, i: nat, move: Move)
    requires Inv(s) && i < |s.attempts| && (move == ChooseId || move == Throw || move == Kill)
    ensures Inv(Take(s, i, move))
  {
    var a, t := s.attempts[i], Take(s, i, move);
    assert AttemptOk(s, a);
    forall k | 0 <= k < |s.attempts|
      ensures AttemptOk(t, t.attempts[k])
      ensures k != i ==> t.attempts[k] == s.attempts[k] && AttemptOk(s, s.attempts[k])
    {
      assert AttemptOk(s, s.attempts[k]);
      assert k != i && HasStamp(a) && HasStamp(s.attempts[k]) ==> s.attempts[k].reservation != a.reservation;
    }
  }

  lemma RecordingMoveKeepsInv(s: State, i: nat, move: Move)
    requires Inv(s) && i < |s.attempts| && (move == SaveJob || move == Commit || move == Release)
    ensures Inv(Take(s, i, move))
  {
    var a, t := s.attempts[i], Take(s, i, move);
    assert AttemptOk(s, a);
    forall k | 0 <= k < |s.attempts|
      ensures AttemptOk(t, t.attempts[k])
      ensures k != i ==> t.attempts[k] == s.attempts[k] && AttemptOk(s, s.attempts[k])
    {
      assert AttemptOk(s, s.attempts[k]);
      assert k != i && HasStamp(a) && HasStamp(s.attempts[k]) ==> s.attempts[k].reservation != a.reservation;
    }
  }

  lemma ApplyKeepsInv(s: State, a: Action)
    requires Inv(s) && Civil(s, a)
    ensures Inv(Apply(s, a))
  {
    match a
    case Tick(ms) =>
      var t := Apply(s, a);
      forall i | 0 <= i < |t.attempts|
        ensures AttemptOk(t, t.attempts[i])
      {
        assert AttemptOk(s, s.attempts[i]);
      }
    case Step(i, move) =>
      if i < |s.attempts| {
        match move {
          case Stamp => StampKeepsInv(s, i);
          case Reserve => ReserveKeepsInv(s, i);
          case SaveJob => RecordingMoveKeepsInv(s, i, move);
          case Commit => RecordingMoveKeepsInv(s, i, move);
          case Release => RecordingMoveKeepsInv(s, i, move);
          case _ => QuietMoveKeepsInv(s, i, move);
        }
      }
  }

  lemma {:induction false} RunKeepsInv(s: State, actions: seq<Action>)
    requires Inv(s) && CivilRun(s, actions)
    ensures Inv(Run(s, actions))
    decreases |actions|
  {
    if actions != [] {
      ApplyKeepsInv(s, actions[0]);
      RunKeepsInv(Apply(s, actions[0]), actions[1..]);
    }
  }

  /**
   However the attempts interleave, fail, dawdle and die: as long as no reservation is granted while a job is saved or
   may still be saved, at most one job is ever saved for the key, every answer names that job, and a job binding names
   a saved job.
   */
  lemma OneJobPerKey(attempts: nat, now: nat, actions: seq<Action>)
    requires CivilRun(Init(attempts, now), actions)
    ensures var s := Run(Init(attempts, now), actions);
            && !TwoJobs(s)
            && (forall r :: r in s.returned ==> s.jobs == {r})
            && (s.entry.Some? && s.entry.value.Bound? ==> s.jobs == {s.entry.value.jobId})
  {
    RunKeepsInv(Init(attempts, now), actions);
    CivilRunKeepsOne(Init(attempts, now), actions);
  }

  /** Once a job is bound, every later attempt is answered with it and changes nothing else. */
  lemma LaterAttemptsReturnTheJob(s: State, i: nat, job: nat)
    requires Inv(s) && s.entry == Some(Bound(job)) && i < |s.attempts| && s.attempts[i].Stamped?
    ensures Take(s, i, Reserve) == To(s, i, Over).(returned := s.returned + [job])
  {
  }

  /**
   A commit that finds its own reservation, or no entry at all, binds its job, and a waiting attempt that reserves right
   after it is answered with that job.
   */
  lemma CommittedJobIsFound(s: State, i: nat, k: nat)
    requires i < |s.attempts| && k < |s.attempts| && i != k
    requires var a := s.attempts[i]; a.Working? && a.saved && a.jobId.Some? && a.jobId.value in s.jobs
    requires s.attempts[k].Stamped?
    requires s.entry == None || s.entry == Some(s.attempts[i].reservation)
    ensures var job, t := s.attempts[i].jobId.value, Take(Take(s, i, Commit), k, Reserve);
            t.entry == Some(Bound(job)) && t.jobs == s.jobs && t.returned == s.returned + [job, job]
  {
    var t := Take(s, i, Commit);
    assert t.attempts[k] == s.attempts[k];
    var job := s.attempts[i].jobId.value;
    assert s.returned + [job] + [job] == s.returned + [job, job];
  }

  /** A failing attempt whose job was saved leaves it bound all the same; one that saved nothing leaves no job. */
  lemma ReleasedJobIsFound(s: State, i: nat)
    requires IdsOk(s) && i < |s.attempts| && s.attempts[i].Failing?
    ensures var a, t := s.attempts[i], Take(s, i, Release);
            && t.jobs == s.jobs && t.returned == s.returned
            && t.entry == if a.saved then Some(Bound(a.jobId.value))
                          else if s.entry == Some(a.reservation) then None
                          else s.entry
  {
    assert IdOk(s, s.attempts[i]);
  }

  // ---------------------------------------------------------------- who need not fear one

  /**
   Attempts end within fifteen minutes of drawing their stamp, the wait for the lock included, and none is killed
   between saving its job and recording it.
   */
  predicate Prompt(s: State, a: Action) {
    match a
    case Tick(ms) =>
      forall i :: 0 <= i < |s.attempts| && HasStamp(s.attempts[i]) && s.attempts[i].reservation.Pending? ==>
                    s.now + ms - s.attempts[i].reservation.createdAt < PATIENCE_MS
    case Step(i, move) => move == Kill && i < |s.attempts| && Active(s.attempts[i]) ==> !s.attempts[i].saved
  }

  predicate PromptRun(s: State, actions: seq<Action>)
    decreases |actions|
  {
    actions == [] || (Prompt(s, actions[0]) && PromptRun(Apply(s, actions[0]), actions[1..]))
  }

  ghost predicate InTime(s: State, a: Attempt) {
    HasStamp(a) && a.reservation.Pending? ==>
      0 < a.reservation.createdAt && s.now - a.reservation.createdAt < PATIENCE_MS
  }

  predicate HasSaved(a: Attempt) {
    Active(a) && a.saved
  }

  ghost predicate Timely(s: State) {
    && s.now > 0
    && (forall k :: 0 <= k < |s.attempts| ==> InTime(s, s.attempts[k]))
    && (s.entry.Some? && s.entry.value.Pending? && s.jobs != {} ==>
          exists k :: 0 <= k < |s.attempts| && HasSaved(s.attempts[k]))
  }

  lemma OwnerInTime(s: State, k: nat)
    requires Inv(s) && Timely(s) && k < |s.attempts| && (s.attempts[k].Working? || HasSaved(s.attempts[k]))
    ensures !Granted(s.entry, s.jobs, s.now)
  {
    assert AttemptOk(s, s.attempts[k]) && InTime(s, s.attempts[k]);
  }

  lemma TimelyIsCivil(s: State, a: Action)
    requires Inv(s) && Timely(s)
    ensures Civil(s, a)
  {
    if k: nat :| k < |s.attempts| && (s.attempts[k].Working? || HasSaved(s.attempts[k])) {
      OwnerInTime(s, k);
    } else if SomeoneMaySave(s) {
      assert false;
    }
  }

  lemma PromptKeepsTimely(s: State, a: Action)
    requires Inv(s) && Timely(s) && Prompt(s, a)
    ensures Timely(Apply(s, a))
  {
    var t := Apply(s, a);
    forall k | 0 <= k < |t.attempts|
      ensures InTime(t, t.attempts[k])
    {
      assert InTime(s, s.attempts[k]) && AttemptOk(s, s.attempts[k]);
    }
    if a.Step? && a.i < |s.attempts| {
      assert AttemptOk(s, s.attempts[a.i]);
    }
    if t.entry.Some? && t.entry.value.Pending? && t.jobs != {} {
      SaverStays(s, a);
    }
  }

  lemma SaverStays(s: State, a: Action)
    requires Inv(s) && Timely(s) && Prompt(s, a)
    requires var t := Apply(s, a); t.entry.Some? && t.entry.value.Pending? && t.jobs != {}
    ensures exists k :: 0 <= k < |Apply(s, a).attempts| && HasSaved(Apply(s, a).attempts[k])
  {
    var t := Apply(s, a);
    TimelyIsCivil(s, a);
    if a.Step? && a.i < |s.attempts| && a.move == SaveJob && t != s {
      assert HasSaved(t.attempts[a.i]);
    } else if a.Step? && a.i < |s.attempts| {
      assert AttemptOk(s, s.attempts[a.i]);
      var k :| 0 <= k < |s.attempts| && HasSaved(s.attempts[k]);
      assert AttemptOk(s, s.attempts[k]);
      assert k != a.i ==> t.attempts[k] == s.attempts[k];
      assert HasSaved(t.attempts[k]);
    } else {
      assert t.attempts == s.attempts;
    }
  }

  lemma {:induction false} PromptRunIsCivil(s: State, actions: seq<Action>)
    requires Inv(s) && Timely(s) && PromptRun(s, actions)
    ensures CivilRun(s, actions)
    decreases |actions|
  {
    if actions != [] {
      TimelyIsCivil(s, actions[0]);
      ApplyKeepsInv(s, actions[0]);
      PromptKeepsTimely(s, actions[0]);
      PromptRunIsCivil(Apply(s, actions[0]), actions[1..]);
    }
  }

  /** So attempts that end in time and are not killed between saving and recording share one job. */
  lemma PromptAttemptsShareOneJob(attempts: nat, now: nat, actions: seq<Action>)
    requires now > 0 && PromptRun(Init(attempts, now), actions)
    ensures !TwoJobs(Run(Init(attempts, now), actions))
    ensures forall r :: r in Run(Init(attempts, now), actions).returned ==>
                          Run(Init(attempts, now), actions).jobs == {r}
  {
    PromptRunIsCivil(Init(attempts, now), actions);
    OneJobPerKey(attempts, now, actions);
  }

  // ---------------------------------------------------------------- such a grant is reachable

  /** Attempt `i` draws its stamp and reserves. */
  function ReserveSteps(i: nat): seq<Action> {
    [Step(i, Stamp), Step(i, Reserve)]
  }

  lemma RunOfTwo(s: State, a: Action, b: Action)
    ensures Run(s, [a, b]) == Apply(Apply(s, a), b)
    ensures CivilRun(s, [a, b]) <==> Civil(s, a) && Civil(Apply(s, a), b)
  {
    RunCons(s, a, [b]);
    RunCons(Apply(s, a), b, []);
    assert [a] + [b] == [a, b] && [b] + [] == [b];
  }

  /** Three attempts on one key, the first of which has saved its job. */
  function SavedOnce(now: nat): State {
    State(Some(Pending(0, now)), {1}, now, 2, [Working(Pending(0, now), Some(1), true), Fresh, Fresh], [])
  }

  lemma SavedOnceIsReachable(now: nat)
    ensures Run(Init(3, now), ReserveSteps(0) + SaveSteps(0)) == SavedOnce(now)
  {
    var s0 := Init(3, now);
    var s1 := Run(s0, ReserveSteps(0));
    RunOfTwo(s0, Step(0, Stamp), Step(0, Reserve));
    assert s1.attempts == [Working(Pending(0, now), None, false), Fresh, Fresh];
    RunAppend(s0, ReserveSteps(0), SaveSteps(0));
    RunOfTwo(s1, Step(0, ChooseId), Step(0, SaveJob));
    var s2 := Run(s1, SaveSteps(0));
    assert s2.attempts == [Working(Pending(0, now), Some(1), true), Fresh, Fresh] && s2.jobs == {1};
  }

  /** From there the next attempt doubles once the fifteen minutes are past, whether the first was killed or dawdles. */
  lemma WaitingLeadsToADouble(now: nat, ms: nat, killed: bool)
    requires now > 0
    ensures var s := Apply(SavedOnce(now), Tick(ms));
            var t := if killed then Apply(s, Step(0, Kill)) else s;
            Doubles(Apply(t, Step(1, Stamp)), 1) <==> ms >= 900_000
  {
  }

  /** A second attempt that is granted its reservation then, fails, and withdraws it. */
  function FailedRetry(): seq<Action> {
    [Step(0, Kill), Tick(PATIENCE_MS)] + (ReserveSteps(1) + [Step(1, Throw), Step(1, Release)])
  }

  /** It leaves no reservation to expire: from then on every attempt is granted one at once, and doubles. */
  lemma FailedRetryLeavesNoGuard(now: nat)
    requires now > 0
    ensures var s := Run(Init(3, now), ReserveSteps(0) + SaveSteps(0) + FailedRetry());
            && s.entry == None && s.jobs == {1} && !TwoPossible(s)
            && Doubles(Apply(s, Step(2, Stamp)), 2)
  {
    SavedOnceIsReachable(now);
    var last := [Step(1, Throw), Step(1, Release)];
    var s0 := SavedOnce(now);
    var s1 := Apply(Apply(s0, Step(0, Kill)), Tick(PATIENCE_MS));
    var s2 := Apply(Apply(s1, Step(1, Stamp)), Step(1, Reserve));
    var s3 := Apply(Apply(s2, Step(1, Throw)), Step(1, Release));
    RunAppend(Init(3, now), ReserveSteps(0) + SaveSteps(0), FailedRetry());
    RunOfTwo(s0, Step(0, Kill), Tick(PATIENCE_MS));
    RunAppend(s0, [Step(0, Kill), Tick(PATIENCE_MS)], ReserveSteps(1) + last);
    RunOfTwo(s1, Step(1, Stamp), Step(1, Reserve));
    RunAppend(s1, ReserveSteps(1), last);
    RunOfTwo(s2, Step(1, Throw), Step(1, Release));
    assert s2.attempts == [Over, Working(Pending(2, now + PATIENCE_MS), None, false), Fresh];
    assert s3.attempts == [Over, Over, Fresh];
  }
}
