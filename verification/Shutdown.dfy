/** The shutdown state machine and the supervisor that drives it (src/server/shutdown.rs). */
module Shutdown {
  import opened Prelude

  datatype Phase = Running | Draining | Forcing | Complete

  datatype Trigger = Sigint | Sigterm | StdinEof | Timeout | GracefulComplete
  {
    predicate IsSignal() {
      Sigint? || Sigterm?
    }
  }

  datatype Action = Ignore | BeginGraceful | Force | Complete

  datatype State = State(phase: Phase, stdinIsTty: bool, firstTrigger: Option<Trigger>)

  datatype Transition = Transition(state: State, action: Action, showForceHint: bool)

  function Start(stdinIsTty: bool): State {
    State(Running, stdinIsTty, None)
  }

  function Apply(s: State, t: Trigger): Transition {
    match s.phase
    case Running =>
      if t.IsSignal() then
        Transition(s.(phase := Draining, firstTrigger := Some(t)), BeginGraceful, s.stdinIsTty && t.Sigint?)
      else Transition(s, Ignore, false)
    case Draining => (
      match t
      case GracefulComplete => Transition(s.(phase := Phase.Complete), Action.Complete, false)
      case StdinEof =>
        if s.stdinIsTty && s.firstTrigger == Some(Sigint) then Transition(s.(phase := Forcing), Force, false)
        else Transition(s, Ignore, false)
      case _ => Transition(s.(phase := Forcing), Force, false))
    case _ => Transition(s, Ignore, false)
  }

  // ---------------------------------------------------------------- all trigger sequences

  datatype Call = GracefulShutdown | ShutdownNow | Abort

  /** What a sequence of triggers comes to: the state, the actions other than `Ignore`, the calls owed, the signals. */
  datatype History = History(state: State, emitted: seq<Action>, calls: seq<Call>, signals: nat)

  function Owed(action: Action): seq<Call> {
    match action
    case BeginGraceful => [GracefulShutdown]
    case Force => [ShutdownNow]
    case _ => []
  }

  function Step(h: History, t: Trigger): History {
    var next := Apply(h.state, t);
    History(next.state,
            if next.action == Ignore then h.emitted else h.emitted + [next.action],
            h.calls + Owed(next.action),
            if t.IsSignal() then h.signals + 1 else h.signals)
  }

  function Fold(tty: bool, ts: seq<Trigger>): History {
    if ts == [] then History(Start(tty), [], [], 0) else Step(Fold(tty, ts[..|ts| - 1]), ts[|ts| - 1])
  }

  lemma OneMoreTrigger(tty: bool, ts: seq<Trigger>, t: Trigger)
    ensures Fold(tty, ts + [t]) == Step(Fold(tty, ts), t)
  {
    assert (ts + [t])[..|ts|] == ts;
  }

  /** `i` is the place of the first signal. */
  predicate FirstSignalAt(ts: seq<Trigger>, i: int) {
    0 <= i < |ts| && ts[i].IsSignal() && forall k :: 0 <= k < i ==> !ts[k].IsSignal()
  }

  /** What ends a drain that `first` began: everything but an end of file without its terminal and Ctrl-C. */
  predicate Decides(tty: bool, first: Trigger, t: Trigger) {
    t.StdinEof? ==> tty && first.Sigint?
  }

  predicate FirstDecidingAt(tty: bool, ts: seq<Trigger>, i: int, j: int) {
    0 <= i < j < |ts| && Decides(tty, ts[i], ts[j]) && forall k :: i < k < j ==> !Decides(tty, ts[i], ts[k])
  }

  /** The final state read off the triggers: who signalled first, and what decided after that. */
  ghost predicate ReadOff(tty: bool, ts: seq<Trigger>, s: State, emitted: seq<Action>) {
    && s.stdinIsTty == tty
    && match s.phase
       case Running => s.firstTrigger == None && emitted == [] && forall k :: 0 <= k < |ts| ==> !ts[k].IsSignal()
       case Draining =>
         && emitted == [BeginGraceful]
         && exists i :: FirstSignalAt(ts, i) && s.firstTrigger == Some(ts[i])
                        && forall k :: i < k < |ts| ==> !Decides(tty, ts[i], ts[k])
       case Forcing =>
         && emitted == [BeginGraceful, Force]
         && exists i, j :: FirstSignalAt(ts, i) && s.firstTrigger == Some(ts[i])
                           && FirstDecidingAt(tty, ts, i, j) && ts[j] != GracefulComplete
       case Complete =>
         && emitted == [BeginGraceful, Action.Complete]
         && exists i, j :: FirstSignalAt(ts, i) && s.firstTrigger == Some(ts[i])
                           && FirstDecidingAt(tty, ts, i, j) && ts[j] == GracefulComplete
  }

  /** One more trigger moves what is read off as the state machine moves. */
  lemma ReadOffStep(tty: bool, ts: seq<Trigger>, s: State, emitted: seq<Action>, t: Trigger)
    requires ReadOff(tty, ts, s, emitted)
    ensures var next := Apply(s, t);
            ReadOff(tty, ts + [t], next.state, if next.action == Ignore then emitted else emitted + [next.action])
  {
    var more := ts + [t];
    match s.phase
    case Running =>
      assert t.IsSignal() ==> FirstSignalAt(more, |ts|);
    case Draining =>
      var i :| FirstSignalAt(ts, i) && s.firstTrigger == Some(ts[i])
               && forall k :: i < k < |ts| ==> !Decides(tty, ts[i], ts[k]);
      assert FirstSignalAt(more, i) && more[i] == ts[i];
      assert Decides(tty, ts[i], t) ==> FirstDecidingAt(tty, more, i, |ts|);
    case _ =>
      var i, j :| FirstSignalAt(ts, i) && s.firstTrigger == Some(ts[i]) && FirstDecidingAt(tty, ts, i, j)
                  && (ts[j] == GracefulComplete <==> s.phase == Phase.Complete);
      assert FirstSignalAt(more, i) && more[i] == ts[i] && FirstDecidingAt(tty, more, i, j) && more[j] == ts[j];
  }

  /** For every sequence of triggers, the state and the actions are those read off it. */
  lemma {:induction false} StateInClosedForm(tty: bool, ts: seq<Trigger>)
    ensures ReadOff(tty, ts, Fold(tty, ts).state, Fold(tty, ts).emitted)
  {
    if ts != [] {
      var before := ts[..|ts| - 1];
      StateInClosedForm(tty, before);
      ReadOffStep(tty, before, Fold(tty, before).state, Fold(tty, before).emitted, ts[|ts| - 1]);
      assert before + [ts[|ts| - 1]] == ts;
    }
  }

  lemma OnlyOneReading(tty: bool, ts: seq<Trigger>, s: State, t: State, a: seq<Action>, b: seq<Action>)
    requires ReadOff(tty, ts, s, a) && ReadOff(tty, ts, t, b)
    ensures s == t && a == b
  {
    if s.phase != Running && t.phase != Running {
      var i :| FirstSignalAt(ts, i) && s.firstTrigger == Some(ts[i])
               && (s.phase == Draining ==> forall k :: i < k < |ts| ==> !Decides(tty, ts[i], ts[k]));
      var k :| FirstSignalAt(ts, k) && t.firstTrigger == Some(ts[k])
               && (t.phase == Draining ==> forall n :: k < n < |ts| ==> !Decides(tty, ts[k], ts[n]));
      assert i == k;
    }
  }

  /** The closed form is exact: it fixes the phase, the first trigger and the actions. */
  lemma ClosedFormIsExact(tty: bool, ts: seq<Trigger>, s: State, emitted: seq<Action>)
    ensures ReadOff(tty, ts, s, emitted) <==> s == Fold(tty, ts).state && emitted == Fold(tty, ts).emitted
  {
    StateInClosedForm(tty, ts);
    if ReadOff(tty, ts, s, emitted) {
      OnlyOneReading(tty, ts, s, Fold(tty, ts).state, emitted, Fold(tty, ts).emitted);
    }
  }

  function Rank(p: Phase): nat {
    match p
    case Running => 0
    case Draining => 1
    case _ => 2
  }

  /** More triggers never take the phase back, never retract an action, and change nothing once the drain is decided. */
  lemma {:induction false} PhaseOnlyMovesForward(tty: bool, ts: seq<Trigger>, more: seq<Trigger>)
    ensures Rank(Fold(tty, ts).state.phase) <= Rank(Fold(tty, ts + more).state.phase)
    ensures Fold(tty, ts).emitted <= Fold(tty, ts + more).emitted
    ensures Rank(Fold(tty, ts).state.phase) == 2 ==>
              Fold(tty, ts + more).state == Fold(tty, ts).state && Fold(tty, ts + more).emitted == Fold(tty, ts).emitted
  {
    if more == [] {
      assert ts + more == ts;
    } else {
      assert (ts + more)[..|ts + more| - 1] == ts + more[..|more| - 1];
      PhaseOnlyMovesForward(tty, ts, more[..|more| - 1]);
    }
  }

  // ---------------------------------------------------------------- signals

  datatype SignalStream = Interrupt | Terminate

  datatype IoError = BrokenPipe(message: string)

  /** `Signals::recv`: the stream that spoke first, with an item or at its end. */
  function Recv(stream: SignalStream, open: bool): Result<Trigger, IoError> {
    match stream
    case Interrupt => if open then Success(Sigint) else Failure(BrokenPipe("SIGINT stream closed"))
    case Terminate => if open then Success(Sigterm) else Failure(BrokenPipe("SIGTERM stream closed"))
  }

  /** What the signal task puts into the channel: everything up to the first error, after which the channel closes. */
  function Forward(items: seq<(SignalStream, bool)>): seq<Option<Result<Trigger, IoError>>> {
    if items == [] then [None]
    else
      var item := Recv(items[0].0, items[0].1);
      [Some(item)] + if item.Success? then Forward(items[1..]) else [None]
  }

  predicate FromSignals(item: Option<Result<Trigger, IoError>>) {
    item.Some? && item.value.Success? ==> item.value.value.IsSignal()
  }

  lemma {:induction false} ForwardsOnlySignals(items: seq<(SignalStream, bool)>, k: nat)
    requires k < |Forward(items)|
    ensures FromSignals(Forward(items)[k])
  {
    if items != [] && k > 0 && items[0].1 {
      ForwardsOnlySignals(items[1..], k - 1);
    }
  }

  // ---------------------------------------------------------------- the supervisor

  datatype Config = Config(stdinIsTty: bool, watchStdinEof: bool)

  datatype ServerResult = Clean | ServedWithError | Joined(panicked: bool)

  /** What may happen while the supervisor waits, in the order in which it becomes ready. */
  datatype Event =
    | ServerEnd(result: ServerResult)
    | Receive(item: Option<Result<Trigger, IoError>>)
    | Deadline
    | EndOfFile

  datatype Verdict =
    | Waiting
    | Outcome(forced: bool, trigger: Trigger)
    | ServerError(result: ServerResult)
    | SignalError(error: IoError)
    | InvalidFirst(trigger: Trigger)
    | InvalidTransition(phase: Phase, trigger: Trigger)
    | NotSettled(remaining: nat)

  /** The arms of the two races: the deadline exists in the second only, and `receive_eof` is pending unless armed. */
  predicate Hears(draining: bool, armed: bool, e: Event) {
    e.ServerEnd? || e.Receive? || (draining && e.Deadline?) || (draining && armed && e.EndOfFile?)
  }

  /** The place of the first event that a race hears, or the end. */
  function Race(events: seq<Event>, from: nat, draining: bool, armed: bool): (i: nat)
    requires from <= |events|
    ensures from <= i <= |events| && (i < |events| ==> Hears(draining, armed, events[i]))
    ensures forall k :: from <= k < i ==> !Hears(draining, armed, events[k])
    decreases |events| - from
  {
    if from == |events| || Hears(draining, armed, events[from]) then from
    else Race(events, from + 1, draining, armed)
  }

  /** The channel is the signal task's: whatever is received from it is a signal or an error. */
  predicate SignalsOnly(events: seq<Event>) {
    forall e :: e in events && e.Receive? ==> FromSignals(e.item)
  }

  /** So a channel fed by the signal task carries signals only. */
  lemma SignalTaskFeedsSignals(items: seq<(SignalStream, bool)>, events: seq<Event>)
    requires forall e :: e in events && e.Receive? ==> e.item in Forward(items)
    ensures SignalsOnly(events)
  {
    forall e | e in events && e.Receive?
      ensures FromSignals(e.item)
    {
      var k :| 0 <= k < |Forward(items)| && Forward(items)[k] == e.item;
      ForwardsOnlySignals(items, k);
    }
  }

  predicate Armed(config: Config, watcher: bool, first: Trigger) {
    config.stdinIsTty && first.Sigint? && config.watchStdinEof && watcher
  }

  function Heard(events: seq<Event>, from: nat, draining: bool, armed: bool): (heard: Option<Event>)
    requires from <= |events|
    ensures heard.Some? ==> heard.value in events[from..] && Hears(draining, armed, heard.value)
    ensures heard == None ==> forall k :: from <= k < |events| ==> !Hears(draining, armed, events[k])
  {
    var i := Race(events, from, draining, armed);
    if i < |events| then Some(events[i]) else None
  }

  /** The trigger that ends the drain when the server does not. */
  function Forcer(heard: Event): Option<Trigger> {
    match heard
    case Receive(Some(Success(t))) => Some(t)
    case Deadline => Some(Timeout)
    case EndOfFile => Some(StdinEof)
    case _ => None
  }

  /** The first signal. */
  lemma Begins(tty: bool, first: Trigger)
    requires first.IsSignal()
    ensures Fold(tty, [first]) == History(Apply(Start(tty), first).state, [BeginGraceful], [GracefulShutdown], 1)
  {
    OneMoreTrigger(tty, [], first);
    assert [] + [first] == [first];
  }

  /** The first signal and a trigger that decides what becomes of the drain. */
  lemma Ends(tty: bool, first: Trigger, second: Trigger)
    requires first.IsSignal() && Decides(tty, first, second)
    ensures var h := Fold(tty, [first, second]);
            && h.state == Apply(Fold(tty, [first]).state, second).state
            && h.state.phase == (if second.GracefulComplete? then Phase.Complete else Forcing)
            && h.calls == (if second.GracefulComplete? then [GracefulShutdown] else [GracefulShutdown, ShutdownNow])
            && h.signals == if second.IsSignal() then 2 else 1
  {
    Begins(tty, first);
    OneMoreTrigger(tty, [first], second);
    assert [first] + [second] == [first, second];
  }

  /** State, signal count and calls are what the accepted triggers make them; an abort may follow. */
  ghost predicate Follows(h: History, state: State, signalCount: nat, calls: seq<Call>, aborted: bool) {
    state == h.state && signalCount == h.signals && calls == if aborted then h.calls + [Abort] else h.calls
  }

  /** What the end of the server says after the immediate shutdown. */
  function Settled(trigger: Trigger, settled: Option<ServerResult>, remaining: nat): Verdict {
    match settled
    case None => NotSettled(remaining)
    case Some(Clean) => Outcome(true, trigger)
    case Some(failed) => ServerError(failed)
  }

  /**
   The end of the supervisor: count and apply the trigger that ends the drain, check it, and close every connection.
   */
  method ForceShutdown(draining: State, firstTrigger: Trigger, forceTrigger: Trigger, settled: Option<ServerResult>,
      remaining: nat)
    returns (r: Verdict, calls: seq<Call>, state: State, signalCount: nat, seen: seq<Trigger>)
    requires firstTrigger.IsSignal() && draining == Fold(draining.stdinIsTty, [firstTrigger]).state
    ensures Follows(Fold(draining.stdinIsTty, seen), state, signalCount, calls, r.NotSettled?)
    ensures if forceTrigger == GracefulComplete || !Decides(draining.stdinIsTty, firstTrigger, forceTrigger)
            then r == InvalidTransition(Draining, forceTrigger) && seen == [firstTrigger] && state.phase == Draining
            else
              && r == Settled(forceTrigger, settled, remaining)
              && seen == [firstTrigger, forceTrigger] && state.phase == Forcing
  {
    Begins(draining.stdinIsTty, firstTrigger);
    state, signalCount, calls, seen := draining, 1, [GracefulShutdown], [firstTrigger];
    if forceTrigger.IsSignal() {
      signalCount := Min(signalCount + 1, 0xFFFF_FFFF);
    }
    var forced := Apply(state, forceTrigger);
    if forced.action != Force {
      r := InvalidTransition(state.phase, forceTrigger);
      return;
    }
    Ends(draining.stdinIsTty, firstTrigger, forceTrigger);
    state, seen, calls := forced.state, [firstTrigger, forceTrigger], [GracefulShutdown, ShutdownNow];
    match settled {
      case Some(Clean) => r := Outcome(true, forceTrigger);
      case Some(result) => r := ServerError(result);
      case None =>
        calls := calls + [Abort];
        r := NotSettled(remaining);
    }
  }

  /**
   How a drain that `first` began ends, by the event its race hears: it waits, the second check fails on the trigger,
   the trigger forces the shutdown, or the server or the channel ends it.
   */
  ghost predicate EndsDrain(tty: bool, first: Trigger, heard: Option<Event>, settled: Option<ServerResult>,
      remaining: nat,
                            r: Verdict, phase: Phase, seen: seq<Trigger>) {
    match heard
    case None => r == Waiting && seen == [first] && phase == Draining
    case Some(event) =>
      match Forcer(event)
      case Some(t) =>
        if t == GracefulComplete || !Decides(tty, first, t)
        then r == InvalidTransition(Draining, t) && seen == [first] && phase == Draining
        else r == Settled(t, settled, remaining) && seen == [first, t] && phase == Forcing
      case None =>
        if event == ServerEnd(Clean)
        then r == Outcome(false, first) && seen == [first, GracefulComplete] && phase == Phase.Complete
        else r == Broken(event) && seen == [first] && phase == Draining
  }

  /** The error of a server or channel that ends a race. */
  function Broken(event: Event): Verdict {
    match event
    case ServerEnd(result) => ServerError(result)
    case Receive(Some(Failure(error))) => SignalError(error)
    case _ => SignalError(CLOSED)
  }

  /** The second race: the server finishes, the drain is forced, or the second check fails. */
  method Drain(draining: State, firstTrigger: Trigger, heard: Option<Event>, settled: Option<ServerResult>,
      remaining: nat)
    returns (r: Verdict, calls: seq<Call>, state: State, signalCount: nat, seen: seq<Trigger>)
    requires firstTrigger.IsSignal() && draining == Fold(draining.stdinIsTty, [firstTrigger]).state
    ensures Follows(Fold(draining.stdinIsTty, seen), state, signalCount, calls, r.NotSettled?)
    ensures EndsDrain(draining.stdinIsTty, firstTrigger, heard, settled, remaining, r, state.phase, seen)
  {
    Begins(draining.stdinIsTty, firstTrigger);
    state, signalCount, calls, seen := draining, 1, [GracefulShutdown], [firstTrigger];
    match heard {
      case None => r := Waiting;
      case Some(ServerEnd(result)) =>
        if result != Clean {
          r := ServerError(result);
          return;
        }
        Ends(draining.stdinIsTty, firstTrigger, GracefulComplete);
        state, seen := Apply(state, GracefulComplete).state, [firstTrigger, GracefulComplete];
        r := Outcome(false, firstTrigger);
      case Some(Receive(None)) => r := SignalError(CLOSED);
      case Some(Receive(Some(Failure(error)))) => r := SignalError(error);
      case Some(Receive(Some(Success(trigger)))) =>
        r, calls, state, signalCount, seen := ForceShutdown(state, firstTrigger, trigger, settled, remaining);
      case Some(Deadline) =>
        r, calls, state, signalCount, seen := ForceShutdown(state, firstTrigger, Timeout, settled, remaining);
      case Some(EndOfFile) =>
        r, calls, state, signalCount, seen := ForceShutdown(state, firstTrigger, StdinEof, settled, remaining);
    }
  }

  const CLOSED: IoError := BrokenPipe("shutdown signal stream closed")

  /** What the second race hears after `first`. */
  function Second(config: Config, events: seq<Event>, watcher: bool, first: Trigger): (heard: Option<Event>)
    requires Heard(events, 0, false, false).Some?
    ensures heard.Some? ==> heard.value in events && (heard.value.EndOfFile? ==> Armed(config, watcher, first))
  {
    Heard(events, Race(events, 0, false, false) + 1, true, Armed(config, watcher, first))
  }

  /** How supervision ends, by what the first race hears and, after a signal, by what the second hears. */
  ghost predicate Supervised(config: Config, events: seq<Event>, watcher: bool, settled: Option<ServerResult>,
      remaining: nat,
                             r: Verdict, phase: Phase, seen: seq<Trigger>) {
    var heard := Heard(events, 0, false, false);
    if heard.Some? && Forcer(heard.value).Some? && Forcer(heard.value).value.IsSignal() then
      var first := Forcer(heard.value).value;
      EndsDrain(config.stdinIsTty, first, Second(config, events, watcher, first), settled, remaining, r, phase, seen)
    else r == Unstarted(heard) && seen == [] && phase == Running
  }

  /** The verdict when no signal begins a drain. */
  function Unstarted(heard: Option<Event>): Verdict {
    match heard
    case None => Waiting
    case Some(ServerEnd(Clean)) => Outcome(false, GracefulComplete)
    case Some(Receive(Some(Success(trigger)))) => InvalidFirst(trigger)
    case Some(event) => Broken(event)
  }

  /**
   `supervise_with_triggers`. `seen` is the sequence of triggers it has accepted: its state is the machine's state
   after them, and it has made exactly the calls that their actions owe the server, and an abort if the server does not
   settle.
   */
  method SuperviseWithTriggers(config: Config, events: seq<Event>, watcher: bool, settled: Option<ServerResult>,
      remaining: nat)
    returns (r: Verdict, calls: seq<Call>, state: State, signalCount: nat, seen: seq<Trigger>)
    ensures Follows(Fold(config.stdinIsTty, seen), state, signalCount, calls, r.NotSettled?)
    ensures Supervised(config, events, watcher, settled, remaining, r, state.phase, seen)
  {
    calls, state, signalCount, seen := [], Start(config.stdinIsTty), 0, [];
    var heard := Heard(events, 0, false, false);
    var firstTrigger;
    match heard {
      case Some(Receive(Some(Success(trigger)))) => firstTrigger := trigger;
      case _ =>
        r := Unstarted(heard);
        return;
    }
    var first := Apply(state, firstTrigger);
    if first.action != BeginGraceful {
      r := InvalidFirst(firstTrigger);
      return;
    }
    Begins(config.stdinIsTty, firstTrigger);
    var armed := first.showForceHint && config.watchStdinEof && watcher;
    var next := Heard(events, Race(events, 0, false, false) + 1, true, armed);
    r, calls, state, signalCount, seen := Drain(first.state, firstTrigger, next, settled, remaining);
  }

  predicate Delivers(heard: Option<Event>, t: Trigger) {
    heard == Some(Receive(Some(Success(t))))
  }

  /**
   The first check fails exactly when the first trigger received is not a signal; the second exactly when, after a
   signal, the channel delivers a completion or an end of file that the state machine ignores. The deadline and the
   armed watcher never make it fail.
   */
  lemma ChecksFailOnlyOnForeignTriggers(config: Config, events: seq<Event>, watcher: bool,
      settled: Option<ServerResult>,
                                        remaining: nat, r: Verdict, phase: Phase, seen: seq<Trigger>)
    requires Supervised(config, events, watcher, settled, remaining, r, phase, seen)
    ensures r.InvalidFirst? <==>
            exists t :: Delivers(Heard(events, 0, false, false), t) && !t.IsSignal()
    ensures r.InvalidTransition? <==>
            exists first, t :: Delivers(Heard(events, 0, false, false), first) && first.IsSignal()
                               && Delivers(Second(config, events, watcher, first), t)
                               && (t == GracefulComplete || !Decides(config.stdinIsTty, first, t))
  {
    var heard := Heard(events, 0, false, false);
    if heard.Some? && Forcer(heard.value).Some? {
      var first := Forcer(heard.value).value;
      assert Delivers(heard, first);
      if first.IsSignal() {
        var next := Second(config, events, watcher, first);
        if next.Some? && Forcer(next.value).Some? && !next.value.Deadline? && !next.value.EndOfFile? {
          assert Delivers(next, Forcer(next.value).value);
        }
      }
    }
  }

  /** Behind `Signals::recv` neither check can fail. */
  lemma SignalsPassBothChecks(config: Config, events: seq<Event>, watcher: bool, settled: Option<ServerResult>,
                              remaining: nat, r: Verdict, phase: Phase, seen: seq<Trigger>)
    requires Supervised(config, events, watcher, settled, remaining, r, phase, seen) && SignalsOnly(events)
    ensures !r.InvalidFirst? && !r.InvalidTransition?
  {
    ChecksFailOnlyOnForeignTriggers(config, events, watcher, settled, remaining, r, phase, seen);
    var heard := Heard(events, 0, false, false);
    if heard.Some? && heard.value.Receive? {
      assert FromSignals(heard.value.item);
      forall first, t | Delivers(heard, first) && Delivers(Second(config, events, watcher, first), t)
        ensures t.IsSignal()
      {
        assert FromSignals(Second(config, events, watcher, first).value.item);
      }
    }
  }

  // ---------------------------------------------------------------- the verdict, by the positions of events

  /** What ends the wait before any shutdown has begun. */
  predicate Starts(e: Event) {
    e.ServerEnd? || e.Receive?
  }

  /** What ends a drain: the server, the channel, the grace deadline, and the end of file where that may force. */
  predicate Stops(e: Event, eof: bool) {
    e.ServerEnd? || e.Receive? || e.Deadline? || (e.EndOfFile? && eof)
  }

  predicate FirstStart(events: seq<Event>, i: int) {
    0 <= i < |events| && Starts(events[i]) && forall k :: 0 <= k < i ==> !Starts(events[k])
  }

  predicate FirstStop(events: seq<Event>, from: int, eof: bool, j: int) {
    0 <= from <= j < |events| && Stops(events[j], eof) && forall k :: from <= k < j ==> !Stops(events[k], eof)
  }

  /** The end of a forced shutdown. */
  predicate ForcedBy(t: Trigger, settled: Option<ServerResult>, remaining: nat, r: Verdict) {
    match settled
    case None => r == NotSettled(remaining)
    case Some(Clean) => r == Outcome(true, t)
    case Some(failed) => r == ServerError(failed)
  }

  lemma HeardAt(events: seq<Event>, from: nat, draining: bool, armed: bool, i: nat)
    requires from <= i < |events| && Hears(draining, armed, events[i])
    requires forall k :: from <= k < i ==> !Hears(draining, armed, events[k])
    ensures Race(events, from, draining, armed) == i && Heard(events, from, draining, armed) == Some(events[i])
  {
  }

  lemma HeardNothing(events: seq<Event>, from: nat, draining: bool, armed: bool)
    requires from <= |events| && forall k :: from <= k < |events| ==> !Hears(draining, armed, events[k])
    ensures Heard(events, from, draining, armed) == None
  {
    var i := Race(events, from, draining, armed);
  }

  /** Nothing that starts: the supervisor waits. Otherwise the first such event decides. */
  lemma VerdictBeforeShutdown(config: Config, events: seq<Event>, watcher: bool, settled: Option<ServerResult>,
                              remaining: nat, r: Verdict, phase: Phase, seen: seq<Trigger>)
    requires Supervised(config, events, watcher, settled, remaining, r, phase, seen)
    ensures (forall k :: 0 <= k < |events| ==> !Starts(events[k])) ==> r == Waiting && seen == []
    ensures forall i :: FirstStart(events, i) ==>
              match events[i]
              case ServerEnd(Clean) => r == Outcome(false, GracefulComplete) && seen == [] && phase == Running
              case ServerEnd(failed) => r == ServerError(failed) && seen == [] && phase == Running
              case Receive(None) =>
                r == SignalError(BrokenPipe("shutdown signal stream closed")) && seen == [] && phase == Running
              case Receive(Some(Failure(error))) => r == SignalError(error) && seen == [] && phase == Running
              case Receive(Some(Success(t))) =>
                (t == Sigint || t == Sigterm ==> |seen| > 0 && seen[0] == t && !r.InvalidFirst?)
                && (t != Sigint && t != Sigterm ==> r == InvalidFirst(t) && seen == [] && phase == Running)
              case _ => false
  {
    if forall k :: 0 <= k < |events| ==> !Starts(events[k]) {
      HeardNothing(events, 0, false, false);
    }
    forall i | FirstStart(events, i)
      ensures Heard(events, 0, false, false) == Some(events[i])
    {
      HeardAt(events, 0, false, false, i);
    }
  }

  /** How the event that stops a drain decides, by its kind. */
  predicate DecidedBy(tty: bool, first: Trigger, event: Event, settled: Option<ServerResult>, remaining: nat,
                      r: Verdict, phase: Phase, seen: seq<Trigger>) {
    match event
    case ServerEnd(Clean) => r == Outcome(false, first) && seen == [first, GracefulComplete] && phase == Phase.Complete
    case ServerEnd(failed) => r == ServerError(failed) && seen == [first] && phase == Draining
    case Receive(None) =>
      r == SignalError(BrokenPipe("shutdown signal stream closed")) && seen == [first] && phase == Draining
    case Receive(Some(Failure(error))) => r == SignalError(error) && seen == [first] && phase == Draining
    case Receive(Some(Success(GracefulComplete))) =>
      r == InvalidTransition(Draining, GracefulComplete) && seen == [first] && phase == Draining
    case Receive(Some(Success(StdinEof))) =>
      if tty && first == Sigint
      then ForcedBy(StdinEof, settled, remaining, r) && seen == [first, StdinEof] && phase == Forcing
      else r == InvalidTransition(Draining, StdinEof) && seen == [first] && phase == Draining
    case Receive(Some(Success(t))) => ForcedBy(t, settled, remaining, r) && seen == [first, t] && phase == Forcing
    case Deadline => ForcedBy(Timeout, settled, remaining, r) && seen == [first, Timeout] && phase == Forcing
    case EndOfFile => ForcedBy(StdinEof, settled, remaining, r) && seen == [first, StdinEof] && phase == Forcing
  }

  lemma StopDecides(tty: bool, first: Trigger, event: Event, settled: Option<ServerResult>, remaining: nat,
                    r: Verdict, phase: Phase, seen: seq<Trigger>)
    requires EndsDrain(tty, first, Some(event), settled, remaining, r, phase, seen)
    requires event.EndOfFile? ==> tty && first == Sigint
    ensures DecidedBy(tty, first, event, settled, remaining, r, phase, seen)
  {
  }

  /**
   After a signal `first` at place `i`: nothing that stops leaves the supervisor waiting, and otherwise the first such
   event decides. The end of file counts exactly after a Ctrl-C on a terminal whose watcher runs.
   */
  lemma VerdictAfterSignal(config: Config, events: seq<Event>, watcher: bool, settled: Option<ServerResult>,
                           remaining: nat, r: Verdict, phase: Phase, seen: seq<Trigger>, i: nat, first: Trigger)
    requires Supervised(config, events, watcher, settled, remaining, r, phase, seen)
    requires FirstStart(events, i) && events[i] == Receive(Some(Success(first))) &&
             (first == Sigint || first == Sigterm)
    ensures var eof := config.stdinIsTty && first == Sigint && config.watchStdinEof && watcher;
            && ((forall k :: i < k < |events| ==> !Stops(events[k], eof)) ==>
                  r == Waiting && seen == [first] && phase == Draining)
            && forall j :: FirstStop(events, i + 1, eof, j) ==>
                             DecidedBy(config.stdinIsTty, first, events[j], settled, remaining, r, phase, seen)
  {
    var eof := config.stdinIsTty && first == Sigint && config.watchStdinEof && watcher;
    HeardAt(events, 0, false, false, i);
    var next := Second(config, events, watcher, first);
    assert EndsDrain(config.stdinIsTty, first, next, settled, remaining, r, phase, seen);
    if forall k :: i < k < |events| ==> !Stops(events[k], eof) {
      HeardNothing(events, i + 1, true, eof);
    }
    forall j | FirstStop(events, i + 1, eof, j)
      ensures DecidedBy(config.stdinIsTty, first, events[j], settled, remaining, r, phase, seen)
    {
      HeardAt(events, i + 1, true, eof, j);
      StopDecides(config.stdinIsTty, first, events[j], settled, remaining, r, phase, seen);
    }
  }

  /** The signal task forwards what each stream says, in order, until one of them ends. */
  lemma {:induction false} ForwardsInOrder(items: seq<(SignalStream, bool)>, k: nat)
    requires k < |items| && forall n :: 0 <= n < k ==> items[n].1
    ensures k < |Forward(items)|
    ensures Forward(items)[k] == Some(
              if items[k].1 then Success(if items[k].0 == Interrupt then Sigint else Sigterm)
              else Failure(BrokenPipe(
                if items[k].0 == Interrupt then "SIGINT stream closed" else "SIGTERM stream closed")))
  {
    if k > 0 {
      ForwardsInOrder(items[1..], k - 1);
    }
  }
}
