/**
 * How the wrappers installed by ServiceStartDependency order a run.
 *
 * The event loop is abstracted into an interleaving state machine: every
 * service's start and stop go through the phases Idle (not yet called),
 * Waiting (called, awaiting the events its wrapper chain awaits), Running
 * (the class's own body executes, however long it sleeps) and Returned.
 * Start events (`service.start_event`, set by the entrypoint some time after
 * the service's start returned) and per-run stop events (set by a
 * `call_soon` some time after the wrapped stop returned) are sets of
 * services. A run is any sequence of actions; an action whose guard does not
 * hold is a blocked `await` and changes nothing, so every scheduling and
 * every choice of delays is one of these sequences.
 */
module DependencyGating {

  import opened Services
  import opened SvcDependency

  /** The registered services and the attribute tables in force during the run. */
  datatype Config = Config(services: seq<ServiceId>,
                           startOf: map<ServiceId, StartOp>,
                           stopOf: map<ServiceId, StopOp>)

  datatype Phase = Idle | Waiting | Running | Returned

  /**
   * A run in progress: the phases of every start and stop by registration
   * position, the services whose start event and stop event are set, and the
   * order in which the original bodies returned (the test's `start_list`
   * and `stop_list`).
   */
  datatype RunState = RunState(stopping: bool,
                               start: seq<Phase>,
                               stop: seq<Phase>,
                               started: set<ServiceId>,
                               stopped: set<ServiceId>,
                               startLog: seq<ServiceId>,
                               stopLog: seq<ServiceId>)

  datatype Action =
    | CallStart(i: nat)
    | ResumeStart(i: nat)
    | ReturnStart(i: nat)
    | SetStartEvent(i: nat)
    | BeginStop
    | CallStop(i: nat)
    | ResumeStop(i: nat)
    | ReturnStop(i: nat)
    | SetStopEvent(i: nat)

  function StartOpAt(c: Config, i: nat): StartOp
    requires i < |c.services|
  {
    StartIn(c.startOf, c.services[i])
  }

  function StopOpAt(c: Config, i: nat): StopOp
    requires i < |c.services|
  {
    StopIn(c.stopOf, c.services[i])
  }

  /** The services in reverse registration order. */
  function Reverse(services: seq<ServiceId>): seq<ServiceId>
  {
    seq(|services|, k requires 0 <= k < |services| => services[|services| - 1 - k])
  }

  predicate WellFormed(c: Config, s: RunState)
  {
    |s.start| == |c.services| && |s.stop| == |c.services|
  }

  /** Nothing called yet, no event set, fresh stop events. */
  function Init(c: Config): (s: RunState)
    ensures WellFormed(c, s)
    ensures forall i :: 0 <= i < |c.services| ==> s.start[i] == Idle && s.stop[i] == Idle
    ensures s.started == {} && s.stopped == {} && s.startLog == [] && s.stopLog == [] && !s.stopping
  {
    var idle := seq(|c.services|, _ => Idle);
    RunState(false, idle, idle, {}, {}, [], [])
  }

  /** Whether an action can take place now; otherwise it is a blocked await. */
  predicate Enabled(c: Config, s: RunState, a: Action)
    requires WellFormed(c, s)
  {
    match a
    case CallStart(i) => !s.stopping && i < |c.services| && s.start[i] == Idle
    case ResumeStart(i) => i < |c.services| && s.start[i] == Waiting && StartAwaited(StartOpAt(c, i)) <= s.started
    case ReturnStart(i) => i < |c.services| && s.start[i] == Running
    case SetStartEvent(i) => i < |c.services| && s.start[i] == Returned && c.services[i] !in s.started
    case BeginStop => !s.stopping && forall i :: 0 <= i < |c.services| ==> s.start[i] == Returned
    case CallStop(i) => s.stopping && i < |c.services| && s.stop[i] == Idle
    case ResumeStop(i) => i < |c.services| && s.stop[i] == Waiting && StopAwaited(StopOpAt(c, i)) <= s.stopped
    case ReturnStop(i) => i < |c.services| && s.stop[i] == Running
    case SetStopEvent(i) => i < |c.services| && s.stop[i] == Returned && !(StopSignals(StopOpAt(c, i)) <= s.stopped)
  }

  /** The effect of an enabled action. */
  function Apply(c: Config, s: RunState, a: Action): (t: RunState)
    requires WellFormed(c, s) && Enabled(c, s, a)
    ensures WellFormed(c, t)
  {
    match a
    case CallStart(i) => s.(start := s.start[i := Waiting])
    case ResumeStart(i) => s.(start := s.start[i := Running])
    case ReturnStart(i) => s.(start := s.start[i := Returned], startLog := s.startLog + [c.services[i]])
    case SetStartEvent(i) => s.(started := s.started + {c.services[i]})
    case BeginStop => s.(stopping := true)
    case CallStop(i) => s.(stop := s.stop[i := Waiting])
    case ResumeStop(i) => s.(stop := s.stop[i := Running])
    case ReturnStop(i) => s.(stop := s.stop[i := Returned], stopLog := s.stopLog + [c.services[i]])
    case SetStopEvent(i) => s.(stopped := s.stopped + StopSignals(StopOpAt(c, i)))
  }

  function Step(c: Config, s: RunState, a: Action): (t: RunState)
    requires WellFormed(c, s)
    ensures WellFormed(c, t)
    ensures !Enabled(c, s, a) ==> t == s
  {
    if Enabled(c, s, a) then Apply(c, s, a) else s
  }

  /** The state after the actions `acts`, in that order. */
  function Run(c: Config, s: RunState, acts: seq<Action>): (t: RunState)
    requires WellFormed(c, s)
    ensures WellFormed(c, t)
    decreases |acts|
  {
    if acts == [] then s else Run(c, Step(c, s, acts[0]), acts[1..])
  }

  /** Every start and every stop has returned. */
  predicate Finished(c: Config, s: RunState)
    requires WellFormed(c, s)
  {
    s.stopping && forall i :: 0 <= i < |c.services| ==> s.stop[i] == Returned
  }

  /**
   * The tables installed by `_inject_decorators` over services whose own
   * operations await nothing: the first service's start awaits nothing and
   * every other start awaits exactly its predecessor's start event; the last
   * service's stop awaits nothing and every other stop awaits exactly its
   * successor's stop event; every stop sets exactly its own service's event.
   */
  predicate Chained(c: Config)
  {
    && Distinct(c.services)
    && forall i :: 0 <= i < |c.services| ==>
         && StartAwaited(StartOpAt(c, i)) == OptionSet(Predecessor(c.services, i))
         && StopAwaited(StopOpAt(c, i)) == OptionSet(Successor(c.services, i))
         && StopSignals(StopOpAt(c, i)) == {c.services[i]}
  }

  /** The start side: completed starts are a prefix of the registration order. */
  predicate StartInv(services: seq<ServiceId>, start: seq<Phase>, started: set<ServiceId>, startLog: seq<ServiceId>)
    requires |start| == |services|
  {
    && StartLogInv(services, startLog)
    && (forall i :: 0 <= i < |services| ==> (start[i] == Returned <==> i < |startLog|))
    && (forall i :: 0 <= i < |services| && start[i] == Running ==> i <= |startLog|)
    && (forall i :: 0 <= i < |services| && services[i] in started ==> i < |startLog|)
  }

  predicate StartLogInv(services: seq<ServiceId>, startLog: seq<ServiceId>)
  {
    |startLog| <= |services| && forall k :: 0 <= k < |startLog| ==> startLog[k] == services[k]
  }

  /** The stop side: completed stops are a suffix of the registration order, latest first. */
  predicate StopInv(services: seq<ServiceId>, stop: seq<Phase>, stopped: set<ServiceId>, stopLog: seq<ServiceId>)
    requires |stop| == |services|
  {
    var n := |services|;
    && StopLogInv(services, stopLog)
    && (forall i :: 0 <= i < n ==> (stop[i] == Returned <==> n - |stopLog| <= i))
    && (forall i :: 0 <= i < n && stop[i] == Running ==> n - |stopLog| <= i + 1)
    && (forall i :: 0 <= i < n && services[i] in stopped ==> n - |stopLog| <= i)
  }

  predicate StopLogInv(services: seq<ServiceId>, stopLog: seq<ServiceId>)
  {
    |stopLog| <= |services| && forall k :: 0 <= k < |stopLog| ==> stopLog[k] == services[|services| - 1 - k]
  }

  /** Stops are only called once every start has returned. */
  predicate StageInv(n: nat, stopping: bool, stop: seq<Phase>, startLog: seq<ServiceId>)
    requires |stop| == n
  {
    && (!stopping ==> forall i :: 0 <= i < n ==> stop[i] == Idle)
    && (stopping ==> |startLog| == n)
  }

  predicate Inv(c: Config, s: RunState)
  {
    && WellFormed(c, s)
    && StartInv(c.services, s.start, s.started, s.startLog)
    && StopInv(c.services, s.stop, s.stopped, s.stopLog)
    && StageInv(|c.services|, s.stopping, s.stop, s.startLog)
  }

  lemma InitInv(c: Config)
    ensures Inv(c, Init(c))
  {
  }

  lemma CallStartKeeps(services: seq<ServiceId>, start: seq<Phase>, started: set<ServiceId>, startLog: seq<ServiceId>, i: nat)
    requires |start| == |services| && i < |services| && start[i] == Idle
    requires StartInv(services, start, started, startLog)
    ensures StartInv(services, start[i := Waiting], started, startLog)
  {
  }

  lemma ResumeStartKeeps(services: seq<ServiceId>, start: seq<Phase>, started: set<ServiceId>, startLog: seq<ServiceId>, i: nat)
    requires |start| == |services| && i < |services| && start[i] == Waiting
    requires i == 0 || services[i - 1] in started
    requires StartInv(services, start, started, startLog)
    ensures StartInv(services, start[i := Running], started, startLog)
  {
  }

  lemma ReturnStartKeeps(services: seq<ServiceId>, start: seq<Phase>, started: set<ServiceId>, startLog: seq<ServiceId>, i: nat)
    requires |start| == |services| && i < |services| && start[i] == Running
    requires StartInv(services, start, started, startLog)
    ensures StartInv(services, start[i := Returned], started, startLog + [services[i]])
  {
    assert i == |startLog|;
    var log := startLog + [services[i]];
    forall k | 0 <= k < |log| ensures log[k] == services[k] {
      if k < |startLog| {
        assert log[k] == startLog[k];
      }
    }
  }

  lemma SetStartEventKeeps(services: seq<ServiceId>, start: seq<Phase>, started: set<ServiceId>, startLog: seq<ServiceId>, i: nat)
    requires Distinct(services)
    requires |start| == |services| && i < |services| && start[i] == Returned
    requires StartInv(services, start, started, startLog)
    ensures StartInv(services, start, started + {services[i]}, startLog)
  {
    forall j | 0 <= j < |services| && services[j] in started + {services[i]} ensures j < |startLog| {
      if services[j] !in started {
        assert services[j] == services[i];
      }
    }
  }

  lemma CallStopKeeps(services: seq<ServiceId>, stop: seq<Phase>, stopped: set<ServiceId>, stopLog: seq<ServiceId>, i: nat)
    requires |stop| == |services| && i < |services| && stop[i] == Idle
    requires StopInv(services, stop, stopped, stopLog)
    ensures StopInv(services, stop[i := Waiting], stopped, stopLog)
  {
  }

  lemma ResumeStopKeeps(services: seq<ServiceId>, stop: seq<Phase>, stopped: set<ServiceId>, stopLog: seq<ServiceId>, i: nat)
    requires |stop| == |services| && i < |services| && stop[i] == Waiting
    requires i == |services| - 1 || services[i + 1] in stopped
    requires StopInv(services, stop, stopped, stopLog)
    ensures StopInv(services, stop[i := Running], stopped, stopLog)
  {
  }

  lemma ReturnStopKeeps(services: seq<ServiceId>, stop: seq<Phase>, stopped: set<ServiceId>, stopLog: seq<ServiceId>, i: nat)
    requires |stop| == |services| && i < |services| && stop[i] == Running
    requires StopInv(services, stop, stopped, stopLog)
    ensures StopInv(services, stop[i := Returned], stopped, stopLog + [services[i]])
  {
    var n := |services|;
    assert i == n - 1 - |stopLog|;
    var log := stopLog + [services[i]];
    forall k | 0 <= k < |log| ensures log[k] == services[n - 1 - k] {
      if k < |stopLog| {
        assert log[k] == stopLog[k];
      }
    }
  }

  lemma SetStopEventKeeps(services: seq<ServiceId>, stop: seq<Phase>, stopped: set<ServiceId>, stopLog: seq<ServiceId>, i: nat)
    requires Distinct(services)
    requires |stop| == |services| && i < |services| && stop[i] == Returned
    requires StopInv(services, stop, stopped, stopLog)
    ensures StopInv(services, stop, stopped + {services[i]}, stopLog)
  {
    var n := |services|;
    forall j | 0 <= j < n && services[j] in stopped + {services[i]} ensures n - |stopLog| <= j {
      if services[j] !in stopped {
        assert services[j] == services[i];
      }
    }
  }

  lemma BeginStopKeeps(c: Config, s: RunState)
    requires Inv(c, s) && Enabled(c, s, BeginStop)
    ensures Inv(c, Apply(c, s, BeginStop))
  {
    var n := |c.services|;
    if n > 0 {
      assert s.start[n - 1] == Returned;
    }
  }

  /** The gate of a start in a chained run: the predecessor's start event. */
  lemma StartGate(c: Config, started: set<ServiceId>, i: nat)
    requires Chained(c) && i < |c.services|
    ensures StartAwaited(StartOpAt(c, i)) <= started <==> (i == 0 || c.services[i - 1] in started)
  {
  }

  /** The gate of a stop in a chained run: the successor's stop event. */
  lemma StopGate(c: Config, stopped: set<ServiceId>, i: nat)
    requires Chained(c) && i < |c.services|
    ensures StopAwaited(StopOpAt(c, i)) <= stopped <==> (i == |c.services| - 1 || c.services[i + 1] in stopped)
  {
  }

  /** Every action, enabled or blocked, keeps the invariant of a chained run. */
  lemma StepInv(c: Config, s: RunState, a: Action)
    requires Chained(c) && Inv(c, s)
    ensures Inv(c, Step(c, s, a))
  {
    if Enabled(c, s, a) {
      var sv := c.services;
      match a
      case CallStart(i) => CallStartKeeps(sv, s.start, s.started, s.startLog, i);
      case ResumeStart(i) =>
        StartGate(c, s.started, i);
        ResumeStartKeeps(sv, s.start, s.started, s.startLog, i);
      case ReturnStart(i) => ReturnStartKeeps(sv, s.start, s.started, s.startLog, i);
      case SetStartEvent(i) => SetStartEventKeeps(sv, s.start, s.started, s.startLog, i);
      case BeginStop => BeginStopKeeps(c, s);
      case CallStop(i) => CallStopKeeps(sv, s.stop, s.stopped, s.stopLog, i);
      case ResumeStop(i) =>
        StopGate(c, s.stopped, i);
        ResumeStopKeeps(sv, s.stop, s.stopped, s.stopLog, i);
      case ReturnStop(i) => ReturnStopKeeps(sv, s.stop, s.stopped, s.stopLog, i);
      case SetStopEvent(i) =>
        assert StopSignals(StopOpAt(c, i)) == {sv[i]};
        SetStopEventKeeps(sv, s.stop, s.stopped, s.stopLog, i);
    }
  }

  lemma {:induction false} RunInv(c: Config, s: RunState, acts: seq<Action>)
    requires Chained(c) && Inv(c, s)
    ensures Inv(c, Run(c, s, acts))
    decreases |acts|
  {
    if acts != [] {
      StepInv(c, s, acts[0]);
      RunInv(c, Step(c, s, acts[0]), acts[1..]);
    }
  }

  /**
   * The ordering theorem: in every interleaving of a chained run, the starts
   * that have returned are the first services in registration order and the
   * stops that have returned are the last ones, latest first; no stop has
   * returned before every start has.
   */
  lemma OrderedInEveryInterleaving(c: Config, acts: seq<Action>)
    requires Chained(c)
    ensures var s := Run(c, Init(c), acts);
      && |s.startLog| <= |c.services| && s.startLog == c.services[..|s.startLog|]
      && |s.stopLog| <= |c.services| && s.stopLog == Reverse(c.services)[..|s.stopLog|]
      && (|s.stopLog| > 0 ==> s.startLog == c.services)
  {
    InitInv(c);
    RunInv(c, Init(c), acts);
    var s := Run(c, Init(c), acts);
    LogsArePrefixes(c, s);
    if |s.stopLog| > 0 {
      StopAfterStart(c, s);
    }
  }

  lemma LogsArePrefixes(c: Config, s: RunState)
    requires StartLogInv(c.services, s.startLog) && StopLogInv(c.services, s.stopLog)
    ensures s.startLog == c.services[..|s.startLog|]
    ensures s.stopLog == Reverse(c.services)[..|s.stopLog|]
  {
  }

  lemma StopAfterStart(c: Config, s: RunState)
    requires Inv(c, s) && |s.stopLog| > 0
    ensures s.startLog == c.services
  {
    var n := |c.services|;
    assert s.stop[n - 1] == Returned;
    assert StartLogInv(c.services, s.startLog);
    assert s.startLog == c.services[..n];
  }

  /** A finished chained run started every service in order and stopped them in reverse order. */
  lemma FinishedInOrder(c: Config, acts: seq<Action>)
    requires Chained(c)
    requires Finished(c, Run(c, Init(c), acts))
    ensures Run(c, Init(c), acts).startLog == c.services
    ensures Run(c, Init(c), acts).stopLog == Reverse(c.services)
  {
    InitInv(c);
    RunInv(c, Init(c), acts);
    var s := Run(c, Init(c), acts);
    var n := |c.services|;
    if n > 0 {
      assert s.stop[0] == Returned;
      StopAfterStart(c, s);
    }
    LogsArePrefixes(c, s);
    assert s.stopLog == Reverse(c.services)[..n];
  }

  /**
   * A start event is set only after that service's start has returned, and
   * a stop event only after that service's stop (the original body inside
   * the wrapper) has returned.
   */
  lemma EventsFollowReturns(c: Config, acts: seq<Action>, i: nat)
    requires Chained(c) && i < |c.services|
    ensures c.services[i] in Run(c, Init(c), acts).started ==> Run(c, Init(c), acts).start[i] == Returned
    ensures c.services[i] in Run(c, Init(c), acts).stopped ==> Run(c, Init(c), acts).stop[i] == Returned
  {
    InitInv(c);
    RunInv(c, Init(c), acts);
  }

  /** The original start bodies never overlap: at most one of them runs at a time, and likewise for stops. */
  lemma OneBodyAtATime(c: Config, acts: seq<Action>, i: nat, j: nat)
    requires Chained(c)
    requires i < |c.services| && j < |c.services|
    ensures Run(c, Init(c), acts).start[i] == Running && Run(c, Init(c), acts).start[j] == Running ==> i == j
    ensures Run(c, Init(c), acts).stop[i] == Running && Run(c, Init(c), acts).stop[j] == Running ==> i == j
  {
    InitInv(c);
    RunInv(c, Init(c), acts);
  }

  /** The sum, over positions, of the phase changes still ahead. */
  function Remaining(phases: seq<Phase>): nat
  {
    if phases == [] then 0 else Ahead(phases[0]) + Remaining(phases[1..])
  }

  function Ahead(p: Phase): nat
  {
    match p
    case Idle => 3
    case Waiting => 2
    case Running => 1
    case Returned => 0
  }

  lemma {:induction false} RemainingDecreases(phases: seq<Phase>, i: nat, p: Phase)
    requires i < |phases| && Ahead(p) < Ahead(phases[i])
    ensures Remaining(phases[i := p]) < Remaining(phases)
    decreases i
  {
    if i > 0 {
      RemainingDecreases(phases[1..], i - 1, p);
      assert phases[i := p][1..] == phases[1..][i - 1 := p];
    }
  }

  lemma UnsetShrinks(all: set<ServiceId>, set0: set<ServiceId>, added: set<ServiceId>, x: ServiceId)
    requires x in all && x !in set0 && x in added
    ensures |all - (set0 + added)| < |all - set0|
  {
    var before := all - set0;
    var after := all - (set0 + added);
    assert after <= before - {x};
    assert |before - {x}| == |before| - 1;
    SubsetCard(after, before - {x});
  }

  lemma {:induction false} SubsetCard(a: set<ServiceId>, b: set<ServiceId>)
    requires a <= b
    ensures |a| <= |b|
    decreases |b|
  {
    if a != {} {
      var x :| x in a;
      SubsetCard(a - {x}, b - {x});
    }
  }

  /** A bound on the number of actions a run can still take. */
  function Measure(c: Config, s: RunState): nat
  {
    var unsetStart := ServiceSet(c.services) - s.started;
    var unsetStop := ServiceSet(c.services) - s.stopped;
    Remaining(s.start) + Remaining(s.stop) + (if s.stopping then 0 else 1) + |unsetStart| + |unsetStop|
  }

  /** Every action that is not blocked brings a chained run closer to its end. */
  lemma EnabledDecreasesMeasure(c: Config, s: RunState, a: Action)
    requires Chained(c) && WellFormed(c, s) && Enabled(c, s, a)
    ensures Measure(c, Apply(c, s, a)) < Measure(c, s)
  {
    var t := Apply(c, s, a);
    match a
    case CallStart(i) => RemainingDecreases(s.start, i, Waiting);
    case ResumeStart(i) => RemainingDecreases(s.start, i, Running);
    case ReturnStart(i) => RemainingDecreases(s.start, i, Returned);
    case SetStartEvent(i) =>
      UnsetShrinks(ServiceSet(c.services), s.started, {c.services[i]}, c.services[i]);
    case BeginStop =>
    case CallStop(i) => RemainingDecreases(s.stop, i, Waiting);
    case ResumeStop(i) => RemainingDecreases(s.stop, i, Running);
    case ReturnStop(i) => RemainingDecreases(s.stop, i, Returned);
    case SetStopEvent(i) =>
      assert StopSignals(StopOpAt(c, i)) == {c.services[i]};
      UnsetShrinks(ServiceSet(c.services), s.stopped, StopSignals(StopOpAt(c, i)), c.services[i]);
  }

  /**
   * No deadlock: until a chained run has finished, some action is enabled.
   * With the lemma above, every run that keeps taking enabled actions
   * finishes, whatever the order and the delays.
   */
  lemma NoDeadlock(c: Config, s: RunState)
    requires Chained(c) && Inv(c, s) && !Finished(c, s)
    ensures exists a :: Enabled(c, s, a)
  {
    var n := |c.services|;
    if !s.stopping {
      if exists i :: 0 <= i < n && s.start[i] == Idle {
        var i :| 0 <= i < n && s.start[i] == Idle;
        assert Enabled(c, s, CallStart(i));
      } else if |s.startLog| == n {
        assert Enabled(c, s, BeginStop);
      } else {
        var j := |s.startLog|;
        StartGate(c, s.started, j);
        assert s.start[j] != Returned;
        if j > 0 {
          assert s.start[j - 1] == Returned;
        }
        StartProgress(c, s, j);
      }
    } else {
      if exists i :: 0 <= i < n && s.stop[i] == Idle {
        var i :| 0 <= i < n && s.stop[i] == Idle;
        assert Enabled(c, s, CallStop(i));
      } else {
        var i :| 0 <= i < n && s.stop[i] != Returned;
        var j := n - 1 - |s.stopLog|;
        StopGate(c, s.stopped, j);
        assert s.stop[j] != Returned;
        if j < n - 1 {
          assert s.stop[j + 1] == Returned;
          assert StopSignals(StopOpAt(c, j + 1)) == {c.services[j + 1]};
        }
        StopProgress(c, s, j);
      }
    }
  }

  /** The next start to return is running, or can resume, or its predecessor's start event can be set. */
  lemma StartProgress(c: Config, s: RunState, j: nat)
    requires WellFormed(c, s) && j < |c.services|
    requires s.start[j] == Waiting || s.start[j] == Running
    requires j > 0 ==> s.start[j - 1] == Returned
    requires StartAwaited(StartOpAt(c, j)) <= s.started <==> (j == 0 || c.services[j - 1] in s.started)
    ensures exists a :: Enabled(c, s, a)
  {
    if s.start[j] == Running {
      assert Enabled(c, s, ReturnStart(j));
    } else if j == 0 || c.services[j - 1] in s.started {
      assert Enabled(c, s, ResumeStart(j));
    } else {
      assert Enabled(c, s, SetStartEvent(j - 1));
    }
  }

  /** The next stop to return is running, or can resume, or its successor's stop event can be set. */
  lemma StopProgress(c: Config, s: RunState, j: nat)
    requires WellFormed(c, s) && j < |c.services|
    requires s.stop[j] == Waiting || s.stop[j] == Running
    requires j < |c.services| - 1 ==> s.stop[j + 1] == Returned && StopSignals(StopOpAt(c, j + 1)) == {c.services[j + 1]}
    requires StopAwaited(StopOpAt(c, j)) <= s.stopped <==> (j == |c.services| - 1 || c.services[j + 1] in s.stopped)
    ensures exists a :: Enabled(c, s, a)
  {
    if s.stop[j] == Running {
      assert Enabled(c, s, ReturnStop(j));
    } else if j == |c.services| - 1 || c.services[j + 1] in s.stopped {
      assert Enabled(c, s, ResumeStop(j));
    } else {
      assert Enabled(c, s, SetStopEvent(j + 1));
    }
  }

  /**
   * The tables `pre_start` leaves behind over distinct services whose
   * operations await nothing and set no stop event are chained.
   */
  lemma InjectedIsChained(services: seq<ServiceId>,
                          start0: map<ServiceId, StartOp>, stop0: map<ServiceId, StopOp>,
                          startM: map<ServiceId, StartOp>, stopM: map<ServiceId, StopOp>)
    requires Distinct(services)
    requires forall s :: s in services ==>
               StartAwaited(StartIn(start0, s)) == {} && StopAwaited(StopIn(stop0, s)) == {} && StopSignals(StopIn(stop0, s)) == {}
    requires Injected(services, start0, stop0, startM, stopM)
    ensures Chained(Config(services, startM, stopM))
  {
    var c := Config(services, startM, stopM);
    forall i | 0 <= i < |services|
      ensures StartAwaited(StartOpAt(c, i)) == OptionSet(Predecessor(services, i))
      ensures StopAwaited(StopOpAt(c, i)) == OptionSet(Successor(services, i))
      ensures StopSignals(StopOpAt(c, i)) == {services[i]}
    {
      assert IsLast(services, i);
      assert services[i] in services;
    }
  }

  /**
   * The scenario of the dependency test: four distinct services with plain
   * operations, `pre_start` of ServiceStartDependency, any interleaving of
   * the run with any delays, then `post_stop`. The starts return in
   * registration order, the stops in reverse order, and afterwards every
   * service has its own operations back.
   */
  method FirstStartLastStopScenario(acts: seq<Action>)
    returns (startList: seq<ServiceId>, stopList: seq<ServiceId>, finished: bool,
             startLeft: map<ServiceId, StartOp>, stopLeft: map<ServiceId, StopOp>)
    ensures |startList| <= 4 && startList == [1, 2, 3, 4][..|startList|]
    ensures |stopList| <= 4 && stopList == [4, 3, 2, 1][..|stopList|]
    ensures finished ==> startList == [1, 2, 3, 4] && stopList == [4, 3, 2, 1]
    ensures startLeft == map[] && stopLeft == map[]
  {
    var services := [1, 2, 3, 4];
    var table := new ServiceTable();
    PreStart(table, services);
    var c := Config(services, table.startOverride, table.stopOverride);
    ScenarioChained(c);
    ScenarioOrder(c, acts);
    var s := Run(c, Init(c), acts);
    finished := Finished(c, s);
    startList, stopList := s.startLog, s.stopLog;
    ScenarioOnlyRegistered(services, c.startOf, c.stopOf);
    PostStop(table, services);
    startLeft, stopLeft := table.startOverride, table.stopOverride;
  }

  /** After `pre_start` over empty tables, only registered services carry overrides. */
  lemma ScenarioOnlyRegistered(services: seq<ServiceId>, startM: map<ServiceId, StartOp>, stopM: map<ServiceId, StopOp>)
    requires Injected(services, map[], map[], startM, stopM)
    ensures startM.Keys <= ServiceSet(services) && stopM.Keys <= ServiceSet(services)
  {
  }

  lemma ScenarioChained(c: Config)
    requires c.services == [1, 2, 3, 4]
    requires Injected(c.services, map[], map[], c.startOf, c.stopOf)
    ensures Chained(c)
  {
    assert Distinct(c.services);
    InjectedIsChained(c.services, map[], map[], c.startOf, c.stopOf);
  }

  lemma ScenarioOrder(c: Config, acts: seq<Action>)
    requires c.services == [1, 2, 3, 4] && Chained(c)
    ensures var s := Run(c, Init(c), acts);
      && |s.startLog| <= 4 && s.startLog == [1, 2, 3, 4][..|s.startLog|]
      && |s.stopLog| <= 4 && s.stopLog == [4, 3, 2, 1][..|s.stopLog|]
      && (Finished(c, s) ==> s.startLog == [1, 2, 3, 4] && s.stopLog == [4, 3, 2, 1])
  {
    assert Reverse(c.services) == [4, 3, 2, 1];
    OrderedInEveryInterleaving(c, acts);
    if Finished(c, Run(c, Init(c), acts)) {
      FinishedInOrder(c, acts);
    }
  }
}
