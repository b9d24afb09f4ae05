/**
 * The Entrypoint facade: the option map handed to aiomisc's entrypoint, the
 * four hook lists that `add_processor` extends, the convenience registrars,
 * and the order in which a run fires the hooks.
 */
module EntrypointFacade {

  import opened Wrappers
  import opened Services
  import SysSignals

  /** Any Python value other than None that a caller passes (an event loop, a number, a string, a flag). */
  datatype Arg = Arg(id: nat)

  /** The keyword arguments of `Entrypoint.__init__`; `None` is Python's None. */
  datatype Arguments = Arguments(
    loop: Option<Arg>,
    poolSize: Option<Arg>,
    logLevel: Option<Arg>,
    logFormat: Option<Arg>,
    logBuffering: Option<Arg>,
    logBufferSize: Option<Arg>,
    logFlushInterval: Option<Arg>,
    logConfig: Option<Arg>,
    policy: Option<Arg>,
    debug: Option<Arg>)

  /** The keyword names of aiomisc's entrypoint that `__init__` may pass. */
  datatype OptionKey =
    | Loop | PoolSize | LogConfig
    | Policy | Debug | LogLevel | LogFormat | LogBuffering | LogBufferSize | LogFlushInterval

  /** The keyword arguments forwarded to aiomisc's entrypoint. */
  type Options = map<OptionKey, Option<Arg>>

  /** Key `key` is present exactly when the caller passed a value, and then holds that value. */
  predicate PassedIff(kwargs: Options, key: OptionKey, a: Option<Arg>)
  {
    (key in kwargs <==> a.Some?) && (key in kwargs ==> kwargs[key] == a)
  }

  /** `loop`, `pool_size` and `log_config` are always passed, even when None. */
  predicate AlwaysPassed(kwargs: Options, args: Arguments)
  {
    && Loop in kwargs && kwargs[Loop] == args.loop
    && PoolSize in kwargs && kwargs[PoolSize] == args.poolSize
    && LogConfig in kwargs && kwargs[LogConfig] == args.logConfig
  }

  /** Every other key is passed exactly when its argument is not None. */
  predicate PassedWhenGiven(kwargs: Options, args: Arguments)
  {
    && PassedIff(kwargs, Policy, args.policy)
    && PassedIff(kwargs, Debug, args.debug)
    && PassedIff(kwargs, LogLevel, args.logLevel)
    && PassedIff(kwargs, LogFormat, args.logFormat)
    && PassedIff(kwargs, LogBuffering, args.logBuffering)
    && PassedIff(kwargs, LogBufferSize, args.logBufferSize)
    && PassedIff(kwargs, LogFlushInterval, args.logFlushInterval)
  }

  /**
   * `__init__`'s construction of `kwargs`: `loop`, `pool_size` and
   * `log_config` always, every other key only when its argument is not None.
   */
  method BuildOptions(args: Arguments) returns (kwargs: Options)
    ensures AlwaysPassed(kwargs, args)
    ensures PassedWhenGiven(kwargs, args)
  {
    kwargs := map[Loop := args.loop, PoolSize := args.poolSize, LogConfig := args.logConfig];
    if args.policy.Some? {
      kwargs := kwargs[Policy := args.policy];
    }
    if args.debug.Some? {
      kwargs := kwargs[Debug := args.debug];
    }
    kwargs := AddLogOptions(kwargs, args);
  }

  /** The five logging keys of `__init__`, each inserted only when its argument is not None. */
  method AddLogOptions(kwargs: Options, args: Arguments) returns (r: Options)
    requires LogLevel !in kwargs && LogFormat !in kwargs && LogBuffering !in kwargs
    requires LogBufferSize !in kwargs && LogFlushInterval !in kwargs
    ensures PassedIff(r, LogLevel, args.logLevel) && PassedIff(r, LogFormat, args.logFormat)
    ensures PassedIff(r, LogBuffering, args.logBuffering) && PassedIff(r, LogBufferSize, args.logBufferSize)
    ensures PassedIff(r, LogFlushInterval, args.logFlushInterval)
    ensures forall k :: k !in {LogLevel, LogFormat, LogBuffering, LogBufferSize, LogFlushInterval} ==>
              (k in r <==> k in kwargs) && (k in r ==> r[k] == kwargs[k])
  {
    r := kwargs;
    if args.logLevel.Some? {
      r := r[LogLevel := args.logLevel];
    }
    if args.logFormat.Some? {
      r := r[LogFormat := args.logFormat];
    }
    if args.logBuffering.Some? {
      r := r[LogBuffering := args.logBuffering];
    }
    if args.logBufferSize.Some? {
      r := r[LogBufferSize := args.logBufferSize];
    }
    if args.logFlushInterval.Some? {
      r := r[LogFlushInterval := args.logFlushInterval];
    }
  }

  /**
   * A processor object, by what it was built from: the registrars build
   * these; any other EntrypointProcessor is `Custom`. The filter callable of
   * ClearEnviron is known by identity only.
   */
  datatype Processor =
    | SignalListener(processedSignals: seq<SysSignals.Signal>)
    | EnvironCleaner(filter: Option<nat>)
    | UserChanger(username: Option<string>)
    | ContextRegistrar
    | StartDependency
    | Custom(id: nat)

  /** The four signals of aiomisc's entrypoint a processor connects to. */
  datatype HookPhase = PreStartHook | PostStartHook | PreStopHook | PostStopHook

  class Entrypoint {
    const services: seq<ServiceId>
    const options: Options
    /** The receivers connected to each signal, in connection order. */
    var preStart: seq<Processor>
    var postStart: seq<Processor>
    var preStop: seq<Processor>
    var postStop: seq<Processor>

    /** Every processor is connected to all four signals, so the four lists agree. */
    predicate Valid()
      reads this
    {
      postStart == preStart && preStop == preStart && postStop == preStart
    }

    /** The processors in the order they were added. */
    function Processors(): seq<Processor>
      reads this
    {
      preStart
    }

    constructor (services: seq<ServiceId>, args: Arguments)
      ensures this.services == services
      ensures AlwaysPassed(options, args) && PassedWhenGiven(options, args)
      ensures preStart == [] && Valid()
    {
      this.services := services;
      var kwargs := BuildOptions(args);
      options := kwargs;
      preStart, postStart, preStop, postStop := [], [], [], [];
    }

    /** `add_processor`: one receiver more on each of the four signals; nothing before it moves. */
    method AddProcessor(p: Processor)
      requires Valid()
      modifies this
      ensures preStart == old(preStart) + [p] && postStart == old(postStart) + [p]
      ensures preStop == old(preStop) + [p] && postStop == old(postStop) + [p]
      ensures Valid()
    {
      preStart := preStart + [p];
      postStart := postStart + [p];
      preStop := preStop + [p];
      postStop := postStop + [p];
    }

    method SystemSignalsListener(signals: seq<SysSignals.Signal>)
      requires Valid()
      modifies this
      ensures |signals| == 0 ==> Processors() == old(Processors()) + [SignalListener([SysSignals.SIGTERM, SysSignals.SIGINT])]
      ensures |signals| > 0 ==> Processors() == old(Processors()) + [SignalListener(signals)]
      ensures Valid()
    {
      var processor := new SysSignals.SysSignalListener(signals);
      AddProcessor(SignalListener(processor.processedSignals));
    }

    method ClearEnviron(filter: Option<nat>)
      requires Valid()
      modifies this
      ensures Processors() == old(Processors()) + [EnvironCleaner(filter)]
      ensures Valid()
    {
      AddProcessor(EnvironCleaner(filter));
    }

    method ChangeUser(username: Option<string>)
      requires Valid()
      modifies this
      ensures Processors() == old(Processors()) + [UserChanger(username)]
      ensures Valid()
    {
      AddProcessor(UserChanger(username));
    }

    method RegisterServicesInContext()
      requires Valid()
      modifies this
      ensures Processors() == old(Processors()) + [ContextRegistrar]
      ensures Valid()
    {
      AddProcessor(ContextRegistrar);
    }

    method FirstStartLastStop()
      requires Valid()
      modifies this
      ensures Processors() == old(Processors()) + [StartDependency]
      ensures Valid()
    {
      AddProcessor(StartDependency);
    }
  }

  /** One thing that happens during a run, in the vocabulary of the lifecycle test. */
  datatype RunEvent =
    | Hook(phase: HookPhase, processor: Processor)
    | ServicesStart
    | Workload
    | ServicesStop

  /**
   * The run that aiomisc's entrypoint performs around the workload: every
   * pre_start receiver in connection order, the services' start, every
   * post_start receiver, the workload, every pre_stop receiver, the
   * services' stop, every post_stop receiver.
   */
  function RunTrace(processors: seq<Processor>): seq<RunEvent>
  {
    HookEvents(PreStartHook, processors) + [ServicesStart] + HookEvents(PostStartHook, processors) + [Workload]
      + HookEvents(PreStopHook, processors) + [ServicesStop] + HookEvents(PostStopHook, processors)
  }

  function HookEvents(phase: HookPhase, processors: seq<Processor>): seq<RunEvent>
  {
    seq(|processors|, k requires 0 <= k < |processors| => Hook(phase, processors[k]))
  }

  /** The position of an event among the seven stages of a run. */
  function Stage(e: RunEvent): nat
  {
    match e
    case Hook(PreStartHook, _) => 0
    case ServicesStart => 1
    case Hook(PostStartHook, _) => 2
    case Workload => 3
    case Hook(PreStopHook, _) => 4
    case ServicesStop => 5
    case Hook(PostStopHook, _) => 6
  }

  /** Stages never go backwards along a run, and the framework's own steps each occur once. */
  lemma RunTraceStaged(processors: seq<Processor>)
    ensures var t := RunTrace(processors);
      && |t| == 4 * |processors| + 3
      && (forall i, j :: 0 <= i < j < |t| ==> Stage(t[i]) <= Stage(t[j]))
      && (forall i :: 0 <= i < |t| && t[i] == ServicesStart ==> i == |processors|)
      && (forall i :: 0 <= i < |t| && t[i] == Workload ==> i == 2 * |processors| + 1)
      && (forall i :: 0 <= i < |t| && t[i] == ServicesStop ==> i == 3 * |processors| + 2)
  {
    var n := |processors|;
    var t := RunTrace(processors);
    forall i | 0 <= i < |t|
      ensures Stage(t[i]) == StageAt(n, i)
      ensures t[i] == ServicesStart ==> i == n
      ensures t[i] == Workload ==> i == 2 * n + 1
      ensures t[i] == ServicesStop ==> i == 3 * n + 2
    {
      RunTraceAt(processors, i);
    }
  }

  /** The stage a position of the trace of `n` processors falls in. */
  function StageAt(n: nat, i: nat): nat
  {
    if i < n then 0
    else if i == n then 1
    else if i < 2 * n + 1 then 2
    else if i == 2 * n + 1 then 3
    else if i < 3 * n + 2 then 4
    else if i == 3 * n + 2 then 5
    else 6
  }

  lemma RunTraceAt(processors: seq<Processor>, i: nat)
    requires i < 4 * |processors| + 3
    ensures |RunTrace(processors)| == 4 * |processors| + 3
    ensures var n := |processors|;
      && (i < n ==> RunTrace(processors)[i] == Hook(PreStartHook, processors[i]))
      && (i == n ==> RunTrace(processors)[i] == ServicesStart)
      && (n < i < 2 * n + 1 ==> RunTrace(processors)[i] == Hook(PostStartHook, processors[i - n - 1]))
      && (i == 2 * n + 1 ==> RunTrace(processors)[i] == Workload)
      && (2 * n + 1 < i < 3 * n + 2 ==> RunTrace(processors)[i] == Hook(PreStopHook, processors[i - 2 * n - 2]))
      && (i == 3 * n + 2 ==> RunTrace(processors)[i] == ServicesStop)
      && (3 * n + 2 < i ==> RunTrace(processors)[i] == Hook(PostStopHook, processors[i - 3 * n - 3]))
  {
  }

  /** Where the receivers of `phase` begin in the trace of `n` processors. */
  function Offset(phase: HookPhase, n: nat): nat
  {
    match phase
    case PreStartHook => 0
    case PostStartHook => n + 1
    case PreStopHook => 2 * n + 2
    case PostStopHook => 3 * n + 3
  }

  /** The receivers of each signal fire in the order the processors were added, each once. */
  lemma HooksInConnectionOrder(processors: seq<Processor>, phase: HookPhase)
    ensures Offset(phase, |processors|) + |processors| <= |RunTrace(processors)|
    ensures forall k :: 0 <= k < |processors| ==>
              RunTrace(processors)[Offset(phase, |processors|) + k] == Hook(phase, processors[k])
  {
    var n := |processors|;
    var offset := Offset(phase, n);
    forall k | 0 <= k < n ensures RunTrace(processors)[offset + k] == Hook(phase, processors[k]) {
      RunTraceAt(processors, offset + k);
    }
  }

  /**
   * The lifecycle test: one service, one custom processor, a workload; the
   * run is the seven steps of the test's expected list, in that order.
   */
  method LifecycleScenario() returns (trace: seq<RunEvent>)
    ensures trace == [Hook(PreStartHook, Custom(0)), ServicesStart, Hook(PostStartHook, Custom(0)), Workload,
                      Hook(PreStopHook, Custom(0)), ServicesStop, Hook(PostStopHook, Custom(0))]
  {
    var args := Arguments(None, None, None, None, None, None, None, Some(Arg(0)), None, None);
    var ep := new Entrypoint([1], args);
    ep.AddProcessor(Custom(0));
    trace := RunTrace(ep.Processors());
  }
}
