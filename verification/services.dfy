/**
 * The part of a service that the processors see: its identity, the start and
 * stop operations reachable through `service.start` / `service.stop`, and the
 * instance attributes through which the processors replace those operations
 * for the duration of a run.
 */
module Services {

  import opened Wrappers

  /** A service object is identified by a number; registering the same object twice repeats its number. */
  type ServiceId = nat

  /** The services that occur in a registration sequence. */
  function ServiceSet(services: seq<ServiceId>): set<ServiceId>
  {
    set s | s in services
  }

  predicate Distinct(services: seq<ServiceId>)
  {
    forall i, j :: 0 <= i < j < |services| ==> services[i] != services[j]
  }

  /**
   * What `service.start` denotes: the class's own start, or a wrapper that
   * some processor installed around whatever `service.start` was before.
   */
  datatype StartOp =
    | OriginalStart
      /** svc_dependency wrapper: await `awaited.start_event` (if any), then call `inner`. */
    | DependencyStart(inner: StartOp, awaited: Option<ServiceId>)
      /** svc_to_context wrapper: record a publication task for `service`, then call `inner`. */
    | ContextStart(inner: StartOp, service: ServiceId)

  /** What `service.stop` denotes. */
  datatype StopOp =
    | OriginalStop
      /**
       * svc_dependency wrapper: await the per-run stop event of `awaited` (if
       * any), call `inner`, then schedule the setting of the stop event of `own`.
       */
    | DependencyStop(inner: StopOp, own: ServiceId, awaited: Option<ServiceId>)

  function OptionSet(o: Option<ServiceId>): set<ServiceId>
  {
    if o.Some? then {o.value} else {}
  }

  /** The services whose start event a start chain awaits before the original start body runs. */
  function StartAwaited(op: StartOp): set<ServiceId>
  {
    match op
    case OriginalStart => {}
    case DependencyStart(inner, awaited) => OptionSet(awaited) + StartAwaited(inner)
    case ContextStart(inner, _) => StartAwaited(inner)
  }

  /** The services whose stop event a stop chain awaits before the original stop body runs. */
  function StopAwaited(op: StopOp): set<ServiceId>
  {
    match op
    case OriginalStop => {}
    case DependencyStop(inner, _, awaited) => OptionSet(awaited) + StopAwaited(inner)
  }

  /** The stop events a stop chain sets once the original stop body has returned. */
  function StopSignals(op: StopOp): set<ServiceId>
  {
    match op
    case OriginalStop => {}
    case DependencyStop(inner, own, _) => {own} + StopSignals(inner)
  }

  /** The start operation found through an attribute table `overrides`. */
  function StartIn(overrides: map<ServiceId, StartOp>, s: ServiceId): StartOp
  {
    if s in overrides then overrides[s] else OriginalStart
  }

  /** The stop operation found through an attribute table `overrides`. */
  function StopIn(overrides: map<ServiceId, StopOp>, s: ServiceId): StopOp
  {
    if s in overrides then overrides[s] else OriginalStop
  }

  /**
   * The instance attributes `start` and `stop` of every service: a key is
   * present exactly when `'start' in svc.__dict__` (resp. `'stop'`), and then
   * it shadows the class's own operation.
   */
  class ServiceTable {
    var startOverride: map<ServiceId, StartOp>
    var stopOverride: map<ServiceId, StopOp>

    constructor ()
      ensures startOverride == map[] && stopOverride == map[]
    {
      startOverride := map[];
      stopOverride := map[];
    }

    /** `service.start` as attribute lookup resolves it. */
    function Start(s: ServiceId): StartOp
      reads this
    {
      StartIn(startOverride, s)
    }

    /** `service.stop` as attribute lookup resolves it. */
    function Stop(s: ServiceId): StopOp
      reads this
    {
      StopIn(stopOverride, s)
    }
  }
}
