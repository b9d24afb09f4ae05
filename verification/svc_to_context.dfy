/**
 * The context registrar (RegisterServiceInContext): wraps the start of
 * every service that has a `context_name` so that each call records a
 * publication task; a task writes the service under `service__<name>` into
 * the shared context once the service's start event is set; `post_start`
 * waits for every task and then removes the start attributes.
 */
module SvcToContext {

  import opened Services
  import SvcDependency
  import DependencyGating

  const Prefix: string := "service__"

  /** The context key under which a service named `name` is published. */
  function ContextKey(name: string): string
  {
    Prefix + name
  }

  /** Distinct names give distinct keys. */
  lemma ContextKeyInjective(a: string, b: string)
    ensures ContextKey(a) == ContextKey(b) ==> a == b
  {
    if ContextKey(a) == ContextKey(b) {
      assert a == ContextKey(a)[|Prefix|..];
      assert b == ContextKey(b)[|Prefix|..];
    }
  }

  /** aiomisc's shared context, as far as publication writes it. */
  class Context {
    var values: map<string, ServiceId>

    constructor ()
      ensures values == map[]
    {
      values := map[];
    }
  }

  /** A task created by the wrapper; it publishes `service` once the service's start event is set. */
  datatype PublishTask = PublishTask(service: ServiceId, done: bool)

  /**
   * The start attributes after the loop of `pre_start` over `services`:
   * each named service's `start` wrapped once per registration.
   */
  function ContextWrapped(overrides: map<ServiceId, StartOp>, services: seq<ServiceId>, names: map<ServiceId, string>): map<ServiceId, StartOp>
    decreases |services|
  {
    if services == [] then overrides
    else
      var before := ContextWrapped(overrides, services[..|services| - 1], names);
      var svc := services[|services| - 1];
      if svc in names then before[svc := ContextStart(StartIn(before, svc), svc)] else before
  }

  /** `op` wrapped `k` times in the registrar wrapper of service `s`. */
  function Layered(op: StartOp, s: ServiceId, k: nat): StartOp
  {
    if k == 0 then op else ContextStart(Layered(op, s, k - 1), s)
  }

  /**
   * Only named services are wrapped: an unnamed or unregistered service
   * keeps its attribute (present or absent); a named registered service's
   * start is a registrar wrapper for that service that awaits exactly what
   * its start awaited before.
   */
  lemma {:induction false} ContextWrappedSpec(overrides: map<ServiceId, StartOp>, services: seq<ServiceId>, names: map<ServiceId, string>)
    ensures forall s :: s !in names || s !in services ==>
              (s in ContextWrapped(overrides, services, names) <==> s in overrides) &&
              StartIn(ContextWrapped(overrides, services, names), s) == StartIn(overrides, s)
    ensures forall s :: s in names && s in services ==>
              && s in ContextWrapped(overrides, services, names)
              && ContextWrapped(overrides, services, names)[s].ContextStart?
              && ContextWrapped(overrides, services, names)[s].service == s
              && StartAwaited(ContextWrapped(overrides, services, names)[s]) == StartAwaited(StartIn(overrides, s))
    decreases |services|
  {
    if services != [] {
      var front := services[..|services| - 1];
      var svc := services[|services| - 1];
      ContextWrappedSpec(overrides, front, names);
      assert forall s :: s in services <==> s in front || s == svc;
    }
  }

  /**
   * A named service's start after `pre_start` is its previous start wrapped
   * once per registration of the service, nothing discarded.
   */
  lemma {:induction false} ContextWrappedLayers(overrides: map<ServiceId, StartOp>, services: seq<ServiceId>, names: map<ServiceId, string>)
    ensures forall s :: s in names ==>
              StartIn(ContextWrapped(overrides, services, names), s) == Layered(StartIn(overrides, s), s, multiset(services)[s])
    decreases |services|
  {
    if services != [] {
      var front := services[..|services| - 1];
      var svc := services[|services| - 1];
      ContextWrappedLayers(overrides, front, names);
      assert services == front + [svc];
      assert multiset(services) == multiset(front) + multiset{svc};
    }
  }

  /** Registrar wrappers add nothing to what a start awaits. */
  lemma {:induction false} LayeredAwaits(op: StartOp, s: ServiceId, k: nat)
    ensures StartAwaited(Layered(op, s, k)) == StartAwaited(op)
  {
    if k > 0 {
      LayeredAwaits(op, s, k - 1);
    }
  }

  /** The services whose registrar wrappers a call through `op` passes, outermost first. */
  function Recorded(op: StartOp): seq<ServiceId>
  {
    match op
    case OriginalStart => []
    case DependencyStart(inner, _) => Recorded(inner)
    case ContextStart(inner, s) => [s] + Recorded(inner)
  }

  /** A call through `k` registrar wrappers of `s` records `s` once per wrapper, then whatever the inner start records. */
  lemma {:induction false} LayeredRecorded(op: StartOp, s: ServiceId, k: nat)
    ensures Recorded(Layered(op, s, k)) == seq(k, _ => s) + Recorded(op)
  {
    if k > 0 {
      LayeredRecorded(op, s, k - 1);
      assert seq(k, _ => s) == [s] + seq(k - 1, _ => s);
    }
  }

  /**
   * Start completion is not gated on publication: under the registrar's
   * wrapping every step of a run, enabled or blocked, has the same effect
   * as under the tables it wrapped.
   */
  lemma StepIgnoresContextWrapping(services: seq<ServiceId>, startOf: map<ServiceId, StartOp>, stopOf: map<ServiceId, StopOp>,
                                   names: map<ServiceId, string>, s: DependencyGating.RunState, a: DependencyGating.Action)
    requires DependencyGating.WellFormed(DependencyGating.Config(services, startOf, stopOf), s)
    ensures DependencyGating.Step(DependencyGating.Config(services, ContextWrapped(startOf, services, names), stopOf), s, a)
         == DependencyGating.Step(DependencyGating.Config(services, startOf, stopOf), s, a)
  {
    var wrapped := DependencyGating.Config(services, ContextWrapped(startOf, services, names), stopOf);
    var plain := DependencyGating.Config(services, startOf, stopOf);
    if a.ResumeStart? && a.i < |services| {
      ContextWrappedSpec(startOf, services, names);
      var svc := services[a.i];
      if svc in names {
        LayeredAwaits(StartIn(startOf, svc), svc, multiset(services)[svc]);
      }
      assert StartAwaited(DependencyGating.StartOpAt(wrapped, a.i)) == StartAwaited(DependencyGating.StartOpAt(plain, a.i));
    }
  }

  /** A whole run under the registrar's wrapping is the run under the tables it wrapped. */
  lemma {:induction false} RunIgnoresContextWrapping(services: seq<ServiceId>, startOf: map<ServiceId, StartOp>, stopOf: map<ServiceId, StopOp>,
                                                     names: map<ServiceId, string>, s: DependencyGating.RunState, acts: seq<DependencyGating.Action>)
    requires DependencyGating.WellFormed(DependencyGating.Config(services, startOf, stopOf), s)
    ensures DependencyGating.Run(DependencyGating.Config(services, ContextWrapped(startOf, services, names), stopOf), s, acts)
         == DependencyGating.Run(DependencyGating.Config(services, startOf, stopOf), s, acts)
    decreases |acts|
  {
    if acts != [] {
      StepIgnoresContextWrapping(services, startOf, stopOf, names, s, acts[0]);
      var next := DependencyGating.Step(DependencyGating.Config(services, startOf, stopOf), s, acts[0]);
      RunIgnoresContextWrapping(services, startOf, stopOf, names, next, acts[1..]);
    }
  }

  /** The context after the pending tasks `tasks` have published, in order. */
  function Publish(values: map<string, ServiceId>, tasks: seq<PublishTask>, names: map<ServiceId, string>): map<string, ServiceId>
    decreases |tasks|
  {
    if tasks == [] then values
    else
      var before := Publish(values, tasks[..|tasks| - 1], names);
      var t := tasks[|tasks| - 1];
      if !t.done && t.service in names then before[ContextKey(names[t.service]) := t.service] else before
  }

  /**
   * Publication writes only `service__<name>` keys, one for each pending
   * task of a named service, with that service as the value when names are
   * unique; every key that no pending task writes keeps its value.
   */
  lemma {:induction false} PublishSpec(values: map<string, ServiceId>, tasks: seq<PublishTask>, names: map<ServiceId, string>)
    ensures forall k :: k in Publish(values, tasks, names) ==>
              k in values || exists i :: 0 <= i < |tasks| && !tasks[i].done && tasks[i].service in names && k == ContextKey(names[tasks[i].service])
    ensures forall i :: 0 <= i < |tasks| && !tasks[i].done && tasks[i].service in names ==>
              ContextKey(names[tasks[i].service]) in Publish(values, tasks, names)
    ensures forall k ::
              (k in values &&
               forall i :: 0 <= i < |tasks| && !tasks[i].done && tasks[i].service in names ==> k != ContextKey(names[tasks[i].service]))
              ==> k in Publish(values, tasks, names) && Publish(values, tasks, names)[k] == values[k]
    ensures (forall s, r :: s in names && r in names && names[s] == names[r] ==> s == r) ==>
              forall i :: 0 <= i < |tasks| && !tasks[i].done && tasks[i].service in names ==>
                Publish(values, tasks, names)[ContextKey(names[tasks[i].service])] == tasks[i].service
    decreases |tasks|
  {
    if tasks != [] {
      var front := tasks[..|tasks| - 1];
      PublishSpec(values, front, names);
      var last := |tasks| - 1;
      forall i | 0 <= i < |tasks| - 1 ensures tasks[i] == front[i] {
      }
      if (forall s, r :: s in names && r in names && names[s] == names[r] ==> s == r) {
        forall i | 0 <= i < |tasks| && !tasks[i].done && tasks[i].service in names
          ensures Publish(values, tasks, names)[ContextKey(names[tasks[i].service])] == tasks[i].service
        {
          if i < last && !tasks[last].done && tasks[last].service in names {
            ContextKeyInjective(names[tasks[i].service], names[tasks[last].service]);
          }
        }
      }
    }
  }

  class RegisterServiceInContext {
    var tasks: seq<PublishTask>

    constructor ()
      ensures tasks == []
    {
      tasks := [];
    }

    /** `pre_start`: replace `start` of every service that has a `context_name` by the registrar wrapper. */
    method PreStart(table: ServiceTable, services: seq<ServiceId>, names: map<ServiceId, string>)
      modifies table
      ensures table.startOverride == ContextWrapped(old(table.startOverride), services, names)
      ensures table.stopOverride == old(table.stopOverride)
    {
      ghost var start0 := table.startOverride;
      for index := 0 to |services|
        invariant table.startOverride == ContextWrapped(start0, services[..index], names)
        invariant table.stopOverride == old(table.stopOverride)
      {
        var service := services[index];
        assert services[..index + 1][..index] == services[..index];
        if service in names {
          table.startOverride := table.startOverride[service := ContextStart(table.Start(service), service)];
        }
      }
      assert services[..|services|] == services;
    }

    /** One registrar `wrapper()` call for `service`: record a publication task when the service has a name. */
    method Wrapper(service: ServiceId, names: map<ServiceId, string>)
      modifies this
      ensures tasks == old(tasks) + (if service in names then [PublishTask(service, false)] else [])
    {
      if service in names {
        tasks := tasks + [PublishTask(service, false)];
      }
    }

    /**
     * A call of `service.start()` through the chain `op`, from the
     * outermost wrapper to the class's own start: every registrar wrapper
     * on the way records its task.
     */
    method CallStart(op: StartOp, names: map<ServiceId, string>)
      modifies this
      ensures tasks == old(tasks) + NamedTasks(Recorded(op), names)
    {
      var current := op;
      while !current.OriginalStart?
        invariant tasks + NamedTasks(Recorded(current), names) == old(tasks) + NamedTasks(Recorded(op), names)
        decreases current
      {
        match current
        case DependencyStart(inner, _) =>
          current := inner;
        case ContextStart(inner, s) =>
          NamedTasksCons(s, Recorded(inner), names);
          Wrapper(s, names);
          current := inner;
      }
    }

    /**
     * `set_service_id` of task `i`: blocked until the service's start event
     * is set, then it writes the service under its key (when it has a name)
     * and finishes.
     */
    method RunTask(i: nat, started: set<ServiceId>, ctx: Context, names: map<ServiceId, string>)
      requires i < |tasks|
      modifies this, ctx
      ensures old(tasks[i].service) !in started ==> tasks == old(tasks) && ctx.values == old(ctx.values)
      ensures old(tasks[i].service) in started ==>
        && tasks == old(tasks)[i := PublishTask(old(tasks[i].service), true)]
        && ctx.values == Publish(old(ctx.values), [old(tasks[i])], names)
    {
      var task := tasks[i];
      if !task.done && task.service in started {
        if task.service in names {
          ctx.values := ctx.values[ContextKey(names[task.service]) := task.service];
        }
        tasks := tasks[i := PublishTask(task.service, true)];
      }
    }

    /**
     * `post_start`: when tasks were recorded, wait for all of them, then
     * delete the instance attribute `start` of every entrypoint service that
     * has one, whoever installed it. With no task, nothing changes. The
     * tasks can all finish because aiomisc emits post_start once every
     * start has returned and set its start event.
     */
    method PostStart(table: ServiceTable, services: seq<ServiceId>, started: set<ServiceId>, ctx: Context,
                     names: map<ServiceId, string>)
      requires forall i :: 0 <= i < |tasks| ==> tasks[i].service in started
      modifies this, table, ctx
      ensures old(tasks) == [] ==> table.startOverride == old(table.startOverride) && ctx.values == old(ctx.values)
      ensures old(tasks) != [] ==>
        && table.startOverride == old(table.startOverride) - ServiceSet(services)
        && ctx.values == Publish(old(ctx.values), old(tasks), names)
      ensures |tasks| == |old(tasks)| && forall i :: 0 <= i < |tasks| ==> tasks[i] == PublishTask(old(tasks[i].service), true)
      ensures table.stopOverride == old(table.stopOverride)
    {
      if tasks != [] {
        ghost var tasks0 := tasks;
        ghost var values0 := ctx.values;
        for index := 0 to |tasks|
          invariant |tasks| == |tasks0|
          invariant forall i :: 0 <= i < index ==> tasks[i] == PublishTask(tasks0[i].service, true)
          invariant forall i :: index <= i < |tasks| ==> tasks[i] == tasks0[i]
          invariant ctx.values == Publish(values0, tasks0[..index], names)
          invariant table.startOverride == old(table.startOverride) && table.stopOverride == old(table.stopOverride)
        {
          PublishSnoc(values0, tasks0, index, names);
          RunTask(index, started, ctx, names);
        }
        assert tasks0[..|tasks0|] == tasks0;
        ghost var tasks1, values1 := tasks, ctx.values;
        for index := 0 to |services|
          invariant table.startOverride == old(table.startOverride) - ServiceSet(services[..index])
          invariant table.stopOverride == old(table.stopOverride)
          invariant tasks == tasks1 && ctx.values == values1
        {
          var svc := services[index];
          if svc in table.startOverride {
            table.startOverride := table.startOverride - {svc};
          }
          SvcDependency.ServiceSetExtend(services, index);
        }
        assert services[..|services|] == services;
      }
    }
  }

  lemma PublishSnoc(values: map<string, ServiceId>, tasks: seq<PublishTask>, k: nat, names: map<ServiceId, string>)
    requires k < |tasks|
    ensures Publish(values, tasks[..k + 1], names) == Publish(Publish(values, tasks[..k], names), [tasks[k]], names)
  {
    assert tasks[..k + 1][..k] == tasks[..k];
    assert [tasks[k]][..0] == [];
  }

  /** A task per recorded service that has a name, in call order. */
  function NamedTasks(recorded: seq<ServiceId>, names: map<ServiceId, string>): seq<PublishTask>
  {
    if recorded == [] then []
    else (if recorded[0] in names then [PublishTask(recorded[0], false)] else []) + NamedTasks(recorded[1..], names)
  }

  lemma NamedTasksCons(s: ServiceId, rest: seq<ServiceId>, names: map<ServiceId, string>)
    ensures NamedTasks([s] + rest, names) == (if s in names then [PublishTask(s, false)] else []) + NamedTasks(rest, names)
  {
    assert ([s] + rest)[1..] == rest;
  }

  /**
   * The registrar's wrappers do not disturb the dependency chain: when the
   * registrar runs its `pre_start` first, the dependency processor's
   * `pre_start` over distinct services still yields a chained run.
   */
  lemma RegistrarThenDependencyChained(services: seq<ServiceId>, names: map<ServiceId, string>,
                                       startM: map<ServiceId, StartOp>, stopM: map<ServiceId, StopOp>)
    requires Distinct(services)
    requires SvcDependency.Injected(services, ContextWrapped(map[], services, names), map[], startM, stopM)
    ensures DependencyGating.Chained(DependencyGating.Config(services, startM, stopM))
  {
    ContextWrappedSpec(map[], services, names);
    DependencyGating.InjectedIsChained(services, ContextWrapped(map[], services, names), map[], startM, stopM);
  }

  /**
   * The registrar test: services 1, 2 and 4 named "svc1", "svc2", "svc4",
   * service 3 unnamed. After pre_start, the four starts and post_start, the
   * context holds exactly the three keys, each with its own service, and
   * no service keeps a start attribute.
   */
  method RegistrarScenario() returns (values: map<string, ServiceId>, startOverride: map<ServiceId, StartOp>)
    ensures values == map["service__svc1" := 1, "service__svc2" := 2, "service__svc4" := 4]
    ensures startOverride == map[]
  {
    var services := [1, 2, 3, 4];
    var names := map[1 := "svc1", 2 := "svc2", 4 := "svc4"];
    var table := new ServiceTable();
    var ctx := new Context();
    var registrar := new RegisterServiceInContext();
    registrar.PreStart(table, services, names);
    ScenarioWrapped(table.startOverride, names);
    registrar.CallStart(table.Start(1), names);
    registrar.CallStart(table.Start(2), names);
    registrar.CallStart(table.Start(3), names);
    registrar.CallStart(table.Start(4), names);
    ghost var tasks := registrar.tasks;
    ScenarioTasks(tasks, names);
    registrar.PostStart(table, services, {1, 2, 3, 4}, ctx, names);
    ScenarioPublished(tasks, names);
    values := ctx.values;
    startOverride := table.startOverride;
  }

  lemma ScenarioWrapped(m: map<ServiceId, StartOp>, names: map<ServiceId, string>)
    requires names == map[1 := "svc1", 2 := "svc2", 4 := "svc4"]
    requires m == ContextWrapped(map[], [1, 2, 3, 4], names)
    ensures StartIn(m, 1) == ContextStart(OriginalStart, 1) && StartIn(m, 2) == ContextStart(OriginalStart, 2)
    ensures StartIn(m, 3) == OriginalStart && StartIn(m, 4) == ContextStart(OriginalStart, 4)
    ensures m.Keys == {1, 2, 4}
  {
    assert [1, 2, 3, 4][..3] == [1, 2, 3] && [1, 2, 3][..2] == [1, 2] && [1, 2][..1] == [1] && [1][..0] == [];
  }

  lemma ScenarioTasks(tasks: seq<PublishTask>, names: map<ServiceId, string>)
    requires names == map[1 := "svc1", 2 := "svc2", 4 := "svc4"]
    requires tasks == [] + NamedTasks(Recorded(ContextStart(OriginalStart, 1)), names)
                         + NamedTasks(Recorded(ContextStart(OriginalStart, 2)), names)
                         + NamedTasks(Recorded(OriginalStart), names)
                         + NamedTasks(Recorded(ContextStart(OriginalStart, 4)), names)
    ensures tasks == [PublishTask(1, false), PublishTask(2, false), PublishTask(4, false)]
  {
    NamedTasksCons(1, [], names);
    NamedTasksCons(2, [], names);
    NamedTasksCons(4, [], names);
  }

  lemma ScenarioPublished(tasks: seq<PublishTask>, names: map<ServiceId, string>)
    requires names == map[1 := "svc1", 2 := "svc2", 4 := "svc4"]
    requires tasks == [PublishTask(1, false), PublishTask(2, false), PublishTask(4, false)]
    ensures Publish(map[], tasks, names) == map["service__svc1" := 1, "service__svc2" := 2, "service__svc4" := 4]
  {
    assert ContextKey("svc1") == "service__svc1" && ContextKey("svc2") == "service__svc2" && ContextKey("svc4") == "service__svc4";
    assert tasks[..2] == [PublishTask(1, false), PublishTask(2, false)];
    assert tasks[..2][..1] == [PublishTask(1, false)];
    assert tasks[..2][..1][..0] == [];
    assert Publish(map[], tasks[..2][..1], names) == map["service__svc1" := 1];
    assert Publish(map[], tasks[..2], names) == map["service__svc1" := 1, "service__svc2" := 2];
  }
}
