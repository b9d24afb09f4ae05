# aiomisc-entrypoint lifecycle processors, modelled in Dafny

This project models the processors of `aiomisc-entrypoint`. Each processor is a hook with four callbacks (`pre_start`, `post_start`, `pre_stop`, `post_stop`) that an `Entrypoint` connects around the start and stop of an ordered list of `aiomisc` services. The project then proves what each processor promises.

- **Dependency chain coordinator** (`ServiceStartDependency`, files `svc_dependency.dfy` and `dependency_gating.dfy`).
  - `_make_dependency_map` is an indexed loop that fills a map from each service to its predecessor and successor.
  - `_inject_decorators` replaces every service's `start`/`stop` with wrappers. The model writes these replacements into a `ServiceTable` of instance-attribute overrides. Wrappers are values of the `StartOp`/`StopOp` datatypes. An unwrapped operation is `OriginalStart`/`OriginalStop`.
  - `post_stop` deletes the overrides.
  - The waits inside the wrappers form an interleaving state machine. Each start and each stop is Idle, Waiting (awaiting the events its wrapper chain awaits), Running (the service's own body) or Returned. Start events and per-run stop events are sets of services.
  - A run is any sequence of actions. A disabled action is a blocked `await` and changes nothing.
  - The main theorem holds for every such sequence: original starts return in registration order, and original stops return in reverse order. In addition, runs are finite, nothing deadlocks once every start has returned, and at most one start body and one stop body run at a time.
- **Entrypoint** (`entrypoint.dfy`).
  - The option map passed to `aiomisc.entrypoint`.
  - `add_processor`, which appends to four ordered hook lists.
  - The convenience registrars.
  - The phase order of a run, as a trace over the registered processors.
- **Signal bridge** (`SysSignalListener`, `sys_signals.dfy`): a class with the set-once shutdown flag, the installed handlers, the listener task and the number of `loop.stop` calls it has scheduled in the current run.
- **Context registrar** (`RegisterServiceInContext`, `svc_to_context.dfy`).
  - It wraps named services' starts.
  - The wrapper records a publication task per call.
  - `post_start` runs its recorded publication tasks, which write `service__<name>` into the context, and then deletes start overrides.
- **Environment clearing** (`ClearEnviron`, `clear_environ.dfy`): a snapshot of the environment's keys is taken at construction and consumed once by `pre_start`, which pops every key the filter accepts.

`wrappers.dfy` holds `Option`. `services.dfy` holds the service identities, the wrapper datatypes and the override table.

Two behaviours of the code are easy to miss:
- The registrar's `post_start` deletes the instance `start` of every service of the entrypoint, including overrides it did not install. It does so only when at least one publication task was recorded.
- Each signal handler's log line names the last configured signal, not the signal received, because the closure reads the loop variable late. Logging is not modelled.

## Model

| member | source | states |
|---|---|---|
| Services.ServiceTable.Start | src/aiomisc_entrypoint/processors/svc_dependency.py:29 | The `start` a service currently exposes: its instance override if one is set, else its original start. |
| Services.ServiceTable.Stop | src/aiomisc_entrypoint/processors/svc_dependency.py:41 | The `stop` a service currently exposes: its instance override if one is set, else its original stop. |
| SvcDependency.MakeDependencyMap | src/aiomisc_entrypoint/processors/svc_dependency.py:52-64 | The map has one key per registered service, so exactly n keys for n distinct services. At the last occurrence of each service, the entry holds its predecessor and successor, with None before the first and after the last service. |
| SvcDependency.Decorate | src/aiomisc_entrypoint/processors/svc_dependency.py:71-74 | The service's start becomes a dependency wrapper around its current start that awaits the predecessor. Its stop becomes a wrapper around its current stop that awaits the successor's stop event and sets the service's own. No other entry changes. |
| SvcDependency.InjectDecorators | src/aiomisc_entrypoint/processors/svc_dependency.py:67-74 | Each registered service is wrapped once, around its operation from before the call, with the neighbours from the dependency map. Unregistered services keep their overrides or their absence. |
| SvcDependency.EveryServiceWrapped | src/aiomisc_entrypoint/processors/svc_dependency.py:67-74 | After injection, every registered service has a start override and a stop override. Each is a dependency wrapper around its previous operation, and each stop wrapper sets the service's own event. |
| SvcDependency.ChainSymmetric | src/aiomisc_entrypoint/processors/svc_dependency.py:52-64 | For distinct services, b is a's successor exactly when a is b's predecessor. |
| SvcDependency.DistinctCount | src/aiomisc_entrypoint/processors/svc_dependency.py:52-64 | n distinct services form a set of n keys. |
| SvcDependency.PreStart | src/aiomisc_entrypoint/processors/svc_dependency.py:15-17 | With at most one service both tables are unchanged. Otherwise the decorators are injected. |
| SvcDependency.PostStop | src/aiomisc_entrypoint/processors/svc_dependency.py:19-24 | Every start and stop override of a registered service is removed, so each reverts to its original operation. Overrides of other services are untouched. |
| DependencyGating.Enabled | src/aiomisc_entrypoint/processors/svc_dependency.py:27-49 | When each action can happen. A start resumes once every event its wrapper chain awaits is set. A stop resumes likewise. A stop event is set only after its stop returned. Otherwise the action is a blocked `await`. |
| DependencyGating.Apply | src/aiomisc_entrypoint/processors/svc_dependency.py:27-49 | The effect of an enabled action: a phase advances, a log grows by the service whose original body returned, or an event is set. The state stays well formed. |
| DependencyGating.Step | src/aiomisc_entrypoint/processors/svc_dependency.py:31-34 | One scheduling step. A blocked action leaves the state unchanged, and the result stays well formed. |
| DependencyGating.Run | src/aiomisc_entrypoint/processors/svc_dependency.py:27-49 | The state after a sequence of scheduling steps, one per action, in order. The result stays well formed. |
| DependencyGating.Init | src/aiomisc_entrypoint/processors/svc_dependency.py:69-74 | A run begins with nothing called, every start and stop event unset, and empty logs. |
| DependencyGating.StartGate | src/aiomisc_entrypoint/processors/svc_dependency.py:31-33 | Under chained tables, start i passes its wait exactly when i is first or its predecessor's start event is set. |
| DependencyGating.StopGate | src/aiomisc_entrypoint/processors/svc_dependency.py:44-45 | Under chained tables, stop i passes its wait exactly when i is last or its successor's stop event is set. |
| DependencyGating.InitInv | src/aiomisc_entrypoint/processors/svc_dependency.py:27-49 | The ordering invariant holds at the start of a run. |
| DependencyGating.StepInv | src/aiomisc_entrypoint/processors/svc_dependency.py:27-49 | Every action, enabled or blocked, preserves the ordering invariant under chained tables. |
| DependencyGating.RunInv | src/aiomisc_entrypoint/processors/svc_dependency.py:27-49 | Every sequence of actions preserves the ordering invariant. |
| DependencyGating.OrderedInEveryInterleaving | tests/test_entrypoint.py:176-205 | In every interleaving, the returned starts are a prefix of the registration order and the returned stops a prefix of its reverse. The wrappers give both prefixes. That a stop returns only after every start has comes from the `BeginStop` guard, which models the phase order of `aiomisc` (see Left out). |
| DependencyGating.FinishedInOrder | tests/test_entrypoint.py:203-205 | A finished run logged its starts in registration order and its stops in reverse registration order. |
| DependencyGating.EventsFollowReturns | src/aiomisc_entrypoint/processors/svc_dependency.py:46-47 | A service's stop event, like its start event, is set only after its original operation has returned. |
| DependencyGating.OneBodyAtATime | src/aiomisc_entrypoint/processors/svc_dependency.py:31-34 | At most one original start body and at most one original stop body are running at any time. |
| DependencyGating.EnabledDecreasesMeasure | src/aiomisc_entrypoint/processors/svc_dependency.py:27-49 | Every action that can happen decreases a natural-number measure, so every run is finite. |
| DependencyGating.NoDeadlock | src/aiomisc_entrypoint/processors/svc_dependency.py:27-49 | Until every stop has returned, some action can happen: no wrapper waits forever when every start succeeds. |
| DependencyGating.InjectedIsChained | src/aiomisc_entrypoint/processors/svc_dependency.py:67-74 | Tables from `_inject_decorators` over distinct services with plain operations make each start await exactly its predecessor and each stop await exactly its successor. Each stop sets a fresh event of its own. |
| DependencyGating.FirstStartLastStopScenario | tests/test_entrypoint.py:176-205 | The dependency test: for four services, every interleaving logs starts as a prefix of [1,2,3,4] and stops as a prefix of [4,3,2,1], and a finished run logs both in full. After `post_stop` no service carries an override, so each has its own operations back. |
| EntrypointFacade.BuildOptions | src/aiomisc_entrypoint/entrypoint.py:31-49 | `loop`, `pool_size` and `log_config` are always passed. Each other option is present exactly when its argument is given, and then it holds that argument. |
| EntrypointFacade.AddLogOptions | src/aiomisc_entrypoint/entrypoint.py:40-49 | Each logging option is present exactly when given and holds the given value. Every other key is unchanged. |
| EntrypointFacade.Entrypoint.constructor | src/aiomisc_entrypoint/entrypoint.py:19-51 | The entrypoint keeps its services, builds the option map above, and starts with empty hook lists. |
| EntrypointFacade.Entrypoint.AddProcessor | src/aiomisc_entrypoint/entrypoint.py:53-57 | The processor is appended once to each of the four hook lists. Earlier entries and their order are untouched. |
| EntrypointFacade.Entrypoint.SystemSignalsListener | src/aiomisc_entrypoint/entrypoint.py:67-69 | Registers one signal listener. Without signals it processes SIGTERM and SIGINT. |
| EntrypointFacade.Entrypoint.ClearEnviron | src/aiomisc_entrypoint/entrypoint.py:71-73 | Registers one environment cleaner with the given filter. |
| EntrypointFacade.Entrypoint.ChangeUser | src/aiomisc_entrypoint/entrypoint.py:75-77 | Registers one user changer with the given user name. |
| EntrypointFacade.Entrypoint.RegisterServicesInContext | src/aiomisc_entrypoint/entrypoint.py:79-81 | Registers one context registrar. |
| EntrypointFacade.Entrypoint.FirstStartLastStop | src/aiomisc_entrypoint/entrypoint.py:83-85 | Registers one dependency coordinator. |
| EntrypointFacade.RunTrace | tests/test_entrypoint.py:42-53 | A run over the registered processors, as the test observes it: the phase hooks with the framework's start, workload and stop between them. Its properties are in RunTraceStaged and RunTraceAt. |
| EntrypointFacade.RunTraceStaged | tests/test_entrypoint.py:42-53 | A run has 4n+3 steps, in nondecreasing phase order. Service start, the workload and service stop each happen once, at fixed positions. |
| EntrypointFacade.RunTraceAt | tests/test_entrypoint.py:42-53 | The event at each position of a run: the hooks of each phase, with the framework's start, workload and stop between them. |
| EntrypointFacade.HooksInConnectionOrder | src/aiomisc_entrypoint/entrypoint.py:53-57 | Within every phase, the hooks run once each, in the order the processors were added. |
| EntrypointFacade.LifecycleScenario | tests/test_entrypoint.py:14-53 | The lifecycle test: one processor around one service gives the seven events the test expects. |
| SysSignals.SysSignalListener.constructor | src/aiomisc_entrypoint/processors/sys_signals.py:17-20 | Without signals the processed signals are (SIGTERM, SIGINT). Otherwise they are exactly the given signals, in order. |
| SysSignals.SysSignalListener.PreStart | src/aiomisc_entrypoint/processors/sys_signals.py:22-37 | A fresh, unset shutdown flag, a pending listener, and one handler for each processed signal, all setting that flag. |
| SysSignals.SysSignalListener.HandleSignal | src/aiomisc_entrypoint/processors/sys_signals.py:33-35 | A delivered signal sets the flag exactly when a handler is installed for it. Setting it again changes nothing. |
| SysSignals.SysSignalListener.ListenerStep | src/aiomisc_entrypoint/processors/sys_signals.py:26-29 | The pending listener schedules `loop.stop` once the flag is set, and only then, at most once. |
| SysSignals.SysSignalListener.PostStop | src/aiomisc_entrypoint/processors/sys_signals.py:39-42 | A pending listener is cancelled and swallows the cancellation; a finished one is left alone. The teardown succeeds exactly when `pre_start` created a listener. |
| SysSignals.SignalEndsRun | tests/test_entrypoint.py:56-85 | With the default signals, SIGINT or SIGTERM (even delivered twice) leads to exactly one `loop.stop`. Other signals lead to none. The teardown succeeds either way. |
| SysSignals.QuietRun | tests/test_entrypoint.py:87-92 | A listener that never fires schedules no stop and is done after the teardown, which succeeds. |
| SysSignals.ArbitraryRun | src/aiomisc_entrypoint/processors/sys_signals.py:22-42 | For any deliveries and schedules: at most one `loop.stop`, only by a listener step after a processed signal arrived, and the teardown succeeds. |
| SvcToContext.ContextKeyInjective | src/aiomisc_entrypoint/processors/svc_to_context.py:28 | Distinct names give distinct `service__` keys. |
| SvcToContext.ContextWrapped | src/aiomisc_entrypoint/processors/svc_to_context.py:11-14 | The start attributes after the loop of `pre_start`: each named service's start is wrapped once per registration. Its properties are in ContextWrappedSpec and ContextWrappedLayers. |
| SvcToContext.ContextWrappedLayers | src/aiomisc_entrypoint/processors/svc_to_context.py:11-14 | A named service's start becomes its previous start wrapped once per registration of the service, with nothing discarded. An unregistered named service wraps zero times. |
| SvcToContext.ContextWrappedSpec | src/aiomisc_entrypoint/processors/svc_to_context.py:11-14 | Only named registered services get their start wrapped: the new start is a registrar wrapper for that service and awaits nothing new. Every other service keeps its override or its absence. |
| SvcToContext.LayeredAwaits | src/aiomisc_entrypoint/processors/svc_to_context.py:32-35 | However many registrar wrappers surround a start, it awaits exactly what the inner start awaits. |
| SvcToContext.LayeredRecorded | src/aiomisc_entrypoint/processors/svc_to_context.py:32-35 | A call through k registrar wrappers of a service records that service k times, then whatever the inner start records. |
| SvcToContext.StepIgnoresContextWrapping | src/aiomisc_entrypoint/processors/svc_to_context.py:32-35 | Every step of the gating machine, enabled or blocked, has the same effect under the registrar's wrapping as under the tables it wrapped. |
| SvcToContext.RunIgnoresContextWrapping | src/aiomisc_entrypoint/processors/svc_to_context.py:32-35 | Start completion is not gated on publication: a whole run under the registrar's wrapping is the run under the tables it wrapped. |
| SvcToContext.Publish | src/aiomisc_entrypoint/processors/svc_to_context.py:25-28 | The context after pending tasks publish in order. Each pending task of a named service writes `service__<name>`. Its properties are in PublishSpec. |
| SvcToContext.PublishSpec | src/aiomisc_entrypoint/processors/svc_to_context.py:25-28 | Running pending tasks adds exactly the `service__<name>` keys of their services. With distinct names, each key maps to its own service. Keys that no pending task writes keep their values, including keys written earlier by finished tasks. |
| SvcToContext.RegisterServiceInContext.constructor | src/aiomisc_entrypoint/processors/svc_to_context.py:8-9 | No publication task is recorded yet. |
| SvcToContext.RegisterServiceInContext.PreStart | src/aiomisc_entrypoint/processors/svc_to_context.py:11-14 | Start overrides become the context wrapping of the named services. Stop overrides are unchanged. |
| SvcToContext.RegisterServiceInContext.Wrapper | src/aiomisc_entrypoint/processors/svc_to_context.py:32-35 | A call records one pending publication task for a named service, and none otherwise. |
| SvcToContext.RegisterServiceInContext.CallStart | src/aiomisc_entrypoint/processors/svc_to_context.py:32-35 | Calling a wrapped start records one task per context wrapper in its chain, outermost first. |
| SvcToContext.RegisterServiceInContext.RunTask | src/aiomisc_entrypoint/processors/svc_to_context.py:25-28 | A task publishes only once its service's start event is set. Before that it stays pending and the context is unchanged. |
| SvcToContext.RegisterServiceInContext.PostStart | src/aiomisc_entrypoint/processors/svc_to_context.py:16-21 | Without tasks nothing changes. Otherwise every task is done, the context holds what they publish, and every start override of the entrypoint's services is removed. |
| SvcToContext.RegistrarThenDependencyChained | src/aiomisc_entrypoint/processors/svc_to_context.py:32-35 | The dependency coordinator injected over context-wrapped starts still chains, so its ordering theorem holds with both processors. |
| SvcToContext.RegistrarScenario | tests/test_entrypoint.py:151-173 | The context test: after the start phase, `service__svc1`, `service__svc2` and `service__svc4` name their services, unnamed svc3 has no key, and no start override is left. |
| ClearEnviron.Cleared | src/aiomisc_entrypoint/processors/clear_environ.py:12-14 | After clearing, a name remains exactly when it was present and is not an accepted candidate. Remaining names keep their values. |
| ClearEnviron.ClearedAppend | src/aiomisc_entrypoint/processors/clear_environ.py:13-14 | Popping the candidates of one sequence and then those of another is the same as popping those of their concatenation. |
| ClearEnviron.ClearedIdempotent | src/aiomisc_entrypoint/processors/clear_environ.py:14 | Corollary of `Cleared`'s contract: popping the same candidates twice is popping them once, since missing names are no error. |
| ClearEnviron.ClearEnvironProcessor.constructor | src/aiomisc_entrypoint/processors/clear_environ.py:9-10 | The snapshot lists each key of the environment exactly once. Without a filter every name is accepted. |
| ClearEnviron.ClearEnvironProcessor.PreStart | src/aiomisc_entrypoint/processors/clear_environ.py:12-14 | The environment becomes its old value cleared of the accepted snapshot names, and the iterator is exhausted. |
| ClearEnviron.NoAcceptedCandidateRemains | src/aiomisc_entrypoint/processors/clear_environ.py:12-14 | Corollary of `Cleared`'s contract, stated on its own: no accepted snapshot name remains. |
| ClearEnviron.OthersKeepTheirValues | src/aiomisc_entrypoint/processors/clear_environ.py:10-14 | Corollary of `Cleared`'s contract, stated on its own: names the filter rejects, and names not in the snapshot, keep their values. |
| ClearEnviron.ClearedSnapshot | src/aiomisc_entrypoint/processors/clear_environ.py:10 | Clearing with a full snapshot leaves exactly the names the filter rejects. |
| ClearEnviron.ClearEnvironScenario | tests/test_entrypoint.py:95-121 | The environment test: the prefix filter removes only the matching name, and an unfiltered cleaner then removes everything. The scenario extends the test with the one-snapshot behaviour of clear_environ.py lines 10 and 13: a second `pre_start` on the same processor removes nothing, not even a matching name added later. |

## Left out

- The asyncio machinery is not modelled: the event loop, tasks, `Event.wait`, `call_soon`, `gather` and the delivery of cancellation. Waits are guarded transitions, and fairness and timing are not modelled.
- `aiomisc` itself is not part of this model: the `entrypoint` class, `Service`, `get_context` and the phase order of a run. The model assumes that a service's `start_event` is set only after its start returns, and that hooks fire in connection order.
- Failure paths are not modelled: a start or stop that raises, a hook that raises, and the liveness of a successor whose predecessor's start fails. No failure transition exists, and such a successor would stay blocked.
- OS effects are not modelled: `add_signal_handler` and real signal delivery, `os.environ` as process state (a map the caller passes), and the privilege drop in `processors/change_user.py`. `ChangeUser` is registered but not otherwise modelled.
- Logging is not modelled, including the signal handler's log line.
- Options and processors are opaque identities. The event loop, the policy and the filter function registered through the entrypoint are tokens, not values.
- `processors/base.py`, `abstractions.py` and `processors/__init__.py` are not part of this model: they hold only no-op defaults, an unused proxy class and re-exports.
- SvcDependency.MakeDependencyMap: the first assignment at line 55 is not reproduced, because the loop overwrites it. The method requires at least two services, as line 55 does; `pre_start` never calls it with fewer.
- DependencyGating.BeginStop: stops are called only once every start has returned. This models `aiomisc` waiting for all starts before the workload, together with the `start_event` assumption above; it is not a consequence of the dependency wrappers.
- DependencyGating.OrderedInEveryInterleaving: assumes the services are distinct. With a service registered twice, the last occurrence's neighbours win and the chain is not linear.
- SvcToContext.RegisterServiceInContext.PostStart: requires every recorded task's service to have started. `aiomisc` runs `post_start` only after all starts, and the model does not prove that.
- SvcToContext.RegisterServiceInContext.CallStart: walks a start chain in sequence and records its tasks. It does not model the dependency waits inside a combined chain.
- ClearEnviron.ClearEnvironProcessor.constructor: the snapshot's order is unspecified (`tuple(os.environ)` follows insertion order). The effect of `pre_start` does not depend on it.
