/**
 * The "first start, last stop" processor (ServiceStartDependency): the
 * predecessor/successor map over the registration order, the installation of
 * the start/stop wrappers before the run, and their removal after it.
 * How the installed wrappers order the run is in module DependencyGating.
 */
module SvcDependency {

  import opened Wrappers
  import opened Services

  /** The service awaited before starting (`start`) and the one awaited before stopping (`stop`). */
  datatype DependencyItem = DependencyItem(start: Option<ServiceId>, stop: Option<ServiceId>)

  /** The service registered just before position `i`, if any. */
  function Predecessor(services: seq<ServiceId>, i: nat): Option<ServiceId>
    requires i < |services|
  {
    if i == 0 then None else Some(services[i - 1])
  }

  /** The service registered just after position `i`, if any. */
  function Successor(services: seq<ServiceId>, i: nat): Option<ServiceId>
    requires i < |services|
  {
    if i == |services| - 1 then None else Some(services[i + 1])
  }

  /** No position of `services` strictly between `i` and `k` holds the service at `i`. */
  predicate LastBefore(services: seq<ServiceId>, i: nat, k: nat)
    requires i < k <= |services|
  {
    forall j :: i < j < k ==> services[j] != services[i]
  }

  /** Position `i` is the last registration of its service; a dict keyed by service keeps this one's entry. */
  predicate IsLast(services: seq<ServiceId>, i: nat)
    requires i < |services|
  {
    LastBefore(services, i, |services|)
  }

  /**
   * `_make_dependency_map`: one entry per service, filled in registration
   * order, so a service registered twice keeps the neighbours of its last
   * position. Indexing `services[1]` fails unless there are two services.
   */
  method MakeDependencyMap(services: seq<ServiceId>) returns (dep: map<ServiceId, DependencyItem>)
    requires |services| >= 2
    ensures dep.Keys == ServiceSet(services)
    ensures Distinct(services) ==> |dep| == |services|
    ensures forall i :: 0 <= i < |services| && IsLast(services, i) ==>
              dep[services[i]] == DependencyItem(Predecessor(services, i), Successor(services, i))
  {
    dep := map[];
    var svcCount := |services|;
    var index := 0;
    while index < svcCount
      invariant 0 <= index <= svcCount
      invariant MapUpTo(services, index, dep)
    {
      var svc := services[index];
      var item;
      if index == 0 {
        item := DependencyItem(None, Some(services[index + 1]));
      } else if index < svcCount - 1 {
        item := DependencyItem(Some(services[index - 1]), Some(services[index + 1]));
      } else {
        item := DependencyItem(Some(services[index - 1]), None);
      }
      MapStep(services, index, dep, item);
      dep := dep[svc := item];
      index := index + 1;
    }
    assert services[..svcCount] == services;
    if Distinct(services) {
      DistinctCount(services);
    }
  }

  /** The dependency map after the first `k` turns of the loop of `_make_dependency_map`. */
  ghost predicate MapUpTo(services: seq<ServiceId>, k: nat, dep: map<ServiceId, DependencyItem>)
    requires k <= |services|
  {
    && dep.Keys == ServiceSet(services[..k])
    && forall i :: 0 <= i < k && LastBefore(services, i, k) ==>
         services[i] in dep && dep[services[i]] == DependencyItem(Predecessor(services, i), Successor(services, i))
  }

  lemma MapStep(services: seq<ServiceId>, k: nat, dep: map<ServiceId, DependencyItem>, item: DependencyItem)
    requires k < |services| && MapUpTo(services, k, dep)
    requires item == DependencyItem(Predecessor(services, k), Successor(services, k))
    ensures MapUpTo(services, k + 1, dep[services[k] := item])
  {
    var next := dep[services[k] := item];
    forall i | 0 <= i < k + 1 && LastBefore(services, i, k + 1)
      ensures services[i] in next && next[services[i]] == DependencyItem(Predecessor(services, i), Successor(services, i))
    {
      if i < k {
        assert services[k] != services[i];
        assert LastBefore(services, i, k);
      }
    }
    ServiceSetExtend(services, k);
  }

  /** Growing a prefix of the registrations by one position adds that position's service. */
  lemma ServiceSetExtend(services: seq<ServiceId>, k: nat)
    requires k < |services|
    ensures ServiceSet(services[..k + 1]) == ServiceSet(services[..k]) + {services[k]}
  {
    assert services[..k + 1] == services[..k] + [services[k]];
  }

  /** A registration sequence without repetitions names as many services as it has positions. */
  lemma {:induction false} DistinctCount(services: seq<ServiceId>)
    requires Distinct(services)
    ensures |ServiceSet(services)| == |services|
  {
    if services != [] {
      var rest := services[1..];
      assert Distinct(rest) by {
        forall i, j | 0 <= i < j < |rest| ensures rest[i] != rest[j] {
          assert rest[i] == services[i + 1] && rest[j] == services[j + 1];
        }
      }
      DistinctCount(rest);
      assert ServiceSet(services) == {services[0]} + ServiceSet(rest);
      assert services[0] !in ServiceSet(rest) by {
        forall j | 0 <= j < |rest| ensures rest[j] != services[0] {
          assert rest[j] == services[j + 1];
        }
      }
    }
  }

  /** Every service of a registration sequence has a last registration. */
  lemma {:induction false} LastOccurrenceExists(services: seq<ServiceId>, s: ServiceId)
    requires s in services
    ensures exists i :: 0 <= i < |services| && services[i] == s && IsLast(services, i)
  {
    var n := |services|;
    if services[n - 1] == s {
      assert IsLast(services, n - 1);
    } else {
      var front := services[..n - 1];
      assert s in front by {
        var k :| 0 <= k < n && services[k] == s;
        assert front[k] == s;
      }
      LastOccurrenceExists(front, s);
      var i :| 0 <= i < |front| && front[i] == s && IsLast(front, i);
      assert IsLast(services, i) by {
        forall j | i < j < n ensures services[j] != services[i] {
          if j < n - 1 {
            assert front[j] == services[j];
          }
        }
      }
    }
  }

  /**
   * After `_inject_decorators` every registered service, including one
   * registered twice, has both attributes set to the dependency wrappers
   * around what it had before, and its stop wrapper sets the service's own
   * stop event.
   */
  lemma EveryServiceWrapped(services: seq<ServiceId>,
                            start0: map<ServiceId, StartOp>, stop0: map<ServiceId, StopOp>,
                            startM: map<ServiceId, StartOp>, stopM: map<ServiceId, StopOp>)
    requires Injected(services, start0, stop0, startM, stopM)
    ensures forall s :: s in services ==>
              && s in startM && startM[s].DependencyStart? && startM[s].inner == StartIn(start0, s)
              && s in stopM && stopM[s].DependencyStop? && stopM[s].inner == StopIn(stop0, s) && stopM[s].own == s
  {
    forall s | s in services
      ensures s in startM && startM[s].DependencyStart? && startM[s].inner == StartIn(start0, s)
      ensures s in stopM && stopM[s].DependencyStop? && stopM[s].inner == StopIn(stop0, s) && stopM[s].own == s
    {
      LastOccurrenceExists(services, s);
    }
  }

  /**
   * With distinct services the map is consistent in both directions: `b`
   * follows `a` exactly when `a` precedes `b`.
   */
  lemma ChainSymmetric(services: seq<ServiceId>, i: nat, j: nat)
    requires Distinct(services) && i < |services| && j < |services|
    ensures Successor(services, i) == Some(services[j]) <==> Predecessor(services, j) == Some(services[i])
  {
  }

  /**
   * What `_inject_decorators` leaves behind, for attribute tables that were
   * `start0`/`stop0` before and are `startM`/`stopM` after: every service's
   * `start` awaits its predecessor's start event and then calls what `start`
   * was before; every service's `stop` awaits the stop event of its
   * successor, calls what `stop` was before and then sets the service's own
   * stop event; the attributes of every other service are as they were.
   */
  ghost predicate Injected(services: seq<ServiceId>,
                           start0: map<ServiceId, StartOp>, stop0: map<ServiceId, StopOp>,
                           startM: map<ServiceId, StartOp>, stopM: map<ServiceId, StopOp>)
  {
    && (forall i :: 0 <= i < |services| && IsLast(services, i) ==>
          && StartIn(startM, services[i]) == DependencyStart(StartIn(start0, services[i]), Predecessor(services, i))
          && StopIn(stopM, services[i]) == DependencyStop(StopIn(stop0, services[i]), services[i], Successor(services, i)))
    && Unregistered(services, start0, stop0, startM, stopM)
  }

  /** Services that are not registered keep their attributes, present or absent. */
  ghost predicate Unregistered(services: seq<ServiceId>,
                               start0: map<ServiceId, StartOp>, stop0: map<ServiceId, StopOp>,
                               startM: map<ServiceId, StartOp>, stopM: map<ServiceId, StopOp>)
  {
    forall s :: s !in services ==>
      && (s in startM <==> s in start0) && StartIn(startM, s) == StartIn(start0, s)
      && (s in stopM <==> s in stop0) && StopIn(stopM, s) == StopIn(stop0, s)
  }

  /** The new entry of a turn of the loop of `_inject_decorators`, or none. */
  predicate WrapTurn(services: seq<ServiceId>, k: nat,
                     startM: map<ServiceId, StartOp>, stopM: map<ServiceId, StopOp>,
                     startN: map<ServiceId, StartOp>, stopN: map<ServiceId, StopOp>)
    requires k < |services|
  {
    if IsLast(services, k) then
      && startN == startM[services[k] := DependencyStart(StartIn(startM, services[k]), Predecessor(services, k))]
      && stopN == stopM[services[k] := DependencyStop(StopIn(stopM, services[k]), services[k], Successor(services, k))]
    else
      startN == startM && stopN == stopM
  }

  /** Services whose last registration lies before `k` are wrapped around what they were. */
  ghost predicate WrappedEntries(services: seq<ServiceId>, k: nat,
                                 start0: map<ServiceId, StartOp>, stop0: map<ServiceId, StopOp>,
                                 startM: map<ServiceId, StartOp>, stopM: map<ServiceId, StopOp>)
    requires k <= |services|
  {
    forall i :: 0 <= i < k && IsLast(services, i) ==>
      && StartIn(startM, services[i]) == DependencyStart(StartIn(start0, services[i]), Predecessor(services, i))
      && StopIn(stopM, services[i]) == DependencyStop(StopIn(stop0, services[i]), services[i], Successor(services, i))
  }

  /** Services registered at or after `k`, and services not registered at all, are as they were. */
  ghost predicate UntouchedEntries(services: seq<ServiceId>, k: nat,
                                   start0: map<ServiceId, StartOp>, stop0: map<ServiceId, StopOp>,
                                   startM: map<ServiceId, StartOp>, stopM: map<ServiceId, StopOp>)
    requires k <= |services|
  {
    && (forall i :: k <= i < |services| ==>
          StartIn(startM, services[i]) == StartIn(start0, services[i]) && StopIn(stopM, services[i]) == StopIn(stop0, services[i]))
    && Unregistered(services, start0, stop0, startM, stopM)
  }

  lemma WrapTurnEntries(services: seq<ServiceId>, k: nat,
                        start0: map<ServiceId, StartOp>, stop0: map<ServiceId, StopOp>,
                        startM: map<ServiceId, StartOp>, stopM: map<ServiceId, StopOp>,
                        startN: map<ServiceId, StartOp>, stopN: map<ServiceId, StopOp>)
    requires k < |services|
    requires WrappedEntries(services, k, start0, stop0, startM, stopM)
    requires UntouchedEntries(services, k, start0, stop0, startM, stopM)
    requires WrapTurn(services, k, startM, stopM, startN, stopN)
    ensures WrappedEntries(services, k + 1, start0, stop0, startN, stopN)
  {
    forall i | 0 <= i < k + 1 && IsLast(services, i)
      ensures StartIn(startN, services[i]) == DependencyStart(StartIn(start0, services[i]), Predecessor(services, i))
      ensures StopIn(stopN, services[i]) == DependencyStop(StopIn(stop0, services[i]), services[i], Successor(services, i))
    {
      if i < k {
        assert services[k] != services[i];
      }
    }
  }

  lemma WrapTurnUntouched(services: seq<ServiceId>, k: nat,
                          start0: map<ServiceId, StartOp>, stop0: map<ServiceId, StopOp>,
                          startM: map<ServiceId, StartOp>, stopM: map<ServiceId, StopOp>,
                          startN: map<ServiceId, StartOp>, stopN: map<ServiceId, StopOp>)
    requires k < |services|
    requires UntouchedEntries(services, k, start0, stop0, startM, stopM)
    requires WrapTurn(services, k, startM, stopM, startN, stopN)
    ensures UntouchedEntries(services, k + 1, start0, stop0, startN, stopN)
  {
    forall i | k + 1 <= i < |services|
      ensures StartIn(startN, services[i]) == StartIn(start0, services[i])
      ensures StopIn(stopN, services[i]) == StopIn(stop0, services[i])
    {
      if IsLast(services, k) {
        assert services[i] != services[k];
      }
    }
  }

  /**
   * `svc.start = _start_decorator(svc, dp_item.start)` followed by
   * `svc.stop = _stop_decorator(svc, stop_events[svc], stop_events[dp_item.stop])`:
   * each wrapper captures the operation it replaces.
   */
  method Decorate(table: ServiceTable, svc: ServiceId, dpItem: DependencyItem)
    modifies table
    ensures table.startOverride == old(table.startOverride)[svc := DependencyStart(old(table.Start(svc)), dpItem.start)]
    ensures table.stopOverride == old(table.stopOverride)[svc := DependencyStop(old(table.Stop(svc)), svc, dpItem.stop)]
  {
    table.startOverride := table.startOverride[svc := DependencyStart(table.Start(svc), dpItem.start)];
    table.stopOverride := table.stopOverride[svc := DependencyStop(table.Stop(svc), svc, dpItem.stop)];
  }

  /**
   * `_inject_decorators`: for every entry of the dependency map, replace
   * `svc.start` and `svc.stop` by the wrappers of `_start_decorator` and
   * `_stop_decorator`. Stop events live in a table keyed by service, so the
   * event a service sets is the one its predecessor awaits.
   */
  method InjectDecorators(table: ServiceTable, services: seq<ServiceId>)
    requires |services| >= 2
    modifies table
    ensures Injected(services, old(table.startOverride), old(table.stopOverride), table.startOverride, table.stopOverride)
  {
    ghost var start0, stop0 := table.startOverride, table.stopOverride;
    var dependenciesMap := MakeDependencyMap(services);
    var index := 0;
    while index < |services|
      invariant 0 <= index <= |services|
      invariant WrappedEntries(services, index, start0, stop0, table.startOverride, table.stopOverride)
      invariant UntouchedEntries(services, index, start0, stop0, table.startOverride, table.stopOverride)
    {
      var svc := services[index];
      ghost var startPrev, stopPrev := table.startOverride, table.stopOverride;
      if IsLast(services, index) {
        var dpItem := dependenciesMap[svc];
        Decorate(table, svc, dpItem);
      }
      assert WrapTurn(services, index, startPrev, stopPrev, table.startOverride, table.stopOverride);
      WrapTurnEntries(services, index, start0, stop0, startPrev, stopPrev, table.startOverride, table.stopOverride);
      WrapTurnUntouched(services, index, start0, stop0, startPrev, stopPrev, table.startOverride, table.stopOverride);
      index := index + 1;
    }
  }

  /** `ServiceStartDependency.pre_start`: the wrappers are installed only when there is more than one service. */
  method PreStart(table: ServiceTable, services: seq<ServiceId>)
    modifies table
    ensures |services| <= 1 ==> table.startOverride == old(table.startOverride) && table.stopOverride == old(table.stopOverride)
    ensures |services| > 1 ==> Injected(services, old(table.startOverride), old(table.stopOverride), table.startOverride, table.stopOverride)
  {
    if |services| > 1 {
      InjectDecorators(table, services);
    }
  }

  /**
   * `ServiceStartDependency.post_stop`: delete the instance attributes
   * `start` and `stop` of every service that has them, whoever installed
   * them, so that every service is back to its class's own operations.
   */
  method PostStop(table: ServiceTable, services: seq<ServiceId>)
    modifies table
    ensures table.startOverride == old(table.startOverride) - ServiceSet(services)
    ensures table.stopOverride == old(table.stopOverride) - ServiceSet(services)
    ensures forall s :: s in services ==> table.Start(s) == OriginalStart && table.Stop(s) == OriginalStop
  {
    for index := 0 to |services|
      invariant table.startOverride == old(table.startOverride) - ServiceSet(services[..index])
      invariant table.stopOverride == old(table.stopOverride) - ServiceSet(services[..index])
    {
      var svc := services[index];
      if svc in table.startOverride {
        table.startOverride := table.startOverride - {svc};
      }
      if svc in table.stopOverride {
        table.stopOverride := table.stopOverride - {svc};
      }
      ServiceSetExtend(services, index);
    }
    assert services[..|services|] == services;
  }
}
