/**
 * The signal bridge (SysSignalListener): one shutdown event per run, set by
 * a handler installed for each processed signal, and a listener task that
 * waits for the event and then schedules the stop of the event loop.
 * The listener's `await` is a guarded step: `ListenerStep` does nothing
 * until the event is set.
 */
module SysSignals {

  type Signal = int

  const SIGINT: Signal := 2
  const SIGTERM: Signal := 15

  /** The state of the listener task created by `pre_start`. */
  datatype ListenerTask =
    | NoListener
      /** awaiting the shutdown event */
    | Pending
      /** returned: it scheduled `loop.stop` (`stopScheduled`) or was cancelled and swallowed the cancellation */
    | Done(stopScheduled: bool)

  class SysSignalListener {
    const processedSignals: seq<Signal>
    /** `stop_entrypoint_signal` of the latest `pre_start`. */
    var shutdownRequested: bool
    /** The signals whose handler on the loop sets that event. */
    var handled: set<Signal>
    var listener: ListenerTask
    /** How many `loop.stop` calls this processor has scheduled in the current run. */
    var loopStops: nat

    /** Every stop scheduled so far was scheduled by a listener that saw the event set. */
    predicate Valid()
      reads this
    {
      && loopStops <= 1
      && (listener == Done(true) ==> shutdownRequested && loopStops == 1)
      && (listener == Pending ==> loopStops == 0)
    }

    /** `__init__`: without arguments the processed signals are SIGTERM then SIGINT. */
    constructor (stopSignals: seq<Signal>)
      ensures |stopSignals| == 0 ==> processedSignals == [SIGTERM, SIGINT]
      ensures |stopSignals| > 0 ==> processedSignals == stopSignals
      ensures listener == NoListener && !shutdownRequested && handled == {} && loopStops == 0
      ensures Valid()
    {
      if |stopSignals| == 0 {
        processedSignals := [SIGTERM, SIGINT];
      } else {
        processedSignals := stopSignals;
      }
      shutdownRequested := false;
      handled := {};
      listener := NoListener;
      loopStops := 0;
    }

    /**
     * `pre_start`: a fresh, unset event; a listener awaiting it; and one
     * handler per processed signal, all setting that same event.
     */
    method PreStart()
      modifies this
      ensures !shutdownRequested && listener == Pending && loopStops == 0
      ensures handled == (set s | s in processedSignals)
      ensures Valid()
    {
      shutdownRequested := false;
      listener := Pending;
      loopStops := 0;
      handled := {};
      for index := 0 to |processedSignals|
        invariant handled == (set s | s in processedSignals[..index])
        invariant !shutdownRequested && listener == Pending && loopStops == 0
      {
        handled := handled + {processedSignals[index]};
        assert processedSignals[..index + 1] == processedSignals[..index] + [processedSignals[index]];
      }
      assert processedSignals[..|processedSignals|] == processedSignals;
    }

    /**
     * The delivery of signal `sig`: the handler, if one is installed, sets
     * the shared event. Setting it twice is the same as setting it once.
     */
    method HandleSignal(sig: Signal)
      requires Valid()
      modifies this
      ensures shutdownRequested == (old(shutdownRequested) || sig in handled)
      ensures handled == old(handled) && listener == old(listener) && loopStops == old(loopStops)
      ensures Valid()
    {
      if sig in handled {
        shutdownRequested := true;
      }
    }

    /** The listener resumes once the event is set and schedules `loop.stop`; otherwise it stays blocked. */
    method ListenerStep()
      requires Valid()
      modifies this
      ensures old(listener) == Pending && shutdownRequested ==> listener == Done(true) && loopStops == old(loopStops) + 1
      ensures !(old(listener) == Pending && shutdownRequested) ==> listener == old(listener) && loopStops == old(loopStops)
      ensures shutdownRequested == old(shutdownRequested) && handled == old(handled)
      ensures Valid()
    {
      if listener == Pending && shutdownRequested {
        loopStops := loopStops + 1;
        listener := Done(true);
      }
    }

    /**
     * `post_stop`: a listener still waiting is cancelled, and it swallows the
     * cancellation, so the teardown succeeds and the listener is done either
     * way. Without a `pre_start` there is no listener attribute: `ok` is false.
     */
    method PostStop() returns (ok: bool)
      requires Valid()
      modifies this
      ensures ok == (old(listener) != NoListener)
      ensures old(listener) == Pending ==> listener == Done(false)
      ensures old(listener) != Pending ==> listener == old(listener)
      ensures shutdownRequested == old(shutdownRequested) && handled == old(handled) && loopStops == old(loopStops)
      ensures Valid()
    {
      if listener == NoListener {
        return false;
      }
      if listener == Pending {
        listener := Done(false);
      }
      ok := true;
    }
  }

  /**
   * The signal test: a listener with the default signals, pre_start, then
   * `sig` delivered during `run_forever`. SIGINT and SIGTERM both lead to
   * exactly one scheduled `loop.stop`, the teardown succeeds, and another
   * signal delivered twice changes nothing.
   */
  method SignalEndsRun(sig: Signal) returns (loopStops: nat, teardownOk: bool)
    ensures sig == SIGINT || sig == SIGTERM ==> loopStops == 1 && teardownOk
    ensures sig != SIGINT && sig != SIGTERM ==> loopStops == 0 && teardownOk
  {
    var processor := new SysSignalListener([]);
    processor.PreStart();
    processor.HandleSignal(sig);
    processor.HandleSignal(sig);
    processor.ListenerStep();
    processor.ListenerStep();
    teardownOk := processor.PostStop();
    loopStops := processor.loopStops;
  }

  /** `run_until_complete` with a listener that never fires: the teardown cancels it and nothing stops the loop. */
  method QuietRun(signals: seq<Signal>) returns (loopStops: nat, teardownOk: bool, listenerDone: bool)
    ensures loopStops == 0 && teardownOk && listenerDone
  {
    var processor := new SysSignalListener(signals);
    processor.PreStart();
    processor.ListenerStep();
    teardownOk := processor.PostStop();
    loopStops := processor.loopStops;
    listenerDone := processor.listener.Done?;
  }

  /** What the event loop does next: deliver a signal, or let the listener task run. */
  datatype LoopEvent = Deliver(sig: Signal) | Wake

  /**
   * Any run of a listener created with `stopSignals`: whatever signals
   * arrive and however the listener is scheduled, `loop.stop` is scheduled
   * at most once, only by a listener step that came after the delivery of a
   * processed signal, and the teardown succeeds.
   */
  method ArbitraryRun(stopSignals: seq<Signal>, events: seq<LoopEvent>) returns (loopStops: nat, teardownOk: bool)
    ensures loopStops <= 1
    ensures loopStops == 1 ==>
      exists k, j :: 0 <= k < j < |events| && events[j] == Wake && events[k].Deliver? &&
        events[k].sig in (if |stopSignals| == 0 then [SIGTERM, SIGINT] else stopSignals)
    ensures teardownOk
  {
    var processor := new SysSignalListener(stopSignals);
    processor.PreStart();
    ghost var processed := processor.processedSignals;
    for index := 0 to |events|
      invariant processor.Valid() && processor.listener != NoListener
      invariant processor.handled == (set s | s in processed)
      invariant processor.shutdownRequested ==>
        exists k :: 0 <= k < index && events[k].Deliver? && events[k].sig in processed
      invariant processor.loopStops == 1 ==>
        exists k, j :: 0 <= k < j < index && events[j] == Wake && events[k].Deliver? && events[k].sig in processed
    {
      match events[index]
      case Deliver(sig) => processor.HandleSignal(sig);
      case Wake =>
        ghost var requested := processor.shutdownRequested;
        processor.ListenerStep();
        if processor.loopStops == 1 && !(exists k, j :: 0 <= k < j < index && events[j] == Wake && events[k].Deliver? && events[k].sig in processed) {
          assert requested;
          var k :| 0 <= k < index && events[k].Deliver? && events[k].sig in processed;
          assert events[index] == Wake;
        }
    }
    teardownOk := processor.PostStop();
    loopStops := processor.loopStops;
  }
}
