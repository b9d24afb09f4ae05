/**
 * The environment-clearing processor (ClearEnviron). At construction it
 * takes a snapshot of the environment's keys and wraps it in a lazy filter;
 * `pre_start` consumes that iterator and removes each key it yields,
 * ignoring keys that are already gone. The iterator is consumed once: a
 * second `pre_start` removes nothing, and keys added after construction are
 * never candidates.
 */
module ClearEnviron {
  import opened Wrappers

  /** The process environment, as a mutable map from names to values. */
  class Environ {
    var vars: map<string, string>

    constructor (vars: map<string, string>)
      ensures this.vars == vars
    {
      this.vars := vars;
    }
  }

  /** The names among `candidates` that `accept` lets through. */
  ghost function Candidates(candidates: seq<string>, accept: string -> bool): set<string>
  {
    set k | k in candidates && accept(k)
  }

  /**
   * The environment `vars` after every accepted candidate has been popped:
   * accepted candidates are gone, every other name keeps its value, and
   * nothing is added.
   */
  ghost function Cleared(vars: map<string, string>, candidates: seq<string>, accept: string -> bool): (r: map<string, string>)
    ensures forall k :: k in r <==> k in vars && !(k in candidates && accept(k))
    ensures forall k :: k in r ==> r[k] == vars[k]
  {
    vars - Candidates(candidates, accept)
  }

  /** Popping the accepted candidates of `a + b` is popping those of `a`, then those of `b`. */
  lemma ClearedAppend(vars: map<string, string>, a: seq<string>, b: seq<string>, accept: string -> bool)
    ensures Cleared(Cleared(vars, a, accept), b, accept) == Cleared(vars, a + b, accept)
  {
    assert Candidates(a + b, accept) == Candidates(a, accept) + Candidates(b, accept);
  }

  /** Clearing twice with the same candidates is clearing once. */
  lemma ClearedIdempotent(vars: map<string, string>, candidates: seq<string>, accept: string -> bool)
    ensures Cleared(Cleared(vars, candidates, accept), candidates, accept) == Cleared(vars, candidates, accept)
  {
  }

  class ClearEnvironProcessor {
    /** The filter predicate; without a filter function every name passes. */
    const accept: string -> bool
    /** What remains of the filtered snapshot iterator. */
    var pending: seq<string>

    /**
     * `__init__`: the snapshot holds each key of the environment exactly
     * once, in some order, and the filter defaults to accepting everything.
     */
    constructor (env: Environ, filter: Option<string -> bool>)
      ensures (set k | k in pending) == env.vars.Keys
      ensures forall i, j :: 0 <= i < j < |pending| ==> pending[i] != pending[j]
      ensures forall k :: accept(k) == (filter.None? || filter.value(k))
    {
      if filter.None? {
        accept := (k: string) => true;
      } else {
        accept := filter.value;
      }
      var keys := env.vars.Keys;
      var snapshot: seq<string> := [];
      while keys != {}
        invariant (set k | k in snapshot) + keys == env.vars.Keys
        invariant forall k :: k in snapshot ==> k !in keys
        invariant forall i, j :: 0 <= i < j < |snapshot| ==> snapshot[i] != snapshot[j]
        decreases keys
      {
        var key :| key in keys;
        snapshot := snapshot + [key];
        keys := keys - {key};
      }
      pending := snapshot;
    }

    /**
     * `pre_start`: pops every name the iterator yields; a name already
     * missing is skipped without error. The iterator is exhausted afterwards.
     */
    method PreStart(env: Environ)
      modifies this, env
      ensures env.vars == Cleared(old(env.vars), old(pending), accept)
      ensures pending == []
    {
      ghost var consumed: seq<string> := [];
      while pending != []
        invariant old(pending) == consumed + pending
        invariant env.vars == Cleared(old(env.vars), consumed, accept)
        decreases |pending|
      {
        var name := pending[0];
        pending := pending[1..];
        if accept(name) {
          env.vars := env.vars - {name};
        }
        ClearedAppend(old(env.vars), consumed, [name], accept);
        consumed := consumed + [name];
      }
      assert consumed == old(pending);
    }
  }

  /** After `pre_start`, no snapshot name that passes the filter is left. */
  lemma NoAcceptedCandidateRemains(vars: map<string, string>, candidates: seq<string>, accept: string -> bool, k: string)
    requires k in candidates && accept(k)
    ensures k !in Cleared(vars, candidates, accept)
  {
  }

  /** Names the filter rejects, and names that were never in the snapshot, keep their values. */
  lemma OthersKeepTheirValues(vars: map<string, string>, candidates: seq<string>, accept: string -> bool, k: string)
    requires k in vars && (k !in candidates || !accept(k))
    ensures k in Cleared(vars, candidates, accept) && Cleared(vars, candidates, accept)[k] == vars[k]
  {
  }

  /**
   * Clearing with a whole snapshot of `vars` as the candidates leaves
   * exactly the names the filter rejects.
   */
  lemma ClearedSnapshot(vars: map<string, string>, candidates: seq<string>, accept: string -> bool)
    requires (set k | k in candidates) == vars.Keys
    ensures forall k :: k in Cleared(vars, candidates, accept) <==> k in vars && !accept(k)
  {
    forall k | k in vars
      ensures k in candidates
    {
      assert k in (set k | k in candidates);
    }
  }

  /** The prefix filter of the environment test. */
  predicate TestPrefix(name: string)
  {
    "__TEST__" <= name
  }

  /**
   * The environment test: a prefix filter removes only the matching name,
   * and a processor without a filter then removes the rest. The scenario
   * adds what the one-shot snapshot implies: a second `pre_start` on the
   * same processor changes nothing, even for a matching name set after
   * construction.
   */
  method ClearEnvironScenario() returns (afterFilter: map<string, string>, afterSecond: map<string, string>, afterAll: map<string, string>)
    ensures afterFilter == map["__TEST2__ENTRYPOINT" := "test2"]
    ensures afterSecond == map["__TEST2__ENTRYPOINT" := "test2", "__TEST__LATE" := "late"]
    ensures afterAll == map[]
  {
    var env := new Environ(map["__TEST__ENTRYPOINT" := "test", "__TEST2__ENTRYPOINT" := "test2"]);
    var filtered := new ClearEnvironProcessor(env, Some(TestPrefix));
    ghost var before := env.vars;
    ghost var snapshot := filtered.pending;
    filtered.PreStart(env);
    afterFilter := env.vars;
    FilteredStep(before, snapshot, filtered.accept, afterFilter);
    env.vars := env.vars["__TEST__LATE" := "late"];
    filtered.PreStart(env);
    afterSecond := env.vars;
    var cleaner := new ClearEnvironProcessor(env, None);
    before, snapshot := env.vars, cleaner.pending;
    cleaner.PreStart(env);
    afterAll := env.vars;
    ClearedSnapshot(before, snapshot, cleaner.accept);
  }

  /** The first step of the environment test, with the prefix filter. */
  lemma FilteredStep(before: map<string, string>, snapshot: seq<string>, accept: string -> bool, after: map<string, string>)
    requires before == map["__TEST__ENTRYPOINT" := "test", "__TEST2__ENTRYPOINT" := "test2"]
    requires (set k | k in snapshot) == before.Keys
    requires forall k :: accept(k) == TestPrefix(k)
    requires after == Cleared(before, snapshot, accept)
    ensures after == map["__TEST2__ENTRYPOINT" := "test2"]
  {
    ClearedSnapshot(before, snapshot, accept);
    assert TestPrefix("__TEST__ENTRYPOINT");
    assert !TestPrefix("__TEST2__ENTRYPOINT") by {
      assert "__TEST2__ENTRYPOINT"[6] != "__TEST__"[6];
    }
  }
}
