/** The runtime pool of one extension and the process-wide registry of pools
    (internal/goja/goja_runtime/goja_runtime_manager.go).

    The model is sequential: each `Get` and `Put` is one atomic step. The compare-and-swap loop
    that reserves a slot always succeeds at its first attempt when nobody else runs, so it is a
    single increment here, and the blocking wait of a full pool ends only through its context.

    The accounting of a pool (capacity, idle count, checked-out count and the four metrics) is
    given as a pure state machine, `Step` and `Run`, about which the pool's promises are proved;
    the `Pool` class is tied to that machine by its `View`. */
module GojaRuntime {
  import opened Host

  /** A goja runtime, seen from the pool: an opaque object with an interrupt flag and its
      global bindings. */
  class Runtime {
    var interrupted: bool
    var globals: map<string, Value>

    constructor (bindings: map<string, Value>)
      ensures !interrupted && globals == bindings
    {
      interrupted := false;
      globals := bindings;
    }

    method ClearInterrupt()
      modifies this
      ensures !interrupted && globals == old(globals)
    {
      interrupted := false;
    }
  }

  // ---------------------------------------------------------------------------------------
  // Accounting: the pool as a state machine over counts
  // ---------------------------------------------------------------------------------------

  datatype Metrics = Metrics(created: nat, reused: nat, errors: nat, timeouts: nat)

  /** `idle` is the number of runtimes waiting in the channel, `active` the checked-out count. */
  datatype Accounting = Accounting(maxSize: nat, idle: nat, active: int, metrics: Metrics)

  /** One call on a pool. For `Get`, whether the context is already done and whether the
      initialiser would succeed if it were called. */
  datatype PoolOp = GetOp(ctxDone: bool, initSucceeds: bool) | PutOp

  function FreshAccounting(maxSize: nat): Accounting {
    Accounting(maxSize, 0, 0, Metrics(0, 0, 0, 0))
  }

  /** The capacity invariant on counts: the checked-out count is not negative and idle plus
      checked out never exceeds the capacity. */
  predicate Sound(a: Accounting) {
    0 <= a.active && a.idle + a.active <= a.maxSize
  }

  /** A call that returns when run sequentially: a `Get` on a full pool with no idle runtime
      can only return through its context, and `Put` only returns a checked-out runtime. */
  predicate CanStep(a: Accounting, op: PoolOp) {
    match op
    case GetOp(ctxDone, _) => a.idle > 0 || a.active < a.maxSize || ctxDone
    case PutOp => a.active > 0
  }

  function Total(m: Metrics): nat {
    m.created + m.reused + m.errors + m.timeouts
  }

  /** Exactly one of the four counters went up, by exactly one. */
  predicate BumpedOnce(m: Metrics, n: Metrics) {
    || n == m.(created := m.created + 1)
    || n == m.(reused := m.reused + 1)
    || n == m.(errors := m.errors + 1)
    || n == m.(timeouts := m.timeouts + 1)
  }

  predicate NoCounterDecreases(m: Metrics, n: Metrics) {
    m.created <= n.created && m.reused <= n.reused && m.errors <= n.errors && m.timeouts <= n.timeouts
  }

  function Step(a: Accounting, op: PoolOp): (b: Accounting)
    requires CanStep(a, op)
    ensures b.maxSize == a.maxSize
    ensures op.GetOp? ==> BumpedOnce(a.metrics, b.metrics)
    ensures op.PutOp? ==> b.metrics == a.metrics && b.active == a.active - 1
    ensures Sound(a) ==> Sound(b)
  {
    match op
    case GetOp(ctxDone, initSucceeds) =>
      if a.idle > 0 then
        a.(idle := a.idle - 1, active := a.active + 1, metrics := a.metrics.(reused := a.metrics.reused + 1))
      else if a.active >= a.maxSize then
        a.(metrics := a.metrics.(timeouts := a.metrics.timeouts + 1))
      else if initSucceeds then
        a.(active := a.active + 1, metrics := a.metrics.(created := a.metrics.created + 1))
      else
        a.(metrics := a.metrics.(errors := a.metrics.errors + 1))
    case PutOp =>
      a.(active := a.active - 1, idle := if a.idle < a.maxSize then a.idle + 1 else a.idle)
  }

  /** A sequence of calls each of which returns. */
  predicate Runnable(a: Accounting, ops: seq<PoolOp>)
    decreases |ops|
  {
    ops == [] || (CanStep(a, ops[0]) && Runnable(Step(a, ops[0]), ops[1..]))
  }

  function Run(a: Accounting, ops: seq<PoolOp>): Accounting
    requires Runnable(a, ops)
    decreases |ops|
  {
    if ops == [] then a else Run(Step(a, ops[0]), ops[1..])
  }

  function Gets(ops: seq<PoolOp>): nat
    decreases |ops|
  {
    if ops == [] then 0 else (if ops[0].GetOp? then 1 else 0) + Gets(ops[1..])
  }

  /** In the sequential model a `Put` from a sound state always finds room in the idle queue,
      so sequentially the discard branch is reached only through misuse. */
  lemma PutNeverDiscards(a: Accounting)
    requires Sound(a) && CanStep(a, PutOp)
    ensures Step(a, PutOp).idle == a.idle + 1
  {
  }

  /** Over any sequence of sequential calls the capacity invariant holds, so the checked-out
      count never exceeds the capacity. */
  lemma {:induction false} RunKeepsCapacity(a: Accounting, ops: seq<PoolOp>)
    requires Sound(a) && Runnable(a, ops)
    ensures Sound(Run(a, ops)) && Run(a, ops).maxSize == a.maxSize
    ensures Run(a, ops).active <= a.maxSize && Run(a, ops).idle + Run(a, ops).active <= a.maxSize
    decreases |ops|
  {
    if ops != [] {
      RunKeepsCapacity(Step(a, ops[0]), ops[1..]);
    }
  }

  /** Every `Get` bumps exactly one counter and `Put` none, so the counters add up to the number
      of `Get` calls made; and no counter ever decreases. */
  lemma {:induction false} RunCountsEveryGet(a: Accounting, ops: seq<PoolOp>)
    requires Runnable(a, ops)
    ensures Total(Run(a, ops).metrics) == Total(a.metrics) + Gets(ops)
    ensures NoCounterDecreases(a.metrics, Run(a, ops).metrics)
    decreases |ops|
  {
    if ops != [] {
      RunCountsEveryGet(Step(a, ops[0]), ops[1..]);
    }
  }

  /** A pool of capacity one, used twice in turn: the second caller gets the first caller's
      runtime back. */
  lemma CapacityOneReuses()
    ensures Runnable(FreshAccounting(1), [GetOp(false, true), PutOp, GetOp(false, true)])
    ensures Run(FreshAccounting(1), [GetOp(false, true), PutOp, GetOp(false, true)]).metrics
         == Metrics(1, 1, 0, 0)
  {
    var ops := [GetOp(false, true), PutOp, GetOp(false, true)];
    var a0 := FreshAccounting(1);
    var a1 := Step(a0, ops[0]);
    assert a1 == Accounting(1, 0, 1, Metrics(1, 0, 0, 0));
    var a2 := Step(a1, ops[1]);
    assert a2 == Accounting(1, 1, 0, Metrics(1, 0, 0, 0));
    var a3 := Step(a2, ops[2]);
    assert a3 == Accounting(1, 0, 1, Metrics(1, 1, 0, 0));
    assert ops[1..][1..] == [ops[2]] && [ops[2]][1..] == [];
    assert Run(a3, []) == a3;
    assert Runnable(a2, [ops[2]]) && Run(a2, [ops[2]]) == a3;
    assert Runnable(a1, ops[1..]) && Run(a1, ops[1..]) == a3;
  }

  /** A full pool with nothing idle and an expired context counts one timeout. */
  lemma ExpiredContextTimesOut(a: Accounting)
    requires Sound(a) && a.idle == 0 && a.active == a.maxSize
    ensures Step(a, GetOp(true, true)).metrics == a.metrics.(timeouts := a.metrics.timeouts + 1)
    ensures Step(a, GetOp(true, true)).active == a.active
  {
  }

  // ---------------------------------------------------------------------------------------
  // The pool
  // ---------------------------------------------------------------------------------------

  /** What the pool's `initFn` does on a call: build a runtime with these bindings, or fail. */
  datatype InitResult = Created(bindings: map<string, Value>) | InitFailed(err: Error)

  datatype Context = Live | Cancelled | DeadlineExceeded {
    predicate Done() { !Live? }

    /** `ctx.Err()` once the context is done. */
    function Err(): Error
      requires Done()
    {
      if Cancelled? then Plain("context canceled") else Plain("context deadline exceeded")
    }
  }

  datatype Acquire = Acquired(runtime: Runtime) | AcquireFailed(err: Error)

  class Pool {
    const maxSize: nat
    /** The initialiser, as a function of how many times it was called before. */
    const initFn: nat -> InitResult
    /** The buffered channel of idle runtimes, oldest first. */
    var idle: seq<Runtime>
    var active: int
    var created: nat
    var reused: nat
    var errors: nat
    var timeouts: nat
    /** Whether the channel has been closed by `Cleanup`. */
    var closed: bool
    /** The runtimes handed out and not yet returned. */
    ghost var checkedOut: set<Runtime>

    ghost function View(): Accounting
      reads this
    {
      Accounting(maxSize, |idle|, active, Metrics(created, reused, errors, timeouts))
    }

    ghost predicate Valid()
      reads this, idle
    {
      && active == |checkedOut|
      && |idle| + active <= maxSize
      && (forall i, j :: 0 <= i < j < |idle| ==> idle[i] != idle[j])
      && (forall i :: 0 <= i < |idle| ==> idle[i] !in checkedOut && !idle[i].interrupted)
      && (closed ==> idle == [])
    }

    lemma ValidIsSound()
      requires Valid()
      ensures Sound(View())
    {
    }

    /** NewPool. */
    constructor (maxSize: nat, initFn: nat -> InitResult)
      ensures Valid() && !closed && checkedOut == {} && idle == []
      ensures this.maxSize == maxSize && this.initFn == initFn
      ensures View() == FreshAccounting(maxSize)
    {
      this.maxSize := maxSize;
      this.initFn := initFn;
      idle := [];
      active := 0;
      created, reused, errors, timeouts := 0, 0, 0, 0;
      closed := false;
      checkedOut := {};
    }

    method Get(ctx: Context) returns (r: Acquire)
      requires Valid() && !closed
      requires |idle| == 0 && active >= maxSize ==> ctx.Done()
      modifies this
      ensures Valid() && !closed
      ensures View() == Step(old(View()), GetOp(ctx.Done(), initFn(old(created + errors)).Created?))
      ensures old(|idle|) > 0 ==> r == Acquired(old(idle[0])) && idle == old(idle[1..])
      ensures old(|idle|) == 0 && old(active) >= maxSize ==>
                r == AcquireFailed(ctx.Err()) && idle == old(idle) && checkedOut == old(checkedOut)
      ensures old(|idle|) == 0 && old(active) < maxSize ==>
                idle == old(idle) &&
                match initFn(old(created + errors))
                case Created(bindings) => r.Acquired? && fresh(r.runtime) && r.runtime.globals == bindings
                case InitFailed(e) => r == AcquireFailed(e) && checkedOut == old(checkedOut)
      ensures r.Acquired? ==>
                !r.runtime.interrupted && r.runtime !in old(checkedOut) &&
                checkedOut == old(checkedOut) + {r.runtime}
    {
      if |idle| > 0 {
        var rt := idle[0];
        idle := idle[1..];
        reused := reused + 1;
        active := active + 1;
        checkedOut := checkedOut + {rt};
        return Acquired(rt);
      }
      if active >= maxSize {
        // Waiting for a runtime: sequentially, only the context can end the wait.
        timeouts := timeouts + 1;
        return AcquireFailed(ctx.Err());
      }
      // Slot reserved.
      active := active + 1;
      match initFn(created + errors)
      case InitFailed(e) =>
        errors := errors + 1;
        active := active - 1;
        r := AcquireFailed(e);
      case Created(bindings) =>
        var rt := new Runtime(bindings);
        created := created + 1;
        checkedOut := checkedOut + {rt};
        r := Acquired(rt);
    }

    method Put(rt: Runtime?)
      requires Valid() && !closed
      requires rt != null ==> rt in checkedOut
      modifies this, rt
      ensures Valid() && !closed
      ensures rt == null ==> View() == old(View()) && idle == old(idle) && checkedOut == old(checkedOut)
      ensures rt != null ==>
                View() == Step(old(View()), PutOp) &&
                !rt.interrupted && rt.globals == old(rt.globals) &&
                checkedOut == old(checkedOut) - {rt} &&
                idle == (if old(|idle|) < maxSize then old(idle) + [rt] else old(idle))
      ensures rt != null ==> idle == old(idle) + [rt]
    {
      if rt == null {
        return;
      }
      rt.ClearInterrupt();
      active := active - 1;
      checkedOut := checkedOut - {rt};
      if |idle| < maxSize {
        idle := idle + [rt];
      }
      // otherwise the pool is full and the runtime is discarded
    }

    method Cleanup()
      requires !closed
      modifies this, idle
      ensures closed && idle == [] && checkedOut == old(checkedOut)
      ensures View() == old(View()).(idle := 0)
      ensures forall r :: r in old(idle) ==> !r.interrupted && r.globals == old(r.globals)
      ensures old(Valid()) ==> Valid()
    {
      closed := true;
      ghost var drained := idle;
      while idle != []
        invariant |idle| <= |drained| && idle == drained[|drained| - |idle|..]
        invariant forall i :: 0 <= i < |drained| - |idle| ==> !drained[i].interrupted
        invariant forall r :: r in drained ==> r.globals == old(r.globals)
        invariant closed && checkedOut == old(checkedOut) && active == old(active)
        invariant created == old(created) && reused == old(reused)
        invariant errors == old(errors) && timeouts == old(timeouts)
      {
        var rt := idle[0];
        idle := idle[1..];
        rt.ClearInterrupt();
      }
    }

    method Stats() returns (s: map<string, int>)
      ensures s.Keys == {"created", "reused", "errors", "timeouts"}
      ensures s["created"] == created && s["reused"] == reused
      ensures s["errors"] == errors && s["timeouts"] == timeouts
    {
      s := map["created" := created, "reused" := reused, "errors" := errors, "timeouts" := timeouts];
    }
  }

  // ---------------------------------------------------------------------------------------
  // The registry
  // ---------------------------------------------------------------------------------------

  class Manager {
    const maxPerExt: nat
    var pools: map<string, Pool>

    /** Every registered pool is valid and open, has the manager's capacity and belongs to one
        ID only. */
    ghost predicate Valid()
      reads this, pools.Values, IdleRuntimes()
    {
      && (forall p :: p in pools.Values ==>
            (assert forall r :: r in p.idle ==> r in IdleRuntimes(); p.Valid()))
      && (forall id :: id in pools ==> !pools[id].closed && pools[id].maxSize == maxPerExt)
      && (forall a, b :: a in pools && b in pools && a != b ==> pools[a] != pools[b])
    }

    ghost function IdleRuntimes(): set<Runtime>
      reads this, pools.Values
    {
      IdleOf(pools.Values)
    }

    /** NewManager. */
    constructor (maxPerExt: nat)
      ensures Valid() && pools == map[] && this.maxPerExt == maxPerExt
    {
      this.maxPerExt := maxPerExt;
      pools := map[];
    }

    method GetOrCreatePool(extID: string, initFn: nat -> InitResult) returns (pool: Pool, err: Option<Error>)
      requires Valid()
      modifies this
      ensures Valid() && err == None && extID in pools && pools[extID] == pool
      ensures pool.Valid() && !pool.closed && pool.maxSize == maxPerExt
      ensures extID in old(pools) ==> pool == old(pools[extID]) && pools == old(pools)
      ensures extID !in old(pools) ==>
                fresh(pool) && pools == old(pools)[extID := pool] &&
                pool.Valid() && !pool.closed && pool.idle == [] && pool.checkedOut == {} &&
                pool.initFn == initFn && pool.View() == FreshAccounting(maxPerExt)
    {
      // The read-locked lookup and the check repeated under the write lock are one lookup when
      // nothing runs in between.
      if extID in pools {
        return pools[extID], None;
      }
      pool := new Pool(maxPerExt, initFn);
      pools := pools[extID := pool];
      err := None;
    }

    method Cleanup()
      requires Valid()
      modifies this, pools.Values, IdleRuntimes()
      ensures Valid() && pools == map[]
      ensures forall p :: p in old(pools.Values) ==>
                p.closed && p.idle == [] && p.checkedOut == old(p.checkedOut) &&
                p.View() == old(p.View()).(idle := 0)
      ensures forall p, r :: p in old(pools.Values) && r in old(p.idle) ==> !r.interrupted
    {
      CleanupPools(pools.Values);
      pools := map[];
    }
  }

  /** The runtimes idle in the pools of `all`. */
  ghost function IdleOf(all: set<Pool>): set<Runtime>
    reads all
  {
    set p, r | p in all && r in p.idle :: r
  }

  /** Cleans up each pool of `all` in turn. */
  method CleanupPools(all: set<Pool>)
    requires forall p :: p in all ==> !p.closed
    modifies all, IdleOf(all)
    ensures forall p :: p in all ==>
              p.closed && p.idle == [] && p.checkedOut == old(p.checkedOut) &&
              p.View() == old(p.View()).(idle := 0)
    ensures forall p, r :: p in all && r in old(p.idle) ==> !r.interrupted
  {
    var rest := all;
    while rest != {}
      invariant rest <= all
      invariant forall p :: p in rest ==>
                  !p.closed && p.idle == old(p.idle) && p.checkedOut == old(p.checkedOut) &&
                  p.View() == old(p.View())
      invariant forall p :: p in all - rest ==>
                  p.closed && p.idle == [] && p.checkedOut == old(p.checkedOut) &&
                  p.View() == old(p.View()).(idle := 0)
      invariant forall p, r :: p in all - rest && r in old(p.idle) ==> !r.interrupted
      decreases rest
    {
      var p :| p in rest;
      assert forall r :: r in p.idle ==> r in old(IdleOf(all));
      p.Cleanup();
      rest := rest - {p};
    }
  }
}
