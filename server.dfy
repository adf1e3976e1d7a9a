/**
 * The server: a router and a pool of workers built from a private copy of the
 * startup info. The router, the workers and the crypto module are external
 * collaborators; each call the server makes to them is appended to the ghost
 * log of a `Collaborators` object, and its `outcomes` say which calls fail.
 */
module Server {
  import opened Wrappers
  import opened Lifecycle
  import opened StartupInfo

  /** A router, and the startup info whose `routerInfo` it was created from. */
  datatype RouterHandle = RouterHandle(config: ServerStartupInfo)

  /** A worker, and the record (`configs[index]`) it was created from. */
  datatype WorkerHandle = WorkerHandle(configs: array?<WorkerStartupInfo>, index: nat)

  /** One entry of the `Worker **` array: never written since `malloc`, NULL,
      or a worker. */
  datatype Slot = Unset | Null | Live(worker: WorkerHandle)

  /** Slot j after worker creation stopped at index `stop`: created below it,
      NULL at it (the failed `workerNew` result is stored), untouched above. */
  function SlotAfterInit(configs: array?<WorkerStartupInfo>, j: nat, stop: int): (slot: Slot) {
    if j < stop then Live(WorkerHandle(configs, j)) else if j == stop then Null else Unset
  }

  /** After worker creation stopped at `stop`, the first `count` slots have all
      been written exactly when `count <= stop + 1`. */
  lemma SlotsWritten(configs: array?<WorkerStartupInfo>, n: nat, stop: int, count: nat)
    requires -1 <= stop <= n
    ensures (count <= n && forall j :: 0 <= j < count ==> !SlotAfterInit(configs, j, stop).Unset?)
        <==> count <= n && count <= stop + 1
  {
    if count <= n && count > stop + 1 {
      assert SlotAfterInit(configs, stop + 1, stop).Unset?;
    }
  }

  /** The crypto module, router and worker implementations as seen from the
      server: what they answer, and the calls made to them so far. */
  class Collaborators {
    const outcomes: Outcomes
    ghost var calls: seq<Event>

    constructor (outcomes: Outcomes)
      ensures this.outcomes == outcomes && calls == []
    {
      this.outcomes := outcomes;
      calls := [];
    }
  }

  class Server {
    var router: Option<RouterHandle>
    var workers: array?<Slot>
    /** The embedded `ServerStartupInfo`: the server's private copy. */
    const info: ServerStartupInfo

    /** A `calloc`ed server: no router, no worker array, a zeroed startup info. */
    constructor Zeroed()
      ensures router == None && workers == null && fresh(info)
    {
      router := None;
      workers := null;
      info := new ServerStartupInfo.Zeroed();
    }

    /** serverFree may run: every one of the `workersInfoCount` slots it passes
        to `workerDestroy` exists and was written. */
    ghost predicate TeardownSafe()
      reads this, workers, info
    {
      info.workersInfoCount == 0
      || (workers != null && info.workersInfoCount <= workers.Length
          && forall j :: 0 <= j < info.workersInfoCount ==> !workers[j].Unset?)
    }

    /** A fully initialised server: a router and a worker in each of the
        `workersCount` slots. */
    ghost predicate Ready()
      reads this, workers, info
    {
      router.Some? && workers != null && workers.Length == info.routerInfo.workersCount
      && forall j :: 0 <= j < workers.Length ==> workers[j].Live?
    }

    /** The router and worker array as serverInit leaves them when its step
        at position `k` of `InitPlan` failed (`k == |InitPlan(n)|`: none failed). */
    ghost predicate BuiltUpTo(config: ServerStartupInfo, k: nat)
      reads this, workers, config
    {
      && (router.Some? <==> k > 2)
      && (router.Some? ==> router == Some(RouterHandle(config)))
      && (workers != null <==> k > 3)
      && (workers != null ==>
            workers.Length == config.routerInfo.workersCount
            && forall j :: 0 <= j < workers.Length ==> workers[j] == SlotAfterInit(config.workersInfo, j, k - 4))
    }

    /**
     * serverInit. Steps run in the order of `InitPlan` and stop at the first
     * failure. The array is sized by the caller's `routerInfo.workersCount` and
     * the router and workers are created from the caller's `config`, not from
     * the private copy. Whether teardown is then safe is `TeardownAfterInit`.
     */
    method Init(config: ServerStartupInfo, ext: Collaborators) returns (ok: bool)
      requires config != info
      requires Covers(config.workersInfo, config.workersInfoCount)
      requires Covers(config.workersInfo, config.routerInfo.workersCount)
      requires router == None && workers == null
      modifies this, info, ext
      ensures ok == Succeeds(InitPlan(config.routerInfo.workersCount), ext.outcomes)
      ensures ext.calls == old(ext.calls) + Attempted(InitPlan(config.routerInfo.workersCount), ext.outcomes)
      ensures info.routerInfo == config.routerInfo && info.serverType == config.serverType
      ensures info.workersInfoCount == config.workersInfoCount && info.output == config.output
      ensures info.workersInfo != null && fresh(info.workersInfo)
      ensures info.workersInfo[..] == Records(config.workersInfo, config.workersInfoCount)
      ensures BuiltUpTo(config, FirstFailure(InitPlan(config.routerInfo.workersCount), ext.outcomes, 0))
      ensures workers != null ==> fresh(workers)
    {
      ghost var plan := InitPlan(config.routerInfo.workersCount);
      ghost var o := ext.outcomes;

      // The private copy; serverStartupInfoInit always reports success.
      assert plan[0] == CopyStartupInfo;
      ext.calls := ext.calls + [CopyStartupInfo];
      var copied := info.Init(config.serverType, config.routerInfo, config.workersInfo,
                              config.workersInfoCount, config.output);

      ok := CreateComponents(config, ext, plan);

      ghost var k := FirstFailure(plan, o, 0);
      assert k == FirstFailure(plan, o, 1);
      if k < |plan| {
        assert plan[..k + 1] == [plan[0]] + plan[1..k + 1];
      } else {
        assert plan == [plan[0]] + plan[1..];
      }
    }

    /** TeardownSafe holds of the state serverInit leaves exactly when
        TeardownSafeAfterInit holds of the outcomes. */
    lemma TeardownAfterInit(config: ServerStartupInfo, o: Outcomes)
      requires info.workersInfoCount == config.workersInfoCount
      requires BuiltUpTo(config, FirstFailure(InitPlan(config.routerInfo.workersCount), o, 0))
      ensures TeardownSafe() <==> TeardownSafeAfterInit(o, config.routerInfo.workersCount, config.workersInfoCount)
    {
      var n := config.routerInfo.workersCount;
      var k := FirstFailure(InitPlan(n), o, 0);
      if k > 3 {
        var count := config.workersInfoCount;
        var stop := k - 4;
        SlotsWritten(config.workersInfo, n, stop, count);
        assert workers != null && workers.Length == n;
        assert forall j :: 0 <= j < n ==> workers[j] == SlotAfterInit(config.workersInfo, j, stop);
        if count <= n {
          assert (forall j :: 0 <= j < count ==> !workers[j].Unset?)
             <==> (forall j :: 0 <= j < count ==> !SlotAfterInit(config.workersInfo, j, stop).Unset?);
        }
      }
    }

    /** A fully built server may be torn down exactly when `serverFree`'s
        count, `workersInfoCount`, does not exceed the number of workers built. */
    lemma ReadyTeardownSafe()
      requires Ready()
      ensures TeardownSafe() <==> info.workersInfoCount <= info.routerInfo.workersCount
    {
    }

    /** serverInit after the copy: crypto, then the router, then the workers. */
    method CreateComponents(config: ServerStartupInfo, ext: Collaborators, ghost plan: seq<Event>) returns (ok: bool)
      requires plan == InitPlan(config.routerInfo.workersCount)
      requires router == None && workers == null
      modifies this, ext
      ensures var k := FirstFailure(plan, ext.outcomes, 1);
        && ok == (k == |plan|)
        && ext.calls == old(ext.calls) + (if k < |plan| then plan[1..k + 1] else plan[1..])
        && BuiltUpTo(config, k)
      ensures workers != null ==> fresh(workers)
    {
      ghost var o := ext.outcomes;
      assert plan[1] == CryptoInit && plan[2] == RouterNew;

      ext.calls := ext.calls + [CryptoInit];
      if !ext.outcomes.cryptoOk {
        assert FirstFailure(plan, o, 1) == 1;
        return false;
      }
      assert FirstFailure(plan, o, 1) == FirstFailure(plan, o, 2);

      ext.calls := ext.calls + [RouterNew];
      if !ext.outcomes.routerNewOk {
        assert FirstFailure(plan, o, 1) == 2;
        assert ext.calls == old(ext.calls) + plan[1..3];
        return false;
      }
      router := Some(RouterHandle(config));
      assert FirstFailure(plan, o, 2) == FirstFailure(plan, o, 3);

      ok := AllocateWorkers(config, ext, plan);
      ghost var k := FirstFailure(plan, o, 3);
      if k < |plan| {
        assert plan[1..k + 1] == plan[1..3] + plan[3..k + 1];
      } else {
        assert plan[1..] == plan[1..3] + plan[3..];
      }
    }

    /** serverInit's worker array: allocated with `workersCount` slots, then
        filled by `CreateWorkers`. */
    method AllocateWorkers(config: ServerStartupInfo, ext: Collaborators, ghost plan: seq<Event>) returns (ok: bool)
      requires plan == InitPlan(config.routerInfo.workersCount)
      requires workers == null
      modifies this`workers, ext
      ensures var k := FirstFailure(plan, ext.outcomes, 3);
        && ok == (k == |plan|)
        && ext.calls == old(ext.calls) + (if k < |plan| then plan[3..k + 1] else plan[3..])
        && (workers != null <==> k > 3)
        && (workers != null ==>
              fresh(workers) && workers.Length == config.routerInfo.workersCount
              && forall j :: 0 <= j < workers.Length ==> workers[j] == SlotAfterInit(config.workersInfo, j, k - 4))
    {
      var n := config.routerInfo.workersCount;
      ghost var o := ext.outcomes;
      assert plan[3] == WorkersAlloc;
      ext.calls := ext.calls + [WorkersAlloc];
      if !ext.outcomes.workersAllocOk {
        assert FirstFailure(plan, o, 3) == 3;
        return false;
      }
      assert FirstFailure(plan, o, 3) == FirstFailure(plan, o, 4);
      var slots := new Slot[n](_ => Unset);
      workers := slots;
      ok := CreateWorkers(config, slots, ext, plan);
      ghost var k := FirstFailure(plan, o, 4);
      if k < |plan| {
        assert plan[3..k + 1] == [plan[3]] + plan[4..k + 1];
      } else {
        assert plan[3..] == [plan[3]] + plan[4..];
      }
    }

    /** The loop of serverInit: `workerNew` for slots 0..n-1 in order, storing
        each result, until one fails. */
    method CreateWorkers(config: ServerStartupInfo, slots: array<Slot>, ext: Collaborators, ghost plan: seq<Event>)
        returns (ok: bool)
      requires slots.Length == config.routerInfo.workersCount
      requires plan == InitPlan(slots.Length)
      requires forall j :: 0 <= j < slots.Length ==> slots[j] == Unset
      modifies slots, ext
      ensures var k := FirstFailure(plan, ext.outcomes, 4);
        && ok == (k == |plan|)
        && ext.calls == old(ext.calls) + (if k < |plan| then plan[4..k + 1] else plan[4..])
        && forall j :: 0 <= j < slots.Length ==> slots[j] == SlotAfterInit(config.workersInfo, j, k - 4)
    {
      var n := slots.Length;
      ghost var o := ext.outcomes;
      var i := 0;
      while i < n
        invariant 0 <= i <= n
        invariant forall j :: 0 <= j < n ==> slots[j] == SlotAfterInit(config.workersInfo, j, if j < i then n else i - 1)
        invariant ext.calls == old(ext.calls) + plan[4..4 + i]
        invariant FirstFailure(plan, o, 4) == FirstFailure(plan, o, 4 + i)
      {
        assert plan[4 + i] == WorkerNew(i);
        ext.calls := ext.calls + [WorkerNew(i)];
        if i in ext.outcomes.workerNewFails {
          slots[i] := Null;
          assert ext.calls == old(ext.calls) + plan[4..4 + i + 1];
          return false;
        }
        slots[i] := Live(WorkerHandle(config.workersInfo, i));
        i := i + 1;
      }
      ok := true;
    }

    /** serverStart: workers 0..n-1 in order, stopping at the first that fails,
        then the router. */
    method Start(ext: Collaborators) returns (ok: bool)
      requires Ready()
      modifies ext
      ensures ok == Succeeds(StartPlan(info.routerInfo.workersCount), ext.outcomes)
      ensures ext.calls == old(ext.calls) + Attempted(StartPlan(info.routerInfo.workersCount), ext.outcomes)
    {
      var n := info.routerInfo.workersCount;
      ghost var plan := StartPlan(n);
      ghost var o := ext.outcomes;

      var i := 0;
      while i < n
        invariant 0 <= i <= n
        invariant ext.calls == old(ext.calls) + plan[..i]
        invariant FirstFailure(plan, o, 0) == FirstFailure(plan, o, i)
      {
        assert plan[i] == WorkerStart(i);
        ext.calls := ext.calls + [WorkerStart(i)];
        if i in ext.outcomes.workerStartFails {
          assert ext.calls == old(ext.calls) + plan[..i + 1];
          return false;
        }
        i := i + 1;
      }

      assert plan[n] == RouterStart;
      ext.calls := ext.calls + [RouterStart];
      assert ext.calls == old(ext.calls) + plan[..n + 1];
      if !ext.outcomes.routerStartOk {
        return false;
      }
      assert plan[..n + 1] == plan;
      ok := true;
    }

    /** serverGetRouterId: the router id of the private copy; nothing changes. */
    method GetRouterId() returns (id: u16)
      ensures id == info.routerInfo.routerId
    {
      id := info.routerInfo.routerId;
    }

    /**
     * serverFree: `workerDestroy` on slots 0..workersInfoCount-1 in order, which
     * leaves each NULL, then `routerDestroy`. Slots at or above
     * `workersInfoCount` are left as they are.
     */
    method Free(ext: Collaborators)
      requires TeardownSafe()
      modifies this, workers, ext
      ensures router == None && workers == old(workers)
      ensures ext.calls == old(ext.calls) + FreePlan(info.workersInfoCount)
      ensures workers != null ==> forall j :: 0 <= j < workers.Length ==>
        workers[j] == (if j < info.workersInfoCount then Null else old(workers[j]))
    {
      var count := info.workersInfoCount;
      ghost var plan := FreePlan(count);
      var i := 0;
      while i < count
        modifies workers, ext
        invariant 0 <= i <= count
        invariant ext.calls == old(ext.calls) + plan[..i]
        invariant workers != null ==> forall j :: 0 <= j < workers.Length ==>
          workers[j] == (if j < i then Null else old(workers[j]))
      {
        assert plan[i] == WorkerDestroy(i);
        ext.calls := ext.calls + [WorkerDestroy(i)];
        workers[i] := Null;
        i := i + 1;
      }
      assert plan[count] == RouterDestroy;
      ext.calls := ext.calls + [RouterDestroy];
      assert plan[..count + 1] == plan;
      router := None;
    }

    /** serverDestroy: frees a non-NULL server; the caller's pointer is NULL
        afterwards, so destroying it again does nothing. */
    static method Destroy(s: Server?, ext: Collaborators) returns (r: Server?)
      requires s != null ==> s.TeardownSafe()
      modifies ext, s, if s != null then {s.workers} else {}
      ensures r == null
      ensures s == null ==> ext.calls == old(ext.calls)
      ensures s != null ==> ext.calls == old(ext.calls) + FreePlan(s.info.workersInfoCount) && s.router == None
    {
      if s != null {
        s.Free(ext);
      }
      r := null;
    }

    /**
     * serverNew: a server is returned only when allocation and init succeed;
     * after a failed init it is destroyed and NULL is returned. That teardown
     * is memory-safe only under `TeardownSafeAfterInit`, which is required.
     */
    static method New(config: ServerStartupInfo, ext: Collaborators) returns (s: Server?)
      requires Covers(config.workersInfo, config.workersInfoCount)
      requires Covers(config.workersInfo, config.routerInfo.workersCount)
      requires ext.outcomes.serverAllocOk && !Succeeds(InitPlan(config.routerInfo.workersCount), ext.outcomes) ==>
        TeardownSafeAfterInit(ext.outcomes, config.routerInfo.workersCount, config.workersInfoCount)
      modifies ext
      ensures s != null <==> ext.outcomes.serverAllocOk && Succeeds(InitPlan(config.routerInfo.workersCount), ext.outcomes)
      ensures ext.calls == old(ext.calls)
        + CreateCalls(ext.outcomes, config.routerInfo.workersCount, config.workersInfoCount)
      ensures s != null ==>
        && fresh(s) && fresh(s.info) && s.workers != null && fresh(s.workers)
        && s.info.workersInfo != null && fresh(s.info.workersInfo)
        && s.Ready()
        && s.router == Some(RouterHandle(config))
        && (forall j :: 0 <= j < s.workers.Length ==> s.workers[j] == Live(WorkerHandle(config.workersInfo, j)))
        && s.info.routerInfo == config.routerInfo && s.info.serverType == config.serverType
        && s.info.workersInfo[..] == Records(config.workersInfo, config.workersInfoCount)
        && s.info.output == config.output
        && s.info.workersInfoCount == config.workersInfoCount
      ensures s != null ==>
        (s.TeardownSafe() <==> config.workersInfoCount <= config.routerInfo.workersCount)
    {
      if !ext.outcomes.serverAllocOk {
        return null;
      }
      s := new Server.Zeroed();
      var ok := s.Init(config, ext);
      if !ok {
        s.TeardownAfterInit(config, ext.outcomes);
        s := Destroy(s, ext);
        return null;
      }
      s.ReadyTeardownSafe();
    }
  }
}
