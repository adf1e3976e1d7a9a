/**
 * The order in which the server calls its collaborators (crypto module,
 * router, workers) and what those calls report. Each call the server makes is
 * an `Event`; `Outcomes` says which calls fail. The init and start sequences
 * are fixed plans run until their first failing step.
 */
module Lifecycle {

  datatype Event =
    | CopyStartupInfo
    | CryptoInit
    | RouterNew
    | WorkersAlloc
    | WorkerNew(index: nat)
    | WorkerStart(index: nat)
    | RouterStart
    | WorkerDestroy(index: nat)
    | RouterDestroy

  /** What the collaborators answer: the allocations of the server and of its
      worker array, `cryptoInit`, `routerNew`, `routerStart`, and the indices at
      which `workerNew` or `workerStart` fail. */
  datatype Outcomes = Outcomes(
    serverAllocOk: bool,
    cryptoOk: bool,
    routerNewOk: bool,
    workersAllocOk: bool,
    workerNewFails: set<nat>,
    workerStartFails: set<nat>,
    routerStartOk: bool)

  /** Whether the call `e` reports failure. The copy of the startup info and the
      destroy calls cannot fail. */
  predicate Fails(o: Outcomes, e: Event) {
    match e
    case CopyStartupInfo => false
    case CryptoInit => !o.cryptoOk
    case RouterNew => !o.routerNewOk
    case WorkersAlloc => !o.workersAllocOk
    case WorkerNew(i) => i in o.workerNewFails
    case WorkerStart(i) => i in o.workerStartFails
    case RouterStart => !o.routerStartOk
    case WorkerDestroy(_) => false
    case RouterDestroy => false
  }

  /** The position of the first failing step of `plan` at or after `from`, or
      `|plan|` when none fails (the steps themselves are `FirstFailureSpec`). */
  function FirstFailure(plan: seq<Event>, o: Outcomes, from: nat): (p: nat)
    requires from <= |plan|
    ensures from <= p <= |plan|
    decreases |plan| - from
  {
    if from == |plan| then from
    else if Fails(o, plan[from]) then from
    else FirstFailure(plan, o, from + 1)
  }

  /** No step from `from` up to the first failure fails, and the step there does. */
  lemma {:induction false} FirstFailureSpec(plan: seq<Event>, o: Outcomes, from: nat)
    requires from <= |plan|
    ensures forall q :: from <= q < FirstFailure(plan, o, from) ==> !Fails(o, plan[q])
    ensures FirstFailure(plan, o, from) < |plan| ==> Fails(o, plan[FirstFailure(plan, o, from)])
    decreases |plan| - from
  {
    if from < |plan| && !Fails(o, plan[from]) {
      FirstFailureSpec(plan, o, from + 1);
    }
  }

  /** The steps of `plan` that are actually performed: all of them up to and
      including the first that fails. */
  function Attempted(plan: seq<Event>, o: Outcomes): (run: seq<Event>) {
    var p := FirstFailure(plan, o, 0);
    if p < |plan| then plan[..p + 1] else plan
  }

  predicate Succeeds(plan: seq<Event>, o: Outcomes) {
    FirstFailure(plan, o, 0) == |plan|
  }

  /** serverInit: copy the startup info, init crypto, create the router,
      allocate the worker array, then create workers 0..n-1. */
  function InitPlan(n: nat): (plan: seq<Event>) {
    [CopyStartupInfo, CryptoInit, RouterNew, WorkersAlloc] + seq(n, j requires 0 <= j => WorkerNew(j))
  }

  /** serverStart: start workers 0..n-1, then the router. */
  function StartPlan(n: nat): (plan: seq<Event>) {
    seq(n, j requires 0 <= j => WorkerStart(j)) + [RouterStart]
  }

  /** serverFree: destroy worker slots 0..count-1, then the router. */
  function FreePlan(count: nat): (plan: seq<Event>) {
    seq(count, j requires 0 <= j => WorkerDestroy(j)) + [RouterDestroy]
  }

  /** The calls serverNew makes: nothing when the server cannot be allocated;
      otherwise init, followed by a full teardown of `count` worker slots when
      init fails. */
  function CreateCalls(o: Outcomes, n: nat, count: nat): (calls: seq<Event>) {
    if !o.serverAllocOk then []
    else if Succeeds(InitPlan(n), o) then InitPlan(n)
    else Attempted(InitPlan(n), o) + FreePlan(count)
  }

  /** Fail-fast: what is attempted is a prefix of the plan; it is the whole plan
      when nothing fails, and the plan succeeds exactly when nothing fails;
      otherwise its last step is the one that failed and every earlier step
      succeeded. */
  lemma FailFast(plan: seq<Event>, o: Outcomes)
    ensures Attempted(plan, o) <= plan
    ensures Succeeds(plan, o) <==> forall q :: 0 <= q < |plan| ==> !Fails(o, plan[q])
    ensures Succeeds(plan, o) ==> Attempted(plan, o) == plan
    ensures !Succeeds(plan, o) ==>
      var run := Attempted(plan, o);
      |run| > 0 && Fails(o, run[|run| - 1]) && forall q :: 0 <= q < |run| - 1 ==> !Fails(o, run[q])
  {
    var p := FirstFailure(plan, o, 0);
    FirstFailureSpec(plan, o, 0);
    if !Succeeds(plan, o) {
      assert !Fails(o, plan[p]) ==> false;
    }
  }

  /** serverInit succeeds exactly when crypto init, router creation, the worker
      array allocation and every one of the n worker creations succeed. */
  lemma InitSucceedsIff(o: Outcomes, n: nat)
    ensures Succeeds(InitPlan(n), o) <==>
      o.cryptoOk && o.routerNewOk && o.workersAllocOk && forall j :: 0 <= j < n ==> j !in o.workerNewFails
  {
    var plan := InitPlan(n);
    FailFast(plan, o);
    if o.cryptoOk && o.routerNewOk && o.workersAllocOk && forall j :: 0 <= j < n ==> j !in o.workerNewFails {
      forall q | 0 <= q < |plan| ensures !Fails(o, plan[q]) {
        if q >= 4 { assert plan[q] == WorkerNew(q - 4); }
      }
    } else if !o.cryptoOk {
      assert Fails(o, plan[1]);
    } else if !o.routerNewOk {
      assert Fails(o, plan[2]);
    } else if !o.workersAllocOk {
      assert Fails(o, plan[3]);
    } else {
      var j :| 0 <= j < n && j in o.workerNewFails;
      assert Fails(o, plan[4 + j]);
    }
  }

  /** Workers are created in index order and creation stops at the first
      failure: worker j is asked for exactly when the earlier steps and the
      creation of workers 0..j-1 all succeeded. */
  lemma InitWorkerAttempted(o: Outcomes, n: nat, j: nat)
    ensures WorkerNew(j) in Attempted(InitPlan(n), o) <==>
      o.cryptoOk && o.routerNewOk && o.workersAllocOk && j < n
      && forall i :: 0 <= i < j ==> i !in o.workerNewFails
  {
    var plan := InitPlan(n);
    var p := FirstFailure(plan, o, 0);
    FirstFailureSpec(plan, o, 0);
    var run := Attempted(plan, o);
    assert forall q :: 4 <= q < |plan| ==> plan[q] == WorkerNew(q - 4);
    assert forall q :: 0 <= q < 4 ==> !plan[q].WorkerNew?;
    if WorkerNew(j) in run {
      var q :| 0 <= q < |run| && run[q] == WorkerNew(j);
      assert plan[q] == WorkerNew(j);
      assert q == 4 + j;
      assert !Fails(o, plan[1]) && !Fails(o, plan[2]) && !Fails(o, plan[3]);
      forall i | 0 <= i < j ensures i !in o.workerNewFails {
        assert !Fails(o, plan[4 + i]);
      }
    }
    if o.cryptoOk && o.routerNewOk && o.workersAllocOk && j < n
       && forall i :: 0 <= i < j ==> i !in o.workerNewFails {
      forall q | 0 <= q < 4 + j ensures !Fails(o, plan[q]) {
        if q >= 4 { assert plan[q] == WorkerNew(q - 4); }
      }
      assert p >= 4 + j;
      assert run[4 + j] == plan[4 + j];
    }
  }

  /** serverStart starts workers in index order and the router last: the router
      is started exactly when every worker start succeeded, and the whole start
      succeeds exactly when, in addition, the router start does. */
  lemma StartRouterLast(o: Outcomes, n: nat)
    ensures RouterStart in Attempted(StartPlan(n), o) <==> forall j :: 0 <= j < n ==> j !in o.workerStartFails
    ensures Succeeds(StartPlan(n), o) <==>
      (forall j :: 0 <= j < n ==> j !in o.workerStartFails) && o.routerStartOk
    ensures RouterStart in Attempted(StartPlan(n), o) ==> Attempted(StartPlan(n), o) == StartPlan(n)
  {
    var plan := StartPlan(n);
    var p := FirstFailure(plan, o, 0);
    FirstFailureSpec(plan, o, 0);
    var run := Attempted(plan, o);
    assert forall q :: 0 <= q < n ==> plan[q] == WorkerStart(q);
    assert plan[n] == RouterStart;
    if RouterStart in run {
      var q :| 0 <= q < |run| && run[q] == RouterStart;
      assert q == n;
      forall j | 0 <= j < n ensures j !in o.workerStartFails {
        assert !Fails(o, plan[j]);
      }
    }
    if forall j :: 0 <= j < n ==> j !in o.workerStartFails {
      assert forall q :: 0 <= q < n ==> !Fails(o, plan[q]);
      assert p >= n;
      assert run[n] == RouterStart;
    } else {
      var j :| 0 <= j < n && j in o.workerStartFails;
      assert Fails(o, plan[j]);
    }
  }

  /** Worker j is started exactly when j < n and workers 0..j-1 started. */
  lemma StartWorkerAttempted(o: Outcomes, n: nat, j: nat)
    ensures WorkerStart(j) in Attempted(StartPlan(n), o) <==>
      j < n && forall i :: 0 <= i < j ==> i !in o.workerStartFails
  {
    var plan := StartPlan(n);
    var p := FirstFailure(plan, o, 0);
    FirstFailureSpec(plan, o, 0);
    var run := Attempted(plan, o);
    assert forall q :: 0 <= q < n ==> plan[q] == WorkerStart(q);
    assert plan[n] == RouterStart;
    if WorkerStart(j) in run {
      var q :| 0 <= q < |run| && run[q] == WorkerStart(j);
      assert q == j;
      forall i | 0 <= i < j ensures i !in o.workerStartFails {
        assert !Fails(o, plan[i]);
      }
    }
    if j < n && forall i :: 0 <= i < j ==> i !in o.workerStartFails {
      assert forall q :: 0 <= q < j ==> !Fails(o, plan[q]);
      assert p >= j;
      assert run[j] == plan[j];
    }
  }

  /**
   * Whether serverFree may run after serverInit: it destroys `count` slots
   * (`workersInfoCount`) of the worker array. When crypto, router or array
   * allocation failed the array is NULL, so only count 0 is safe. After worker
   * creation stopped at index k, slots 0..k hold a worker or NULL and the rest
   * were never written. A successful init wrote all n slots.
   */
  predicate TeardownSafeAfterInit(o: Outcomes, n: nat, count: nat) {
    var k := FirstFailure(InitPlan(n), o, 0);
    count == 0 || (k > 3 && count <= n && count <= k - 3)
  }

  /**
   * With the two counts equal (count == n > 0), the teardown that serverNew
   * performs after a failed init is safe only when the failure was at the very
   * last worker: a failure at crypto, router, array allocation or any earlier
   * worker leaves slots that serverFree must not touch.
   */
  lemma TeardownSafeWhenCountsAgree(o: Outcomes, n: nat)
    requires n > 0
    ensures !Succeeds(InitPlan(n), o) ==>
      (TeardownSafeAfterInit(o, n, n) <==>
        (o.cryptoOk && o.routerNewOk && o.workersAllocOk
         && (forall j :: 0 <= j < n - 1 ==> j !in o.workerNewFails) && n - 1 in o.workerNewFails))
  {
    var plan := InitPlan(n);
    var k := FirstFailure(plan, o, 0);
    FirstFailureSpec(plan, o, 0);
    assert forall q :: 4 <= q < |plan| ==> plan[q] == WorkerNew(q - 4);
    if !Succeeds(plan, o) {
      if TeardownSafeAfterInit(o, n, n) {
        assert k == n + 3;
        assert !Fails(o, plan[1]) && !Fails(o, plan[2]) && !Fails(o, plan[3]);
        forall j | 0 <= j < n - 1 ensures j !in o.workerNewFails {
          assert !Fails(o, plan[4 + j]);
        }
        assert Fails(o, plan[n + 3]);
      }
      if o.cryptoOk && o.routerNewOk && o.workersAllocOk
         && (forall j :: 0 <= j < n - 1 ==> j !in o.workerNewFails) && n - 1 in o.workerNewFails {
        forall q | 0 <= q < n + 3 ensures !Fails(o, plan[q]) {
          if q >= 4 { assert plan[q] == WorkerNew(q - 4); }
        }
        assert k >= n + 3;
      }
    }
  }
}
