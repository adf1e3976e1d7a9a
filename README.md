# Server supervisor model

A Dafny model of the server supervisor of the r1emu cluster
(`src/common/server/server.c`). A server owns a router and a pool of workers.
It keeps a private copy of its startup info (`ServerStartupInfo`). It brings
itself up in a fixed order: copy the startup info, initialise the crypto
module, create the router, allocate the worker array, create the workers.
It starts the workers before the router. It tears everything down on failure.
The same file also builds the argument list used to launch a sibling server
executable.

Modules:

- `Wrappers` (wrappers.dfy): `Option`.
- `Text` (text.dfy): `%d` rendering of integers and parsing them back; the
  single-space joining that the `"%s %d %s ..."` formats produce; a
  strtok-style `Split`. Also the join/split round trip.
- `StartupInfo` (startup_info.dfy): the router, worker, SQL and redis
  records, and the class `ServerStartupInfo`. Its `Init` is
  `serverStartupInfoInit`: a loop that copies the worker records into a fresh
  array.
- `Lifecycle` (lifecycle.dfy): every call the server makes to a collaborator
  is an `Event`. `Outcomes` is the oracle saying which calls fail.
  `InitPlan`, `StartPlan` and `FreePlan` are the fixed call orders.
  `Attempted` gives the prefix of a plan that runs up to and including its
  first failure. The lemmas state the ordering and short-circuit properties.
- `Launcher` (launcher.dfy): the 15 launch tokens, the command line built by
  the two formats, the POSIX argument vector, and a positional decoder for
  the receiving executable. Round-trip lemmas tie these together.
- `Server` (server.dfy): the class `Server`. The router is an
  `Option<RouterHandle>`. The worker array is an `array?<Slot>`, where a slot
  is `Unset` (uninitialised `malloc` memory), `Null` or `Live(handle)`. Every
  call to the crypto module, the router or a worker is appended to the ghost
  log `calls` of a `Collaborators` object, whose `outcomes` decide the
  results.

What the code does where one might expect otherwise, and the model follows:

- `serverInit` calls the snapshot a private copy (server.c:67), and the worker
  records are copied by value (server.c:123-126). `output`, however, is
  copied as a pointer (server.c:130). `ServerStartupInfo.Init` ensures
  `this.output == output`, the same buffer.
- The router and workers are created from the caller's record
  (`&info->routerInfo`, `&info->workersInfo[workerId]`, server.c:87 and :101),
  not from the private copy, and the worker array is sized by the caller's
  `routerInfo.workersCount` (server.c:93). `RouterHandle(config)` and
  `WorkerHandle(config.workersInfo, j)` name the caller's objects.
- `serverNew` tears down a half-initialised server with `serverDestroy`
  (server.c:53-54), but `serverFree` is not safe on every state `serverInit`
  can leave. `TeardownSafe` is a precondition of `Free`.
  `TeardownAfterInit` and `TeardownSafeAfterInit` say exactly when it holds
  after `Init`.
- `serverInit` checks the result of `serverStartupInfoInit` (server.c:68-78),
  but that function always returns true and never checks its `malloc`
  (server.c:123, :132).

Hazards the model makes explicit:

- The worker array is sized and filled by `routerInfo.workersCount`, but
  `serverFree` walks `workersInfoCount` slots. With more slots walked than
  allocated, teardown is unsafe. With fewer, the remaining live workers are
  left alone: `Free` leaves slots at or above `workersInfoCount` unchanged.
- After `workerNew` fails at index k, slots above k are `Unset`.
  `TeardownSafeWhenCountsAgree` shows that, with equal counts, the teardown
  that `serverNew` performs is safe only when the failure was at the last
  worker.
- After a crypto, router or array-allocation failure, `workers` is NULL.
  Teardown is then safe only when `workersInfoCount` is 0.
- `serverNew` therefore carries the precondition that a failed init leaves a
  state `serverFree` may touch.
- An empty string field, such as an empty SQL password, disappears from the
  split command line (`SplitCommandLine`: the vector is the non-empty tokens).
  The positional decoder then rejects it (`EmptyFieldMisalignsArgv`). When it
  is the only empty field, every later argument moves one place
  (`EmptyFieldShiftsArgv`).
- A string field holding a space is split into several arguments, so the
  vector is never the 15 tokens (`SpaceBreaksArgv`).
- `serverCreateProcess` reads `workersInfo[0]` unconditionally
  (server.c:141-144). With `workersInfoCount` 0, the snapshot's array comes
  from `malloc(0)` (server.c:123), and that read is out of bounds.
  `CreateProcess` requires a non-empty worker-record array, which excludes
  this read rather than modelling it.

## Model

| member | source | states |
|---|---|---|
| `StartupInfo.ServerStartupInfo.Init` | src/common/server/server.c:110-133 | always returns true; router record, server type, count equal the arguments; worker records 0..count-1 copied by value into a fresh array of exactly that length; `output` is the same buffer as the caller's (aliased, not copied) |
| `Text.FormatIntRoundTrip` | src/common/server/server.c:150-167 | every integer printed with `%d` parses back to the same value |
| `Text.FormatInt` | src/common/server/server.c:150-167 | a `%d` rendering is never empty and never contains a space, so it survives the split as one argument |
| `Text.JoinNested` | src/common/server/server.c:150-167 | feeding the first format's output into the second format's leading `%s` prints the same string as one space-separated format over all fields |
| `Text.SplitJoin` | src/common/server/server.c:187 | splitting a space-joined list on ' ' returns exactly its non-empty fields, in order, when no field contains a space |
| `Text.SplitJoinRoundTrip` | src/common/server/server.c:187 | when every field is non-empty and space-free, split after join returns the fields unchanged |
| `Launcher.CommandLineIsJoin` | src/common/server/server.c:150-167 | the command line has exactly 15 tokens and is those tokens joined by single spaces |
| `Launcher.SplitCommandLine` | src/common/server/server.c:187 | the POSIX argument vector is the non-empty launch tokens, whatever the field contents, provided no field contains a space |
| `Launcher.ArgvRoundTrip` | src/common/server/server.c:150-187 | when no string field is empty or contains a space, the POSIX argument vector is exactly the 15 tokens |
| `Launcher.LaunchRoundTrip` | src/common/server/server.c:141-167 | the receiving executable decodes, in order: exe (with `.exe` on Windows), router id, ip, port, worker count, then the global-server address, SQL and redis credentials of worker record 0 whatever the worker count, server type and output |
| `Launcher.EmptyFieldMisalignsArgv` | src/common/server/server.c:187 | an empty string field makes the argument vector shorter than 15, and the positional decoder rejects it |
| `Launcher.EmptyFieldShiftsArgv` | src/common/server/server.c:187 | when field k is the only empty field, the argument vector is the other 14 tokens in order, each one after k a place earlier |
| `Text.NonEmptyDropsOne` | src/common/server/server.c:187 | with a single empty field, the split's dropping of empty fields removes exactly that field and keeps the rest in order |
| `Launcher.SpaceBreaksArgv` | src/common/server/server.c:187 | a string field containing a space makes the argument vector differ from the 15 tokens; with `EmptyFieldMisalignsArgv`, this is the converse of `ArgvRoundTrip` |
| `Text.SplitFromNoSep` | src/common/server/server.c:187 | no field produced by splitting on the separator contains the separator |
| `Launcher.CreateProcess` | src/common/server/server.c:136-187 | reads the fields from the startup info and worker record 0 only; POSIX gets `execv` with the split command line, which is the 15 tokens when the fields are tokens; Windows gets `CreateProcess` with `<exe>.exe` and the unsplit command line |
| `Lifecycle.FirstFailureSpec` | src/common/server/server.c:68-105 | no step before the first failing position fails, and the step at that position does |
| `Lifecycle.FailFast` | src/common/server/server.c:68-107 | the attempted calls are a prefix of the plan; they are the whole plan when no step fails, and the plan succeeds exactly when no step fails; otherwise they end with the failing step and no earlier step failed |
| `Lifecycle.InitSucceedsIff` | src/common/server/server.c:62-108 | init succeeds if and only if crypto init, router creation, array allocation and all n worker creations succeed |
| `Lifecycle.InitWorkerAttempted` | src/common/server/server.c:98-105 | `workerNew(j)` is called if and only if the three earlier steps succeeded, j < workersCount, and workers 0..j-1 were created; no index after a failure is tried |
| `Lifecycle.StartRouterLast` | src/common/server/server.c:205-219 | the router is started if and only if every worker start succeeded, and then only as the last call; start succeeds if and only if all worker starts and the router start succeed |
| `Lifecycle.StartWorkerAttempted` | src/common/server/server.c:206-211 | worker j is started if and only if j < workersCount and workers 0..j-1 started |
| `Lifecycle.TeardownSafeWhenCountsAgree` | src/common/server/server.c:229-238 | with equal positive counts and a failed init, serverFree is safe if and only if the failure was `workerNew` of the last worker |
| `Server.Server.Init` | src/common/server/server.c:62-108 | returns true if and only if every init step succeeds; the calls made are exactly the attempted prefix of the init plan; the snapshot holds the caller's values with a fresh worker-record array; router is set from the caller's config iff router creation was reached and succeeded; slots below the failing worker are live, the failing slot is NULL, later slots are never written |
| `Server.Server.CreateComponents` | src/common/server/server.c:80-105 | crypto, then router, then the worker array and workers, stopping at the first failure, with the resulting router and slots |
| `Server.Server.AllocateWorkers` | src/common/server/server.c:92-105 | the worker array exists if and only if allocation succeeded; it then has `workersCount` slots filled by the creation loop |
| `Server.Server.CreateWorkers` | src/common/server/server.c:98-105 | `workerNew` for 0..n-1 in order, each result stored in its slot, stopping at the first failure; the failing slot holds NULL and later slots stay unwritten |
| `Server.Server.TeardownAfterInit` | src/common/server/server.c:229-238 | after init, the slots serverFree would destroy all exist and were written if and only if `TeardownSafeAfterInit` holds of the outcomes and the two counts |
| `Server.SlotsWritten` | src/common/server/server.c:98-104 | after creation stops at index k, the first c slots have all been written if and only if c <= k + 1 |
| `Server.Server.Start` | src/common/server/server.c:201-220 | starts workers 0..n-1 in order, stops at the first failure, and starts the router last; returns true if and only if the whole start plan succeeds |
| `Server.Server.GetRouterId` | src/common/server/server.c:222-227 | returns the router id of the private copy, which init set to the caller's id, and changes nothing |
| `Server.Server.Free` | src/common/server/server.c:229-238 | given TeardownSafe, destroys slots 0..workersInfoCount-1 in order and leaves them NULL, then destroys the router; slots at or above `workersInfoCount` are left as they were |
| `Server.Server.Destroy` | src/common/server/server.c:240-252 | NULL in: nothing happens; otherwise the server is freed; either way the caller's pointer becomes NULL, so a second call does nothing |
| `Server.Server.New` | src/common/server/server.c:43-60 | returns a server if and only if allocation and init succeed; the server returned is fully built, with a router and a live worker in every slot, and a fresh copy of the worker records; on init failure it is torn down and NULL is returned, with the calls made being the attempted init prefix followed by the teardown; the returned server's `workersInfoCount` is the caller's, and it may be destroyed exactly when that count is at most `workersCount` |
| `Server.Server.ReadyTeardownSafe` | src/common/server/server.c:229-238 | on a fully built server, serverFree is safe if and only if `workersInfoCount` is at most the number of worker slots (`workersCount`) |

## Left out

- Process creation (`fork`, `execv`, `CreateProcess`, `FormatMessage`, `GetLastError`) is OS I/O and is not modelled. The launcher stops at the path and argument vector (POSIX) or the application name and command line (Windows) passed to it. That the child returns `false` and keeps running the caller's code when `execv` fails is therefore not captured.
- `zsys_sprintf`, `strSplit` and `zstr_free` are not part of this model. Formatting is specified as single-space joining of `%d`/`%s` conversions, and `strSplit` as a strtok-style split that drops empty fields. The NULL terminator `execv` needs is not modelled.
- The router, worker and crypto implementations are external. Their results come from the `Outcomes` oracle, and their handles only record the configuration they were given. `routerGetId`, used only inside log messages, is left out.
- Destroy calls: `workerDestroy` and `routerDestroy` are assumed to accept a pointer to NULL and to leave the pointer NULL, as `serverDestroy` does. Releasing memory (`free`) is not modelled. Note that `serverFree` never releases the snapshot's worker-record array.
- Logging (`error`, `info`, `dbg`) is left out.
- `StartupInfo.ServerStartupInfo.Init`: the unchecked `malloc` of the record copy is modelled as always succeeding. `workersInfoCount` is a `nat`, so a negative C `int` count is not modelled.
- `Server.Server.Init` requires the state `calloc` leaves (no router, NULL worker array). Its only caller, `serverNew`, always provides it.
- Record layouts and field widths come from headers (`server.h`, `router.h`, `worker.h`) that are not part of this model. `routerId` and `workersCount` are taken as `uint16_t`, following `serverGetRouterId`'s return type and the worker loop counter. Ports and the server type are unbounded integers. Only the fields the server code reads are kept. String fields of the records are values, so pointer sharing inside `memcpy`'d records is not captured.
- `src/common/session/game_session.c` is not modelled. `gameSessionInit` always returns true, so its failure path cannot happen. The rest is calls into `commanderSessionInit`/`barrackSessionInit` (not part of this model), debug printing, and `free`.
