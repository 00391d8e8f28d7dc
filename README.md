# Job manager lifecycle skeleton, in Dafny

This project models the lifecycle skeleton that every currency-specific job
manager of the mining pool inherits (`JobManagerBase<TJob>` in
`src/MiningCore/Blockchain/JobManagerBase.cs`). The skeleton does three things:

- **Configure** stores the pool and cluster configuration, obtains a
  pool-scoped logger and hands the pool's daemon endpoints to the daemon client.
- **StartAsync** is the readiness gate that runs before any work is handed out.
  It polls the daemons until they are healthy, then until they are connected
  to their peers, then awaits the per-currency sync hook and the post-start
  initialisation hook, and finally logs "Online".
- **NextJobId** increments the job counter and returns it as an
  invariant-culture decimal string.

The model is imperative where the source is. `Blockchain.JobManagerBase` is a
class with the source's fields (`ctx`, `clusterConfig`, `daemon`, `jobId`,
`logger`, `poolConfig`). Its methods change those fields in place. What the
manager does to the outside world is appended to a field `trace: seq<Event>`.
That covers log lines, delays, calls of the hooks and the call of
`daemon.Configure`.

The abstract hooks are oracles. A `Lifecycle.Hooks` value fixes, for one
startup:

- the successive answers of `IsDaemonHealthy` and `IsDaemonConnected`;
- whether `EnsureDaemonsSynchedAsync` completes or faults;
- whether `PostStartInitAsync` completes or faults.

The two polling loops of `StartDaemonAsync` are `while` loops over those
answers. Each method is proved against a specification function:
`StartDaemonTrace`, `StartTrace` and `StartOutcome` give the exact events and
result of a startup. Lemmas about these functions state the ordering and
counting guarantees:

- k false health answers give exactly k waiting notices, each followed by one
  delay, and then one "All daemons online";
- `IsDaemonConnected` is first called only after `IsDaemonHealthy` answered true;
- sync is awaited only after both loops, and post-init only after sync completed;
- "Online" is logged exactly when every phase completed;
- a sync fault stops the startup.

The job counter is proved to yield pairwise distinct, strictly increasing ids.
Each id is the canonical decimal rendering of the counter (digits only, no
sign, no separators, no leading zero), and parsing it gives the counter back.

Modules: `Wrappers` (Option, Result, Outcome), `Decimal` (rendering and parsing
of the counter), `Lifecycle` (configuration values, events, hook oracles, the
specification of a startup and its lemmas), `Blockchain` (the class).

Points where the code behaves differently from what one might expect of a startup gate, followed as written:

- The daemon client is configured inside `Configure`
  (`JobManagerBase.cs:103`), not as a first phase of `StartAsync`.
- No "peers connected" line is logged after the connectivity loop; the only
  notice between the loops is "All daemons online" (`JobManagerBase.cs:72`).
- `Configure` may be called again. Each call re-stores the configuration and
  configures the daemon client once more.
- `StartAsync` on an unconfigured manager throws the argument-null error for
  `poolConfig` (`JobManagerBase.cs:108`). This is modelled as
  `ArgumentNull("poolConfig")`.

## Model

| member | source | states |
|---|---|---|
| `Blockchain.JobManagerBase.constructor` | src/MiningCore/Blockchain/JobManagerBase.cs:37-54 | a new manager holds the given context and daemon client, is unconfigured, has job counter 0, has issued no ids and has emitted no events |
| `Blockchain.JobManagerBase.Create` | src/MiningCore/Blockchain/JobManagerBase.cs:37-44 | a null context fails with `ArgumentNull("ctx")`, then a null daemon client with `ArgumentNull("daemon")`; otherwise a fresh, valid manager with counter 0 and an empty trace |
| `Blockchain.JobManagerBase.ConfigureDaemons` | src/MiningCore/Blockchain/JobManagerBase.cs:58-61 | appends exactly one hand-over of the pool's daemon list to the daemon client, and nothing else |
| `Blockchain.JobManagerBase.Configure` | src/MiningCore/Blockchain/JobManagerBase.cs:94-104 | a null pool config fails with `ArgumentNull("poolConfig")` and a null cluster config with `ArgumentNull("clusterConfig")`, leaving the manager unchanged; it succeeds exactly when both are present. On success it stores both, sets the pool-scoped logger and hands `poolConfig.Daemons` to the daemon client exactly once; configuration stays all-or-nothing |
| `Blockchain.JobManagerBase.StartDaemonAsync` | src/MiningCore/Blockchain/JobManagerBase.cs:63-80 | the two polling loops append exactly `StartDaemonTrace(healthy, connected)` to the trace |
| `Blockchain.JobManagerBase.StartAsync` | src/MiningCore/Blockchain/JobManagerBase.cs:106-117 | appends exactly `StartTrace` and returns `StartOutcome`. Unconfigured: fails with `ArgumentNull("poolConfig")` and appends nothing. Configured: "Launching", both polling loops, sync, post-init, "Online"; a faulted hook ends it with that hook's fault |
| `Blockchain.JobManagerBase.NextJobId` | src/MiningCore/Blockchain/JobManagerBase.cs:82-85 | the counter grows by exactly one. The result is its canonical decimal rendering and parses back to it. The id is not among the ids recorded as issued before, and it is appended to that record |
| `Blockchain.IssuedIdsDistinct` | src/MiningCore/Blockchain/JobManagerBase.cs:82-85 | the issued ids are pairwise distinct canonical decimal strings; the i-th parses to i + 1, so they strictly increase and the first is "1" |
| `Decimal.ToDecimal` | src/MiningCore/Blockchain/JobManagerBase.cs:84 | the invariant-culture rendering is non-empty, digits only, with no leading zero, and starts with a non-zero digit for a positive number |
| `Decimal.ParseToDecimal` | src/MiningCore/Blockchain/JobManagerBase.cs:84 | parsing the rendering of n gives n back |
| `Decimal.ToDecimalParse` | src/MiningCore/Blockchain/JobManagerBase.cs:84 | every canonical digit string is the rendering of the number it denotes, so rendering is a bijection onto canonical strings |
| `Decimal.ToDecimalInjective` | src/MiningCore/Blockchain/JobManagerBase.cs:84 | two counters render to the same string if and only if they are equal |
| `Lifecycle.FirstTrue` | src/MiningCore/Blockchain/JobManagerBase.cs:65 | the number of false answers a polling loop consumes: the answer at that position is true, and every earlier one is false |
| `Lifecycle.FailedPollsShape` | src/MiningCore/Blockchain/JobManagerBase.cs:65-70 | k unsuccessful turns are k copies of "probe answered false, waiting notice, 10-second delay", in that order |
| `Lifecycle.FailedPollsCounts` | src/MiningCore/Blockchain/JobManagerBase.cs:65-70 | k unsuccessful turns contain exactly k false answers, k waiting notices and k delays, and no other event |
| `Lifecycle.PollLoopShape` | src/MiningCore/Blockchain/JobManagerBase.cs:65-79 | a polling loop calls its probe once per answer up to the first true one, in order. It ends with the true answer and emits only polls, its own waiting notice and delays |
| `Lifecycle.PollLoopCounts` | src/MiningCore/Blockchain/JobManagerBase.cs:65-79 | with k false answers a polling loop emits exactly k waiting notices, k delays and k false polls, and exactly one true poll |
| `Lifecycle.PollLoopOmits` | src/MiningCore/Blockchain/JobManagerBase.cs:65-79 | a polling loop never emits an event other than its probe's polls, its waiting notice and the delay |
| `Lifecycle.NoticeThenDelay` | src/MiningCore/Blockchain/JobManagerBase.cs:65-79 | every waiting notice is immediately followed by one 10-second delay |
| `Lifecycle.StartDaemonShape` | src/MiningCore/Blockchain/JobManagerBase.cs:63-80 | `StartDaemonAsync` is the health loop, ending in a true answer, then "All daemons online", then the peer loop, ending in a true answer |
| `Lifecycle.StartDaemonCounts` | src/MiningCore/Blockchain/JobManagerBase.cs:63-80 | with k false health answers and k' false connectivity answers, there are exactly k "waiting for daemons" notices, one "All daemons online", k' "waiting for peers" notices and k + k' delays |
| `Lifecycle.NoticesAroundDaemonsOnline` | src/MiningCore/Blockchain/JobManagerBase.cs:65-79 | every "waiting for daemons" notice precedes "All daemons online" and every "waiting for peers" notice follows it |
| `Lifecycle.ConnectivityAfterHealth` | src/MiningCore/Blockchain/JobManagerBase.cs:65-79 | `IsDaemonConnected` is called only after `IsDaemonHealthy` has answered true, and `IsDaemonHealthy` is never called after `IsDaemonConnected` |
| `Lifecycle.LaunchPrefix` | src/MiningCore/Blockchain/JobManagerBase.cs:110-113 | a configured start emits "Launching" and both polling loops before the sync hook is first awaited. Both probes have answered true by then; no task hook has run and "Online" has not been logged |
| `Lifecycle.SyncAfterPolling` | src/MiningCore/Blockchain/JobManagerBase.cs:110-113 | "Launching" comes first, and the sync hook is awaited at most once. It is awaited only after both probes have answered true |
| `Lifecycle.PostInitAfterSync` | src/MiningCore/Blockchain/JobManagerBase.cs:113-114 | the post-init hook is awaited only after the sync hook completed without fault |
| `Lifecycle.OnlineIffAllPhasesComplete` | src/MiningCore/Blockchain/JobManagerBase.cs:112-116 | "Online" is logged iff sync and post-init both complete, iff the start succeeds. It is then logged once, as the last event, after both hooks completed |
| `Lifecycle.SyncFaultStopsStartup` | src/MiningCore/Blockchain/JobManagerBase.cs:112-116 | a faulted sync hook is the last event: post-init is never awaited and "Online" is never logged. The start fails with the sync hook's fault |

## Left out

- The RPC envelope (`src/MiningForce/JsonRpc/JsonRpcRequest.cs`) is not part of this model. Its wire shape, including dropping a null `id`, comes entirely from Newtonsoft.Json attributes. `ParamsAs<T>` is a direct call into that library. Its own logic is only the constant `"2.0"` and field assignment.
- The share record (`src/MiningForce/Blockchain/Bitcoin/BitcoinShare.cs`) is not part of this model: it has two auto-properties and no behaviour.
- `currentJob`, `jobLock` and the `TJob` type parameter are left out. `currentJob` is declared and `jobLock` is initialised to a new object, but neither is used anywhere in this file, so the class is not generic here.
- Blockchain.JobManagerBase.NextJobId: does not model the atomicity of `Interlocked.Increment` under concurrent callers. The increment is sequential.
- Blockchain.JobManagerBase.NextJobId: requires the counter to be below `long.MaxValue`. The 64-bit wrap-around to a negative id is not modelled.
- Blockchain.JobManagerBase.StartAsync: requires, once configured, that both probes eventually answer true. The source's loops never end otherwise, and that non-termination is not modelled.
- Blockchain.JobManagerBase.StartDaemonAsync: requires the same of both probes, for the same reason.
- Blockchain.JobManagerBase.StartAsync: the virtual `Configure`, `ConfigureDaemons` and `StartDaemonAsync` are modelled by their base bodies. A currency subclass that overrides them is not modelled. The ordering and counting lemmas about the polling loops hold only for a manager that keeps the base `StartDaemonAsync`.
- `Task.Delay(TimeSpan.FromSeconds(10))` is recorded as a `Delay(10)` event. There is no clock, and elapsed time is not modelled.
- The asynchronous scheduling of `StartAsync` is not modelled. It suspends at each await, and the awaited steps are modelled as sequential.
- NLog logging is modelled as `Info` events. `LogUtil.GetPoolScopedLogger` becomes a `PoolScopedLogger` value naming the pool.
- The daemon client and the Autofac component context are opaque handles. `DaemonClient.Configure` is recorded as a `DaemonsConfigured` event with the endpoint list.
- The bodies of `IsDaemonHealthy`, `IsDaemonConnected`, `EnsureDaemonsSynchedAsync` and `PostStartInitAsync` are supplied per currency and perform daemon RPC. They are oracles given by `Hooks`. A probe that throws is not modelled; probes only answer true or false.
- The configuration classes `PoolConfig` and `ClusterConfig` are not part of this model. They are reduced to values carrying a pool id, the daemon endpoints and a cluster name.
- `LogCat` is virtual and may be overridden by a subclass; the model uses the base value "Job Manager".
