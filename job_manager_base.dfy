/**
 * The lifecycle skeleton shared by all currency-specific job managers:
 * configuration, the daemon readiness gate run by `StartAsync`, and the
 * job-id counter.  Everything the manager does to the outside world is
 * appended to `trace`; the per-currency hooks are supplied as a `Hooks`
 * oracle.
 */
module Blockchain {
  import opened Wrappers
  import opened Decimal
  import opened Lifecycle

  /** Opaque handle of the dependency-injection context. */
  datatype ComponentContext = ComponentContext(scope: nat)

  /** Opaque handle of the daemon RPC client. */
  datatype DaemonClient = DaemonClient(handle: nat)

  /** A logger scoped to one pool. */
  datatype Logger = PoolScopedLogger(loggerType: string, poolId: string)

  /** The logger `Configure` obtains for a pool. */
  function LoggerFor(pool: PoolConfig): Logger {
    PoolScopedLogger("BitcoinJobManager", pool.id)
  }

  /** The ids `n` calls of `NextJobId` on a fresh manager return, in order. */
  function IssuedIds(n: nat): seq<string> {
    seq(n, i requires 0 <= i < n => ToDecimal(i + 1))
  }

  /**
   * The ids issued so far are pairwise distinct, each is a canonical decimal
   * string, and the i-th of them parses to i + 1, so they strictly increase.
   */
  lemma IssuedIdsDistinct(n: nat)
    ensures forall i, j | 0 <= i < j < n :: IssuedIds(n)[i] != IssuedIds(n)[j]
    ensures forall i | 0 <= i < n :: IsCanonical(IssuedIds(n)[i]) && ParseDecimal(IssuedIds(n)[i]) == i + 1
  {
    forall i, j | 0 <= i < j < n
      ensures IssuedIds(n)[i] != IssuedIds(n)[j]
    {
      ToDecimalInjective(i + 1, j + 1);
    }
    forall i | 0 <= i < n
      ensures ParseDecimal(IssuedIds(n)[i]) == i + 1
    {
      ParseToDecimal(i + 1);
    }
  }

  class JobManagerBase {
    const ctx: ComponentContext
    var clusterConfig: Option<ClusterConfig>
    var daemon: DaemonClient
    var jobId: nat
    var logger: Option<Logger>
    var poolConfig: Option<PoolConfig>

    /** Log lines, delays, hook calls and daemon configuration, in the order they happened. */
    var trace: seq<Event>

    /** The ids `NextJobId` has returned so far, in order. */
    ghost var issued: seq<string>

    /** Configuration is all or nothing, the counter fits a `long`, and the issued ids are "1" up to the counter. */
    ghost predicate Valid()
      reads this
    {
      && (poolConfig.Some? <==> clusterConfig.Some?)
      && (poolConfig.Some? <==> logger.Some?)
      && (poolConfig.Some? ==> logger.value == LoggerFor(poolConfig.value))
      && jobId <= MaxLong
      && issued == IssuedIds(jobId)
    }

    constructor (ctx: ComponentContext, daemon: DaemonClient)
      ensures Valid()
      ensures this.ctx == ctx && this.daemon == daemon
      ensures poolConfig.None? && clusterConfig.None? && logger.None?
      ensures jobId == 0 && issued == [] && trace == []
    {
      this.ctx := ctx;
      this.daemon := daemon;
      clusterConfig := None;
      jobId := 0;
      logger := None;
      poolConfig := None;
      trace := [];
      issued := [];
    }

    /** Construction, with the null checks on both collaborators. */
    static method Create(ctx: Option<ComponentContext>, daemon: Option<DaemonClient>)
      returns (r: Result<JobManagerBase, Error>)
      ensures ctx.None? ==> r == Err(ArgumentNull("ctx"))
      ensures ctx.Some? && daemon.None? ==> r == Err(ArgumentNull("daemon"))
      ensures r.Ok? <==> ctx.Some? && daemon.Some?
      ensures r.Ok? ==>
        && fresh(r.value) && r.value.Valid()
        && r.value.ctx == ctx.value && r.value.daemon == daemon.value
        && r.value.poolConfig.None? && r.value.jobId == 0 && r.value.trace == []
    {
      if ctx.None? {
        return Err(ArgumentNull("ctx"));
      }
      if daemon.None? {
        return Err(ArgumentNull("daemon"));
      }
      var m := new JobManagerBase(ctx.value, daemon.value);
      return Ok(m);
    }

    /** Hands the pool's daemon endpoints to the daemon client. */
    method ConfigureDaemons()
      requires poolConfig.Some?
      modifies this`trace
      ensures trace == old(trace) + [DaemonsConfigured(poolConfig.value.daemons)]
    {
      trace := trace + [DaemonsConfigured(poolConfig.value.daemons)];
    }

    /**
     * Stores the configuration, obtains the pool's logger and configures the
     * daemon client.  A null argument fails before anything is assigned.
     */
    method Configure(pool: Option<PoolConfig>, cluster: Option<ClusterConfig>)
      returns (outcome: Outcome<Error>)
      requires Valid()
      modifies this`logger, this`poolConfig, this`clusterConfig, this`trace
      ensures Valid()
      ensures pool.None? ==> outcome == Fail(ArgumentNull("poolConfig"))
      ensures pool.Some? && cluster.None? ==> outcome == Fail(ArgumentNull("clusterConfig"))
      ensures outcome.Pass? <==> pool.Some? && cluster.Some?
      ensures outcome.Fail? ==> unchanged(this)
      ensures outcome.Pass? ==>
        && poolConfig == pool && clusterConfig == cluster
        && logger == Some(LoggerFor(pool.value))
        && trace == old(trace) + [DaemonsConfigured(pool.value.daemons)]
    {
      if pool.None? {
        return Fail(ArgumentNull("poolConfig"));
      }
      if cluster.None? {
        return Fail(ArgumentNull("clusterConfig"));
      }
      logger := Some(LoggerFor(pool.value));
      poolConfig := pool;
      clusterConfig := cluster;
      ConfigureDaemons();
      return Pass;
    }

    /**
     * Polls IsDaemonHealthy until it answers true, logging a notice and
     * waiting after each false answer; logs "All daemons online"; then polls
     * IsDaemonConnected the same way.
     */
    method StartDaemonAsync(healthy: seq<bool>, connected: seq<bool>)
      requires true in healthy && true in connected
      modifies this`trace
      ensures trace == old(trace) + StartDaemonTrace(healthy, connected)
    {
      var i := 0;
      var answer := healthy[i];
      trace := trace + [Polled(IsDaemonHealthy, answer)];
      while !answer
        invariant i <= FirstTrue(healthy) && answer == healthy[i]
        invariant trace == old(trace) + FailedPolls(IsDaemonHealthy, i) + [Polled(IsDaemonHealthy, answer)]
        decreases FirstTrue(healthy) - i
      {
        trace := trace + [Info(WaitingForDaemons), Delay(PollDelaySeconds)];
        i := i + 1;
        answer := healthy[i];
        trace := trace + [Polled(IsDaemonHealthy, answer)];
      }
      ghost var healthTrace := trace;
      assert healthTrace == old(trace) + PollLoop(IsDaemonHealthy, healthy);

      trace := trace + [Info(AllDaemonsOnline)];

      var j := 0;
      answer := connected[j];
      trace := trace + [Polled(IsDaemonConnected, answer)];
      while !answer
        invariant j <= FirstTrue(connected) && answer == connected[j]
        invariant trace == healthTrace + [Info(AllDaemonsOnline)]
                           + FailedPolls(IsDaemonConnected, j) + [Polled(IsDaemonConnected, answer)]
        decreases FirstTrue(connected) - j
      {
        trace := trace + [Info(WaitingForPeers), Delay(PollDelaySeconds)];
        j := j + 1;
        answer := connected[j];
        trace := trace + [Polled(IsDaemonConnected, answer)];
      }
    }

    /**
     * Checks that the manager was configured, logs "Launching", waits for the
     * daemons, awaits the sync hook and then the post-init hook, and logs
     * "Online".  A faulted hook ends the startup with its fault.
     */
    method StartAsync(hooks: Hooks) returns (outcome: Outcome<Error>)
      requires Valid()
      requires poolConfig.Some? ==> Terminates(hooks)
      modifies this`trace
      ensures Valid()
      ensures trace == old(trace) + StartTrace(poolConfig.Some?, hooks)
      ensures outcome == StartOutcome(poolConfig.Some?, hooks)
    {
      if poolConfig.None? {
        return Fail(ArgumentNull("poolConfig"));
      }
      trace := trace + [Info(Launching)];
      StartDaemonAsync(hooks.healthy, hooks.connected);
      trace := trace + [Awaited(EnsureDaemonsSynched, hooks.synched)];
      if hooks.synched.Faulted? {
        return Fail(HookFaulted(EnsureDaemonsSynched, hooks.synched.reason));
      }
      trace := trace + [Awaited(PostStartInit, hooks.postInit)];
      if hooks.postInit.Faulted? {
        return Fail(HookFaulted(PostStartInit, hooks.postInit.reason));
      }
      trace := trace + [Info(Online)];
      return Pass;
    }

    /**
     * Increments the counter and returns its decimal rendering: an id never
     * returned before, which parses back to the new counter value.
     */
    method NextJobId() returns (id: string)
      requires Valid() && jobId < MaxLong
      modifies this`jobId, this`issued
      ensures Valid()
      ensures jobId == old(jobId) + 1
      ensures id == ToDecimal(jobId)
      ensures IsCanonical(id) && ParseDecimal(id) == jobId
      ensures id !in old(issued)
      ensures issued == old(issued) + [id]
    {
      jobId := jobId + 1;
      id := ToDecimal(jobId);
      ParseToDecimal(jobId);
      IssuedIdsDistinct(jobId);
      forall k | 0 <= k < |issued|
        ensures issued[k] != id
      {
        assert issued[k] == IssuedIds(jobId)[k] && IssuedIds(jobId)[jobId - 1] == id;
      }
      issued := issued + [id];
      assert issued == IssuedIds(jobId);
    }
  }

  /**
   * A manager whose daemon is healthy and connected at once and whose hooks
   * complete starts up, and its first job id is "1".
   */
  method StartupScenario() {
    var created := JobManagerBase.Create(Some(ComponentContext(0)), Some(DaemonClient(0)));
    var m := created.value;
    var pool := PoolConfig("btc1", [DaemonEndpoint("127.0.0.1", 8332)]);
    var configured := m.Configure(Some(pool), Some(ClusterConfig("cluster")));
    assert configured == Pass;
    var hooks := Hooks([true], [true], Completed, Completed);
    var started := m.StartAsync(hooks);
    assert started == Pass;
    var id := m.NextJobId();
    assert id == "1";
  }

  /** Starting before configuring fails and emits nothing. */
  method UnconfiguredStartScenario() {
    var m := new JobManagerBase(ComponentContext(0), DaemonClient(0));
    var started := m.StartAsync(Hooks([true], [true], Completed, Completed));
    assert started == Fail(ArgumentNull("poolConfig")) && m.trace == [];
  }

  /** Two false health answers give exactly two "waiting for daemons" notices before "All daemons online". */
  method SlowDaemonScenario() {
    var m := new JobManagerBase(ComponentContext(0), DaemonClient(0));
    var pool := PoolConfig("btc1", [DaemonEndpoint("127.0.0.1", 8332)]);
    var configured := m.Configure(Some(pool), Some(ClusterConfig("cluster")));
    var hooks := Hooks([false, false, true], [true], Completed, Completed);
    var started := m.StartAsync(hooks);
    assert started == Pass;
    StartDaemonCounts(hooks.healthy, hooks.connected);
    NoticesAroundDaemonsOnline(hooks.healthy, hooks.connected);
    assert FirstTrue(hooks.healthy) == 2;
    var d := StartDaemonTrace(hooks.healthy, hooks.connected);
    assert multiset(d)[Info(WaitingForDaemons)] == 2 && multiset(d)[Info(AllDaemonsOnline)] == 1;
  }
}
