/**
 * The observable behaviour of a job manager's startup, as a trace of events.
 *
 * Log lines, delays, calls of the per-currency hooks and the hand-over of the
 * daemon endpoints to the daemon client are the only effects the lifecycle
 * skeleton has on the world; a `seq<Event>` records them in order.  The hooks
 * are oracles: `Hooks` fixes the answers a concrete job manager gives during
 * one startup.  The functions below give, for every such oracle, the exact
 * trace and the outcome of a startup; the lemmas state the ordering and
 * counting guarantees that follow.
 */
module Lifecycle {
  import opened Wrappers

  // ---------------------------------------------------------------------------
  // Configuration values (only the daemon list matters to the skeleton)

  datatype DaemonEndpoint = DaemonEndpoint(host: string, port: nat)

  datatype PoolConfig = PoolConfig(id: string, daemons: seq<DaemonEndpoint>)

  datatype ClusterConfig = ClusterConfig(clusterName: string)

  // ---------------------------------------------------------------------------
  // Events

  /** The category every log line is tagged with (the `LogCat` property). */
  const LogCat := "Job Manager"

  /** The fixed wait, in seconds, between two unsuccessful polls. */
  const PollDelaySeconds: nat := 10

  /** The informational log lines of the startup path. */
  datatype Message = Launching | WaitingForDaemons | AllDaemonsOnline | WaitingForPeers | Online

  /** The text a message is logged with. */
  function Text(m: Message): string {
    "[" + LogCat + "] " +
    match m
    case Launching => "Launching ..."
    case WaitingForDaemons => "Waiting for daemons to come online ..."
    case AllDaemonsOnline => "All daemons online"
    case WaitingForPeers => "Waiting for daemons to connect to peers ..."
    case Online => "Online"
  }

  /** The abstract members a concrete job manager supplies. */
  datatype Hook = IsDaemonHealthy | IsDaemonConnected | EnsureDaemonsSynched | PostStartInit

  /** How an awaited task hook ended. */
  datatype HookResult = Completed | Faulted(reason: string)

  datatype Event =
    | DaemonsConfigured(endpoints: seq<DaemonEndpoint>)  // daemon.Configure(poolConfig.Daemons)
    | Info(message: Message)                            // logger.Info(...) of the line Text(message)
    | Delay(seconds: nat)                               // await Task.Delay(...)
    | Polled(probe: Hook, answer: bool)                 // await IsDaemonHealthy() / IsDaemonConnected()
    | Awaited(task: Hook, result: HookResult)           // await EnsureDaemonsSynchedAsync() / PostStartInitAsync()

  /** What the lifecycle operations throw. */
  datatype Error =
    | ArgumentNull(paramName: string)
    | HookFaulted(hook: Hook, reason: string)

  /**
   * The answers the hooks give during one startup: the successive answers of
   * the two boolean probes, and how the sync and post-init tasks end.
   */
  datatype Hooks = Hooks(healthy: seq<bool>, connected: seq<bool>, synched: HookResult, postInit: HookResult)

  /** Both probes eventually answer true, so both polling loops end. */
  predicate Terminates(hooks: Hooks) {
    true in hooks.healthy && true in hooks.connected
  }

  // ---------------------------------------------------------------------------
  // Specification of the polling loops

  /** The position of the first true answer: the number of false answers the loop sees. */
  function FirstTrue(answers: seq<bool>): (k: nat)
    requires true in answers
    ensures k < |answers| && answers[k]
    ensures forall j | 0 <= j < k :: !answers[j]
  {
    if answers[0] then 0 else FirstTrue(answers[1..]) + 1
  }

  /** The notice logged while a probe answers false. */
  function WaitingNotice(probe: Hook): Message {
    if probe == IsDaemonHealthy then WaitingForDaemons else WaitingForPeers
  }

  /** One turn of a polling loop whose probe answered false. */
  function FailedPoll(probe: Hook): seq<Event> {
    [Polled(probe, false), Info(WaitingNotice(probe)), Delay(PollDelaySeconds)]
  }

  /** `k` turns of a polling loop whose probe answered false. */
  function FailedPolls(probe: Hook, k: nat): seq<Event> {
    if k == 0 then [] else FailedPolls(probe, k - 1) + FailedPoll(probe)
  }

  /** The trace of `while (!await probe()) { notice; delay; }` under the given answers. */
  function PollLoop(probe: Hook, answers: seq<bool>): seq<Event>
    requires true in answers
  {
    FailedPolls(probe, FirstTrue(answers)) + [Polled(probe, true)]
  }

  /** The trace of `StartDaemonAsync`: the health loop, "All daemons online", the peer loop. */
  function StartDaemonTrace(healthy: seq<bool>, connected: seq<bool>): seq<Event>
    requires true in healthy && true in connected
  {
    PollLoop(IsDaemonHealthy, healthy) + [Info(AllDaemonsOnline)] + PollLoop(IsDaemonConnected, connected)
  }

  // ---------------------------------------------------------------------------
  // Specification of StartAsync

  /** The events `StartAsync` emits, given whether the manager was configured. */
  function StartTrace(configured: bool, hooks: Hooks): seq<Event>
    requires configured ==> Terminates(hooks)
  {
    if !configured then []
    else
      var synched := [Info(Launching)] + StartDaemonTrace(hooks.healthy, hooks.connected)
                     + [Awaited(EnsureDaemonsSynched, hooks.synched)];
      if hooks.synched.Faulted? then synched
      else if hooks.postInit.Faulted? then synched + [Awaited(PostStartInit, hooks.postInit)]
      else synched + [Awaited(PostStartInit, Completed), Info(Online)]
  }

  /** How `StartAsync` ends, given whether the manager was configured. */
  function StartOutcome(configured: bool, hooks: Hooks): Outcome<Error> {
    if !configured then Fail(ArgumentNull("poolConfig"))
    else if hooks.synched.Faulted? then Fail(HookFaulted(EnsureDaemonsSynched, hooks.synched.reason))
    else if hooks.postInit.Faulted? then Fail(HookFaulted(PostStartInit, hooks.postInit.reason))
    else Pass
  }

  // ---------------------------------------------------------------------------
  // Properties of the polling loops

  /** `k` failed turns are `k` copies of the three-event turn, one after the other. */
  lemma {:induction false} FailedPollsShape(probe: Hook, k: nat)
    ensures |FailedPolls(probe, k)| == 3 * k
    ensures forall i | 0 <= i < 3 * k :: FailedPolls(probe, k)[i] == FailedPoll(probe)[i % 3]
  {
    if k > 0 {
      FailedPollsShape(probe, k - 1);
      var prev := FailedPolls(probe, k - 1);
      assert FailedPolls(probe, k) == prev + FailedPoll(probe);
      forall i | 0 <= i < 3 * k
        ensures FailedPolls(probe, k)[i] == FailedPoll(probe)[i % 3]
      {
        if i >= 3 * (k - 1) {
          assert i % 3 == i - 3 * (k - 1);
        }
      }
    }
  }

  /** `k` failed turns hold exactly `k` false answers, `k` waiting notices, `k` delays and nothing else. */
  lemma {:induction false} FailedPollsCounts(probe: Hook, k: nat)
    ensures multiset(FailedPolls(probe, k))[Polled(probe, false)] == k
    ensures multiset(FailedPolls(probe, k))[Info(WaitingNotice(probe))] == k
    ensures multiset(FailedPolls(probe, k))[Delay(PollDelaySeconds)] == k
    ensures forall e | e in FailedPolls(probe, k) :: e in FailedPoll(probe)
  {
    if k > 0 {
      FailedPollsCounts(probe, k - 1);
      var prev := FailedPolls(probe, k - 1);
      assert FailedPolls(probe, k) == prev + FailedPoll(probe);
      assert multiset(FailedPolls(probe, k)) == multiset(prev) + multiset(FailedPoll(probe));
    }
  }

  /** An event a polling loop on `probe` may emit. */
  predicate PollEvent(probe: Hook, e: Event) {
    e == Polled(probe, false) || e == Polled(probe, true)
    || e == Info(WaitingNotice(probe)) || e == Delay(PollDelaySeconds)
  }

  /**
   * A polling loop whose probe answers false `k` times and then true polls
   * `k + 1` times, once per answer and in order, ends with the true answer,
   * and emits nothing but polls, waiting notices and delays.
   */
  lemma PollLoopShape(probe: Hook, answers: seq<bool>)
    requires true in answers
    ensures var t := PollLoop(probe, answers);
      && |t| == 3 * FirstTrue(answers) + 1
      && t[|t| - 1] == Polled(probe, true)
      && (forall j | 0 <= j <= FirstTrue(answers) :: t[3 * j] == Polled(probe, answers[j]))
      && (forall i | 0 <= i < |t| :: PollEvent(probe, t[i]))
  {
    var k := FirstTrue(answers);
    var t := PollLoop(probe, answers);
    FailedPollsShape(probe, k);
    forall j | 0 <= j <= k
      ensures t[3 * j] == Polled(probe, answers[j])
    {
      if j < k {
        assert (3 * j) % 3 == 0;
      }
    }
    forall i | 0 <= i < |t|
      ensures PollEvent(probe, t[i])
    {
      if i < 3 * k {
        assert t[i] == FailedPoll(probe)[i % 3];
      }
    }
  }

  /**
   * A polling loop whose probe answers false `k` times emits exactly `k`
   * waiting notices and `k` delays, and polls with answer true exactly once.
   */
  lemma {:induction false} PollLoopCounts(probe: Hook, answers: seq<bool>)
    requires true in answers
    ensures var t := PollLoop(probe, answers);
      && multiset(t)[Polled(probe, false)] == FirstTrue(answers)
      && multiset(t)[Polled(probe, true)] == 1
      && multiset(t)[Info(WaitingNotice(probe))] == FirstTrue(answers)
      && multiset(t)[Delay(PollDelaySeconds)] == FirstTrue(answers)
  {
    var f := FailedPolls(probe, FirstTrue(answers));
    FailedPollsCounts(probe, FirstTrue(answers));
    assert multiset(PollLoop(probe, answers)) == multiset(f) + multiset{Polled(probe, true)};
    assert Polled(probe, true) !in FailedPoll(probe);
  }

  /** In a polling loop every waiting notice is directly followed by one delay. */
  lemma NoticeThenDelay(probe: Hook, answers: seq<bool>)
    requires true in answers
    ensures var t := PollLoop(probe, answers);
      forall i | 0 <= i < |t| && t[i] == Info(WaitingNotice(probe)) ::
        i + 1 < |t| && t[i + 1] == Delay(PollDelaySeconds)
  {
    var k := FirstTrue(answers);
    var t := PollLoop(probe, answers);
    FailedPollsShape(probe, k);
    forall i | 0 <= i < |t| && t[i] == Info(WaitingNotice(probe))
      ensures i + 1 < |t| && t[i + 1] == Delay(PollDelaySeconds)
    {
      assert i < 3 * k;
      assert i % 3 == 1;
      if i + 1 < 3 * k {
        assert (i + 1) % 3 == 2;
      }
    }
  }

  /**
   * The trace of `StartDaemonAsync` is the health loop, then "All daemons
   * online", then the peer loop: every event before the notice belongs to the
   * health loop, which ends with a true answer, and every event after it to
   * the peer loop, which ends with a true answer.
   */
  lemma StartDaemonShape(healthy: seq<bool>, connected: seq<bool>)
    requires true in healthy && true in connected
    ensures var t := StartDaemonTrace(healthy, connected);
      var n := |PollLoop(IsDaemonHealthy, healthy)|;
      && 0 < n < |t| - 1
      && t[n - 1] == Polled(IsDaemonHealthy, true)
      && t[n] == Info(AllDaemonsOnline)
      && t[|t| - 1] == Polled(IsDaemonConnected, true)
      && (forall i | 0 <= i < n :: PollEvent(IsDaemonHealthy, t[i]))
      && (forall i | n < i < |t| :: PollEvent(IsDaemonConnected, t[i]))
  {
    var h := PollLoop(IsDaemonHealthy, healthy);
    var c := PollLoop(IsDaemonConnected, connected);
    var t := StartDaemonTrace(healthy, connected);
    PollLoopShape(IsDaemonHealthy, healthy);
    PollLoopShape(IsDaemonConnected, connected);
    assert forall i | 0 <= i < |h| :: t[i] == h[i];
    assert forall i | |h| < i < |t| :: t[i] == c[i - |h| - 1];
  }

  /**
   * `StartDaemonAsync`: if IsDaemonHealthy answers false k times and
   * IsDaemonConnected k' times, exactly k "waiting for daemons" notices and
   * one "All daemons online" are logged, then exactly k' "waiting for peers"
   * notices; k + k' delays are awaited in all.
   */
  lemma {:induction false} StartDaemonCounts(healthy: seq<bool>, connected: seq<bool>)
    requires true in healthy && true in connected
    ensures var t := StartDaemonTrace(healthy, connected);
      && multiset(t)[Info(WaitingForDaemons)] == FirstTrue(healthy)
      && multiset(t)[Info(AllDaemonsOnline)] == 1
      && multiset(t)[Info(WaitingForPeers)] == FirstTrue(connected)
      && multiset(t)[Delay(PollDelaySeconds)] == FirstTrue(healthy) + FirstTrue(connected)
  {
    var h := PollLoop(IsDaemonHealthy, healthy);
    var c := PollLoop(IsDaemonConnected, connected);
    PollLoopCounts(IsDaemonHealthy, healthy);
    PollLoopCounts(IsDaemonConnected, connected);
    PollLoopOmits(IsDaemonHealthy, healthy, Info(WaitingForPeers));
    PollLoopOmits(IsDaemonHealthy, healthy, Info(AllDaemonsOnline));
    PollLoopOmits(IsDaemonConnected, connected, Info(WaitingForDaemons));
    PollLoopOmits(IsDaemonConnected, connected, Info(AllDaemonsOnline));
    assert multiset(StartDaemonTrace(healthy, connected))
        == multiset(h) + multiset{Info(AllDaemonsOnline)} + multiset(c);
  }

  /** A polling loop emits no event outside `PollEvent`. */
  lemma PollLoopOmits(probe: Hook, answers: seq<bool>, e: Event)
    requires true in answers && !PollEvent(probe, e)
    ensures multiset(PollLoop(probe, answers))[e] == 0
  {
    PollLoopShape(probe, answers);
    assert e !in PollLoop(probe, answers);
  }

  /**
   * Every "waiting for daemons" notice comes before "All daemons online" and
   * every "waiting for peers" notice after it.
   */
  lemma NoticesAroundDaemonsOnline(healthy: seq<bool>, connected: seq<bool>)
    requires true in healthy && true in connected
    ensures var t := StartDaemonTrace(healthy, connected);
      && (forall i | 0 <= i < |t| && t[i] == Info(WaitingForDaemons) :: Info(AllDaemonsOnline) in t[i + 1..])
      && (forall i | 0 <= i < |t| && t[i] == Info(WaitingForPeers) :: Info(AllDaemonsOnline) in t[..i])
  {
    var t := StartDaemonTrace(healthy, connected);
    var n := |PollLoop(IsDaemonHealthy, healthy)|;
    StartDaemonShape(healthy, connected);
    forall i | 0 <= i < |t| && t[i] == Info(WaitingForDaemons)
      ensures Info(AllDaemonsOnline) in t[i + 1..]
    {
      assert t[i + 1..][n - i - 1] == Info(AllDaemonsOnline);
    }
    forall i | 0 <= i < |t| && t[i] == Info(WaitingForPeers)
      ensures Info(AllDaemonsOnline) in t[..i]
    {
      assert t[..i][n] == Info(AllDaemonsOnline);
    }
  }

  /**
   * IsDaemonConnected is first called only after IsDaemonHealthy has answered
   * true, and IsDaemonHealthy is never called again after IsDaemonConnected.
   */
  lemma ConnectivityAfterHealth(healthy: seq<bool>, connected: seq<bool>)
    requires true in healthy && true in connected
    ensures var t := StartDaemonTrace(healthy, connected);
      && (forall i | 0 <= i < |t| && t[i].Polled? && t[i].probe == IsDaemonConnected ::
            Polled(IsDaemonHealthy, true) in t[..i])
      && (forall i, j | 0 <= i < j < |t| && t[i].Polled? && t[j].Polled? ::
            !(t[i].probe == IsDaemonConnected && t[j].probe == IsDaemonHealthy))
  {
    var t := StartDaemonTrace(healthy, connected);
    var n := |PollLoop(IsDaemonHealthy, healthy)|;
    StartDaemonShape(healthy, connected);
    forall i | 0 <= i < |t| && t[i].Polled? && t[i].probe == IsDaemonConnected
      ensures Polled(IsDaemonHealthy, true) in t[..i]
    {
      assert t[..i][n - 1] == Polled(IsDaemonHealthy, true);
    }
    forall i, j | 0 <= i < j < |t| && t[i].Polled? && t[j].Polled?
      ensures !(t[i].probe == IsDaemonConnected && t[j].probe == IsDaemonHealthy)
    {
      if i < n {
        assert PollEvent(IsDaemonHealthy, t[i]);
      } else if j > n {
        assert PollEvent(IsDaemonConnected, t[j]);
      }
    }
  }

  // ---------------------------------------------------------------------------
  // Properties of StartAsync

  /**
   * The events a started manager emits before awaiting the sync hook:
   * "Launching" and the two polling loops, each ending with a true answer.
   * None of them is a task hook or "Online".
   */
  lemma {:induction false} LaunchPrefix(hooks: Hooks)
    requires Terminates(hooks)
    ensures var pre := [Info(Launching)] + StartDaemonTrace(hooks.healthy, hooks.connected);
      && StartTrace(true, hooks)[..|pre| + 1] == pre + [Awaited(EnsureDaemonsSynched, hooks.synched)]
      && Polled(IsDaemonHealthy, true) in pre && Polled(IsDaemonConnected, true) in pre
      && (forall i | 0 <= i < |pre| :: !pre[i].Awaited? && pre[i] != Info(Online))
  {
    var d := StartDaemonTrace(hooks.healthy, hooks.connected);
    var pre := [Info(Launching)] + d;
    var n := |PollLoop(IsDaemonHealthy, hooks.healthy)|;
    StartDaemonShape(hooks.healthy, hooks.connected);
    assert pre[n] == Polled(IsDaemonHealthy, true);
    assert pre[|pre| - 1] == Polled(IsDaemonConnected, true);
    forall i | 0 <= i < |pre|
      ensures !pre[i].Awaited? && pre[i] != Info(Online)
    {
      if 0 < i <= n {
        assert PollEvent(IsDaemonHealthy, d[i - 1]);
      } else if i > n + 1 {
        assert PollEvent(IsDaemonConnected, d[i - 1]);
      }
    }
  }

  /**
   * A configured start logs "Launching" first, and awaits the sync hook
   * exactly once, only after both probes have answered true.
   */
  lemma SyncAfterPolling(hooks: Hooks)
    requires Terminates(hooks)
    ensures var t := StartTrace(true, hooks);
      && t[0] == Info(Launching)
      && (forall i | 0 <= i < |t| && t[i].Awaited? && t[i].task == EnsureDaemonsSynched ::
            Polled(IsDaemonHealthy, true) in t[..i] && Polled(IsDaemonConnected, true) in t[..i])
      && (forall i, j | 0 <= i < j < |t| && t[i].Awaited? && t[j].Awaited? ::
            !(t[i].task == EnsureDaemonsSynched && t[j].task == EnsureDaemonsSynched))
  {
    var pre := [Info(Launching)] + StartDaemonTrace(hooks.healthy, hooks.connected);
    var t := StartTrace(true, hooks);
    LaunchPrefix(hooks);
    assert t[..|pre|] == pre;
    forall i | 0 <= i < |t| && t[i].Awaited? && t[i].task == EnsureDaemonsSynched
      ensures Polled(IsDaemonHealthy, true) in t[..i] && Polled(IsDaemonConnected, true) in t[..i]
    {
      assert t[..i][..|pre|] == pre;
    }
  }

  /** PostStartInit is awaited only after the sync hook completed without fault. */
  lemma PostInitAfterSync(hooks: Hooks)
    requires Terminates(hooks)
    ensures var t := StartTrace(true, hooks);
      forall i | 0 <= i < |t| && t[i].Awaited? && t[i].task == PostStartInit ::
        Awaited(EnsureDaemonsSynched, Completed) in t[..i]
  {
    var pre := [Info(Launching)] + StartDaemonTrace(hooks.healthy, hooks.connected);
    var t := StartTrace(true, hooks);
    LaunchPrefix(hooks);
    forall i | 0 <= i < |t| && t[i].Awaited? && t[i].task == PostStartInit
      ensures Awaited(EnsureDaemonsSynched, Completed) in t[..i]
    {
      assert t[..i][|pre|] == Awaited(EnsureDaemonsSynched, hooks.synched);
    }
  }

  /**
   * "Online" is logged exactly when both the sync and the post-init hooks
   * complete, which is exactly when `StartAsync` succeeds; it is then the last
   * event, logged once, after both hooks completed.
   */
  lemma OnlineIffAllPhasesComplete(hooks: Hooks)
    requires Terminates(hooks)
    ensures var t := StartTrace(true, hooks);
      && (Info(Online) in t <==> hooks.synched == Completed && hooks.postInit == Completed)
      && (Info(Online) in t <==> StartOutcome(true, hooks) == Pass)
      && (Info(Online) in t ==>
            && t[|t| - 1] == Info(Online)
            && Info(Online) !in t[..|t| - 1]
            && Awaited(EnsureDaemonsSynched, Completed) in t[..|t| - 1]
            && Awaited(PostStartInit, Completed) in t[..|t| - 1])
  {
    var pre := [Info(Launching)] + StartDaemonTrace(hooks.healthy, hooks.connected);
    var t := StartTrace(true, hooks);
    LaunchPrefix(hooks);
    var s := pre + [Awaited(EnsureDaemonsSynched, hooks.synched)];
    assert Info(Online) !in s;
    if hooks.synched == Completed && hooks.postInit == Completed {
      assert t == s + [Awaited(PostStartInit, Completed), Info(Online)];
      assert t[..|t| - 1] == s + [Awaited(PostStartInit, Completed)];
    } else if hooks.synched == Completed {
      assert t == s + [Awaited(PostStartInit, hooks.postInit)];
    }
  }

  /**
   * A faulted sync hook ends the startup: post-init is never awaited, "Online"
   * is never logged, and `StartAsync` fails with the sync hook's fault.
   */
  lemma SyncFaultStopsStartup(hooks: Hooks)
    requires Terminates(hooks) && hooks.synched.Faulted?
    ensures var t := StartTrace(true, hooks);
      && t[|t| - 1] == Awaited(EnsureDaemonsSynched, hooks.synched)
      && (forall i | 0 <= i < |t| :: !(t[i].Awaited? && t[i].task == PostStartInit))
      && Info(Online) !in t
      && StartOutcome(true, hooks) == Fail(HookFaulted(EnsureDaemonsSynched, hooks.synched.reason))
  {
    var pre := [Info(Launching)] + StartDaemonTrace(hooks.healthy, hooks.connected);
    LaunchPrefix(hooks);
    assert StartTrace(true, hooks) == pre + [Awaited(EnsureDaemonsSynched, hooks.synched)];
  }
}
