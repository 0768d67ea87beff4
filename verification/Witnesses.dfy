/** Runs that reach what the theorems only allow: each behaviour they speak of does occur. */
module Witnesses {
  import opened Process
  import opened Clock
  import opened Journal
  import opened Lifecycle
  import opened Protocol
  import opened AckWindow
  import Lifetimes
  import Theorems

  function Req(max: int): SpawnRequest {
    SpawnRequest("", "tenant", "/bin/app", [], map[], "", None, [], "", max)
  }

  function Made(max: int): Info { InfoFromRequest("p", "a", Req(max)) }

  function First(max: int): Core { Core(map["p" := NewEntry(Made(max))], [CreateRecord(Made(max))]) }

  lemma Take(s: Sys, a: Action) returns (s': Sys)
    requires Reachable(s) && Enabled(s, a)
    ensures Reachable(s') && s' == Next(s, a)
  {
    Theorems.StepIsReachable(s, a);
    s' := Next(s, a);
  }

  /** Two lords are connected and a process was sent to the first. */
  lemma Begun(max: int) returns (s: Sys)
    ensures Reachable(s) && s.core == First(max)
    ensures s.now == 0 && s.connected == {"a", "b"} && s.owner == map["a" := 0, "b" := 1]
    ensures s.sent == [Send("a", BuildSpawnRequest(Made(max), Req(max)))] && s.inflight == {0} && s.started == {}
    ensures s.timers == {} && s.lastSend == map[] && s.up == map[]
    ensures s.live == map[] && s.earlier == {} && s.carried == {} && s.lives == 0
  {
    assert IsRun(0, []) && After(0, []) == Init(0);
    s := Take(Init(0), Connect("a", 0));
    s := Take(s, Connect("b", 1));
    s := Take(s, SpawnCall("p", "a", Req(max), true));
  }

  lemma Accepted(c: Core, lord: LordId)
    requires "p" in c.table && !Final(c.table["p"].info.state) && !Exhausted(c.table["p"].info)
    ensures var c' := MarkRestarting(c, "p", lord);
      && "p" in c'.table
      && Respawn(c, "p", lord, true) == (c', Sent(RespawnRequest(c'.table["p"].info)))
      && var e, e' := c.table["p"], c'.table["p"];
      && e'.info.state == Restarting && e'.info.restarts == e.info.restarts + 1
      && e'.info.program == e.info.program && e'.info.id == e.info.id && e'.closes == e.closes
  {
  }

  lemma TakeRespawn(s: Sys, lord: LordId) returns (s': Sys)
    requires Reachable(s) && lord in s.connected
    requires "p" in s.core.table && !Final(s.core.table["p"].info.state) && !Exhausted(s.core.table["p"].info)
    ensures Reachable(s') && s'.core == MarkRestarting(s.core, "p", lord) && IsRestarting(s', "p")
    ensures s'.core.table["p"].info.restarts == s.core.table["p"].info.restarts + 1
    ensures s'.core.table["p"].info.program == s.core.table["p"].info.program
    ensures s'.core.table["p"].info.id == s.core.table["p"].info.id
    ensures s'.core.table["p"].closes == s.core.table["p"].closes
    ensures s'.sent == s.sent + [Send(lord, RespawnRequest(s'.core.table["p"].info))]
    ensures s'.inflight == s.inflight + {|s.sent|} && s'.lastSend == s.lastSend["p" := s.now]
    ensures s'.timers == s.timers + {Timer("p", s.now + ACK_TIMEOUT)}
    ensures s'.now == s.now && s'.connected == s.connected && s'.owner == s.owner && s'.up == s.up
    ensures s'.started == s.started && s'.live == s.live && s'.earlier == s.earlier && s'.carried == s.carried
    ensures s'.lives == s.lives
  {
    Accepted(s.core, lord);
    hide *;
    var c := MarkRestarting(s.core, "p", lord);
    s' := TakeAccepted(s, lord, c);
  }

  lemma TakeAccepted(s: Sys, lord: LordId, c: Core) returns (s': Sys)
    requires Reachable(s) && lord in s.connected && "p" in s.core.table && "p" in c.table
    requires Respawn(s.core, "p", lord, true) == (c, Sent(RespawnRequest(c.table["p"].info)))
    ensures Reachable(s') && s'.core == c
    ensures s'.sent == s.sent + [Send(lord, RespawnRequest(c.table["p"].info))]
    ensures s'.inflight == s.inflight + {|s.sent|} && s'.lastSend == s.lastSend["p" := s.now]
    ensures s'.timers == s.timers + {Timer("p", s.now + ACK_TIMEOUT)}
    ensures s'.now == s.now && s'.connected == s.connected && s'.owner == s.owner && s'.up == s.up
    ensures s'.started == s.started && s'.live == s.live && s'.earlier == s.earlier && s'.carried == s.carried
    ensures s'.lives == s.lives
  {
    hide Respawn, Reachable, RespawnRequest;
    s' := Take(s, RespawnOn("p", lord, true));
  }

  /** Then it was respawned on the second, so that two requests are pending. */
  lemma Respawned(max: int) returns (s: Sys)
    requires max >= 1
    ensures Reachable(s) && IsRestarting(s, "p")
    ensures var e := s.core.table["p"];
      e.info.restarts == 1 && e.info.program.maxRestarts == max && e.closes == 0
    ensures s.now == 0 && s.connected == {"a", "b"} && s.owner == map["a" := 0, "b" := 1]
    ensures |s.sent| == 2 && s.sent[0].lord == "a" && s.sent[1].lord == "b"
    ensures forall n | 0 <= n < 2 :: s.sent[n].req.processId == "p"
    ensures s.inflight == {0, 1} && s.started == {} && s.up == map[] && s.live == map[]
    ensures s.timers == {Timer("p", ACK_TIMEOUT)} && s.lastSend == map["p" := 0]
  {
    hide MarkRestarting, Reachable;
    s := Begun(max);
    s := TakeRespawn(s, "b");
  }

  /** A Started of a request that was slow to be handled reaches a process that recovery has
      given up: it is RUNNING again, and those who waited for its end were told of one. */
  lemma LateStarted() returns (s: Sys, s': Sys)
    ensures Reachable(s) && "p" in s.core.table && s.core.table["p"].info.state == Stopped
    ensures Enabled(s, Deliver(1, "b")) && s' == Next(s, Deliver(1, "b"))
    ensures "p" in s'.core.table && s'.core.table["p"].info.state == Running && s'.core.table["p"].closes == 1
  {
    s := Respawned(1);
    s := Take(s, CleanUp("p"));
    s := Take(s, Handle(1, Up(7)));
    s' := Take(s, Deliver(1, "b"));
  }

  /** A scheduler restart leaves a process RESTARTING without a timer. */
  lemma StuckAfterRestart() returns (s: Sys)
    ensures Reachable(s) && IsRestarting(s, "p") && !Theorems.HasTimer(s, "p")
  {
    var t := Respawned(1);
    Theorems.RestartingSurvivesRestart(t, "p", "a");
    s := Take(t, Restart);
  }

  lemma ReplayOfCreate(info: Info)
    ensures Replay([CreateRecord(info)]) == map[info.id := NewEntry(info)]
  {
    assert [CreateRecord(info)][..0] == [];
    assert ReplayOnto(map[], []) == map[];
  }

  /** After a respawn the live table and a replay differ in lord and restart count. */
  lemma ReplayMissesRespawn() returns (s: Sys)
    ensures Reachable(s) && "p" in s.core.table && "p" in Replay(s.core.log)
    ensures s.core.table["p"].info.lord == "b" && Replay(s.core.log)["p"].info.lord == "a"
    ensures s.core.table["p"].info.restarts == 1 && Replay(s.core.log)["p"].info.restarts == 0
  {
    var t := Begun(1);
    ReplayOfCreate(Made(1));
    Theorems.RespawnIsNotReplayed(t, "p", "b", true);
    s := Take(t, RespawnOn("p", "b", true));
  }

  /** After a re-bind they differ in the lord. */
  lemma ReplayMissesRebind() returns (s: Sys)
    ensures Reachable(s) && "p" in s.core.table && "p" in Replay(s.core.log)
    ensures s.core.table["p"].info.lord == "b" && Replay(s.core.log)["p"].info.lord == "a"
  {
    var t := Begun(1);
    ReplayOfCreate(Made(1));
    s := Take(t, RebindTo("a", "b"));
  }

  lemma TakePass(s: Sys, until: Time) returns (s': Sys)
    requires Reachable(s) && s.now <= until && forall k | k in s.timers :: until <= k.due
    ensures Reachable(s') && s' == s.(now := until)
  {
    s' := Take(s, Pass(until));
  }

  lemma RespawnedTwice() returns (s: Sys)
    ensures Reachable(s) && IsRestarting(s, "p") && s.now == ACK_TIMEOUT - SECOND / 1000
    ensures s.lastSend == map["p" := s.now]
    ensures s.timers == {Timer("p", ACK_TIMEOUT), Timer("p", s.now + ACK_TIMEOUT)}
  {
    hide MarkRestarting, Reachable;
    s := Respawned(2);
    s := TakePass(s, ACK_TIMEOUT - SECOND / 1000);
    s := TakeRespawn(s, "a");
  }

  /** A respawn one millisecond before the timer of an earlier one runs out is given that
      millisecond. */
  lemma WindowOfOneMillisecond() returns (s: Sys, run: seq<Action>)
    ensures Reachable(s) && "p" in s.lastSend && IsRestarting(s, "p") && s.now == s.lastSend["p"]
    ensures Path(s, run) && TimedOut(End(s, run), "p") && End(s, run).now == s.now + SECOND / 1000
  {
    s := RespawnedTwice();
    var first := Timer("p", ACK_TIMEOUT);
    var s' := FireFirst(s, first);
    run := [Pass(ACK_TIMEOUT), TimerFires(first)];
    Fired(s.core, first, "p");
  }

  /** The scheduler was restarted with two requests pending, and sent a third. */
  lemma ThreePending() returns (s: Sys)
    ensures Reachable(s) && "p" in s.core.table && s.core.table["p"].info.program.maxRestarts == 1
    ensures |s.sent| == 3 && forall n | 0 <= n < 3 :: s.sent[n].req.processId == "p" && s.sent[n].lord in s.owner
    ensures s.inflight == {0, 1, 2} && s.started == {} && s.earlier == {} && s.carried == {0, 1}
  {
    hide MarkRestarting, Reachable;
    var t := Respawned(1);
    var t1 := TakeRestart(t);
    var t2 := TakeConnect(t1, "c", 2);
    s := TakeRespawn(t2, "c");
    Theorems.EntriesHold(s);
  }

  lemma TakeRestart(s: Sys) returns (s': Sys)
    requires Reachable(s) && IsRestarting(s, "p")
    ensures Reachable(s') && IsRestarting(s', "p") && s'.core.table["p"].info.restarts == 0
    ensures s'.core.table["p"].info.program == s.core.table["p"].info.program
    ensures s'.sent == s.sent && s'.owner == s.owner && s'.inflight == s.inflight && s'.started == s.started
    ensures s'.earlier == s.started && s'.carried == s.inflight
  {
    Theorems.LogHolds(s);
    Theorems.RestartingSurvivesRestart(s, "p", "");
    s' := Take(s, Restart);
    assert s'.core.table == Replay(s.core.log);
  }

  lemma TakeConnect(s: Sys, lord: LordId, agent: Agent) returns (s': Sys)
    requires Reachable(s) && lord != "" && lord !in s.owner
    ensures Reachable(s') && s' == s.(owner := s.owner[lord := agent], connected := s.connected + {lord})
  {
    s' := Take(s, Connect(lord, agent));
  }

  lemma HandleUp(s: Sys, n: nat) returns (s': Sys)
    requires Reachable(s) && n in s.inflight && n < |s.sent| && s.sent[n].lord in s.owner
    ensures Reachable(s') && s'.core == s.core && s'.sent == s.sent && s'.owner == s.owner && s'.lives == s.lives
    ensures s'.inflight == s.inflight - {n} && s'.started == s.started + {n}
    ensures s'.earlier == s.earlier && s'.carried == s.carried
  {
    s' := Take(s, Handle(n, Up(7)));
  }

  /** So three OS processes are started in one scheduler lifetime for a process with a limit
      of one restart. */
  lemma PendingRequestsExceedLimit() returns (s: Sys)
    ensures Reachable(s) && "p" in s.core.table && s.core.table["p"].info.program.maxRestarts == 1
    ensures Lifetimes.StartsOf(s, "p") == {0, 1, 2} && Lifetimes.CarriedOf(s, "p") == {0, 1}
  {
    s := ThreePending();
    s := HandleUp(s, 0);
    s := HandleUp(s, 1);
    s := HandleUp(s, 2);
  }

  /** Two OS processes of one process run at once: nothing stops the first when the process is
      respawned elsewhere. */
  lemma TwoRunning() returns (s: Sys)
    ensures Reachable(s) && Lifetimes.RunningOf(s, "p") == {0, 1}
  {
    var t := Respawned(1);
    var t1 := Take(t, Handle(0, Up(7)));
    s := Take(t1, Handle(1, Up(8)));
  }

  // ---------------------------------------------------------------------------
  // The bound over all lifetimes is reached
  // ---------------------------------------------------------------------------

  function Below(n: nat): (r: set<nat>)
    ensures (forall i :: i in r <==> 0 <= i < n) && |r| == n
  {
    if n == 0 then {} else Below(n - 1) + {n - 1}
  }

  /** n requests for the process are out, none handled; its restarts of this lifetime are
      counted; lord ids get longer with each lifetime. */
  ghost predicate Lined(s: Sys, max: nat, lives: nat, restarts: nat, n: nat) {
    && Reachable(s) && s.lives == lives
    && "p" in s.core.table && s.core.table["p"].info.id == "p" && !Final(s.core.table["p"].info.state)
    && s.core.table["p"].info.program.maxRestarts == max && s.core.table["p"].info.restarts == restarts
    && |s.sent| == n && s.inflight == Below(n) && s.started == {}
    && (forall i | 0 <= i < n :: s.sent[i].req.processId == "p" && s.sent[i].lord in s.owner)
    && s.connected <= s.owner.Keys && forall k | k in s.owner :: |k| <= lives + 1
  }

  lemma OneMore(s: Sys, lord: LordId, max: nat, lives: nat, restarts: nat, n: nat) returns (s': Sys)
    requires Lined(s, max, lives, restarts, n) && lord in s.connected && restarts < max
    ensures Lined(s', max, lives, restarts + 1, n + 1) && s'.connected == s.connected
  {
    hide MarkRestarting, Reachable;
    s' := TakeRespawn(s, lord);
    assert Below(n + 1) == Below(n) + {n};
  }

  lemma {:induction false} Spend(s: Sys, lord: LordId, max: nat, lives: nat, restarts: nat, n: nat) returns (s': Sys)
    requires Lined(s, max, lives, restarts, n) && lord in s.connected && restarts <= max
    ensures Lined(s', max, lives, max, n + max - restarts)
    decreases max - restarts
  {
    s' := s;
    if restarts < max {
      s' := OneMore(s, lord, max, lives, restarts, n);
      s' := Spend(s', lord, max, lives, restarts + 1, n + 1);
    }
  }

  function Name(len: nat): (s: LordId)
    ensures |s| == len
  {
    seq(len, i => 'x')
  }

  lemma LinedRestarts(s: Sys, max: nat, lives: nat, n: nat) returns (s': Sys)
    requires Lined(s, max, lives, max, n)
    ensures Lined(s', max, lives + 1, 0, n) && forall k | k in s'.owner :: |k| <= lives + 1
  {
    hide Reachable, Below;
    s' := Restarted(s);
  }

  lemma LinedConnects(s: Sys, lord: LordId, max: nat, lives: nat, n: nat) returns (s': Sys)
    requires Lined(s, max, lives, 0, n) && lord != "" && lord !in s.owner && |lord| <= lives + 1
    ensures Lined(s', max, lives, 0, n) && lord in s'.connected
  {
    hide Reachable, Below;
    s' := TakeConnect(s, lord, 0);
  }

  /** The scheduler restarts and a lord connects: the budget is whole again. */
  lemma NextLife(s: Sys, max: nat, lives: nat, n: nat) returns (s': Sys, lord: LordId)
    requires Lined(s, max, lives, max, n)
    ensures Lined(s', max, lives + 1, 0, n) && lord in s'.connected
  {
    hide *;
    lord := Name(lives + 2);
    var t := LinedRestarts(s, max, lives, n);
    s' := LinedConnects(t, lord, max, lives + 1, n);
  }

  lemma Restarted(s: Sys) returns (s': Sys)
    requires Reachable(s) && "p" in s.core.table
    ensures Reachable(s') && "p" in s'.core.table && s'.connected == {} && s'.lives == s.lives + 1
    ensures var i, i' := s.core.table["p"].info, s'.core.table["p"].info;
      i'.id == i.id && i'.program == i.program && i'.state == i.state && i'.restarts == 0
    ensures s'.sent == s.sent && s'.owner == s.owner && s'.inflight == s.inflight && s'.started == s.started
  {
    Theorems.LogHolds(s);
    s' := Take(s, Restart);
    assert s'.core.table == Replay(s.core.log);
  }

  lemma BegunLined(max: nat) returns (s: Sys)
    requires max > 0
    ensures Lined(s, max, 0, 0, 1) && "a" in s.connected
  {
    hide Reachable;
    s := Begun(max);
    assert Below(1) == {0};
  }

  lemma AllowanceNext(lives: nat, max: nat)
    ensures Lifetimes.Allowance(lives + 1, max) == max + Lifetimes.Allowance(lives, max)
    ensures Lifetimes.Allowance(0, max) == 0
  {
  }

  lemma {:induction false} SpendAll(max: nat, lives: nat) returns (s: Sys)
    requires max > 0
    ensures Lined(s, max, lives, max, 1 + Lifetimes.Allowance(lives + 1, max))
  {
    hide *;
    AllowanceNext(lives, max);
    if lives == 0 {
      s := BegunLined(max);
      s := Spend(s, "a", max, 0, 0, 1);
    } else {
      var n := 1 + Lifetimes.Allowance(lives, max);
      var t := SpendAll(max, lives - 1);
      var t', lord := NextLife(t, max, lives - 1, n);
      s := Spend(t', lord, max, lives, 0, n);
    }
  }

  lemma BelowStep(all: nat, n: nat)
    requires 0 < n <= all
    ensures Below(n) == Below(n - 1) + {n - 1} && n - 1 in Below(all) - Below(n - 1)
    ensures Below(all) - Below(n - 1) - {n - 1} == Below(all) - Below(n)
  {
  }

  lemma {:induction false} HandleAll(s: Sys, n: nat) returns (s': Sys)
    requires Reachable(s) && n <= |s.sent| && s.inflight == Below(|s.sent|) && s.started == {}
    requires forall i | 0 <= i < |s.sent| :: s.sent[i].lord in s.owner
    ensures Reachable(s') && s'.core == s.core && s'.sent == s.sent && s'.owner == s.owner && s'.lives == s.lives
    ensures s'.inflight == Below(|s.sent|) - Below(n) && s'.started == Below(n)
    decreases n
  {
    if n == 0 {
      hide Reachable;
      s' := s;
    } else {
      hide *;
      var t := HandleAll(s, n - 1);
      BelowStep(|s.sent|, n);
      s' := HandleUp(t, n - 1);
    }
  }

  lemma AllStarted(s: Sys, n: nat)
    requires s.started == Below(n) && |s.sent| == n && forall i | 0 <= i < n :: s.sent[i].req.processId == "p"
    ensures |Lifetimes.AllStartsOf(s, "p")| == n
  {
    assert Lifetimes.AllStartsOf(s, "p") == Below(n);
  }

  /** For every limit and every number of scheduler restarts some run starts as many OS
      processes as the limit allows over all lifetimes. */
  lemma AllLifetimesSpent(max: nat, lives: nat) returns (s: Sys)
    requires max > 0
    ensures Reachable(s) && s.lives == lives
    ensures "p" in s.core.table && s.core.table["p"].info.program.maxRestarts == max
    ensures |Lifetimes.AllStartsOf(s, "p")| == 1 + (lives + 1) * max
  {
    hide Reachable, Lifetimes.AllStartsOf, Lifetimes.Allowance, Below;
    var t := SpendAll(max, lives);
    s := HandleAll(t, |t.sent|);
    AllStarted(s, |t.sent|);
    Lifetimes.AllowanceIs(lives + 1, max);
  }
}
