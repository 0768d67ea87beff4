/** The scheduler's methods make steps of the transition system: a server coupled with a
    reachable state is, after each of them, coupled with one that its step leads to. So what
    the theorems say of reachable states holds of the objects. */
module Coupling {
  import opened Process
  import opened Clock
  import opened Sequences
  import opened Journal
  import opened Lifecycle
  import opened Protocol
  import opened Recovery
  import opened Scheduler
  import Autoscale
  import Composition
  import Placement
  import Theorems

  /** Same table and log, same requests, timers and open sessions; and s can be reached. */
  ghost predicate Coupled(v: Server, s: Sys)
    reads v, v.processes
  {
    && v.View() == s.core && v.sent == s.sent && v.timers == s.timers && v.sessions.Keys == s.connected
    && Reachable(s)
  }

  method Spawn(v: Server, ghost s: Sys, id: ProcId, req: SpawnRequest, prefer: LordId, room: bool)
    returns (r: SpawnResult, ghost s': Sys)
    requires v.Valid() && Coupled(v, s) && id !in v.processes.byID
    modifies v.processes, v.processes.wal, v`sessions, v`sent
    ensures v.Valid() && Coupled(v, s')
    ensures s' == s || exists lord, accepted ::
      Enabled(s, SpawnCall(id, lord, req, accepted)) && s' == Next(s, SpawnCall(id, lord, req, accepted))
  {
    hide Lifecycle.Spawn, OutboxesOk, Reachable, Next, BuildSpawnRequest;
    ghost var lord;
    r, lord := v.Spawn(id, req, prefer, room);
    s' := s;
    if r.NotSent? || r.Spawned? {
      assert ValidRequest(req) && id !in s.core.table;
      s' := SpawnedTo(s, id, lord, req, room);
      assert Enabled(s, SpawnCall(id, lord, req, room));
    }
  }

  lemma SpawnedTo(s: Sys, id: ProcId, lord: LordId, req: SpawnRequest, accepted: bool) returns (s': Sys)
    requires Reachable(s) && Enabled(s, SpawnCall(id, lord, req, accepted))
    ensures Reachable(s') && s' == Next(s, SpawnCall(id, lord, req, accepted))
    ensures s'.core == Lifecycle.Spawn(s.core, id, lord, req, accepted) && s'.timers == s.timers
    ensures s'.connected == s.connected
    ensures s'.sent == if accepted
      then s.sent + [Send(lord, BuildSpawnRequest(InfoFromRequest(id, lord, req), req))] else s.sent
  {
    Theorems.StepIsReachable(s, SpawnCall(id, lord, req, accepted));
    s' := Next(s, SpawnCall(id, lord, req, accepted));
  }

  lemma DeliveredTo(s: Sys, agent: Agent, lord: LordId) returns (s': Sys)
    requires Reachable(s) && Enabled(s, Deliver(agent, lord))
    ensures Reachable(s') && s' == Next(s, Deliver(agent, lord))
    ensures s'.core == Receive(s.core, s.sent, s.up[agent][0], lord) && s'.sent == s.sent
    ensures s'.timers == s.timers && s'.connected == s.connected
  {
    Theorems.StepIsReachable(s, Deliver(agent, lord));
    s' := Next(s, Deliver(agent, lord));
  }

  /** The head of an agent's outbox is a Started, and it arrives. */
  method HandleStarted(v: Server, ghost s: Sys, ghost agent: Agent, ghost run: nat, lord: LordId, id: ProcId,
                       localPid: int)
    returns (ghost s': Sys)
    requires v.Valid() && Coupled(v, s) && Enabled(s, Deliver(agent, lord))
    requires s.up[agent][0] == StartedMsg(run, localPid) && id == IdOf(s.sent, run)
    modifies v.processes.entries, v.processes`core, v.processes.wal
    ensures v.Valid() && Coupled(v, s') && s' == Next(s, Deliver(agent, lord))
  {
    v.HandleStarted(lord, id, localPid);
    s' := DeliveredTo(s, agent, lord);
  }

  method HandleProcessExit(v: Server, ghost s: Sys, ghost agent: Agent, ghost run: nat, ghost lord: LordId,
                           id: ProcId, code: int, signal: int)
    returns (ghost s': Sys)
    requires v.Valid() && Coupled(v, s) && Enabled(s, Deliver(agent, lord))
    requires s.up[agent][0] == ExitMsg(run, code, signal) && id == IdOf(s.sent, run)
    modifies v.processes.entries, v.processes`core, v.processes.wal
    ensures v.Valid() && Coupled(v, s') && s' == Next(s, Deliver(agent, lord))
  {
    v.HandleProcessExit(id, code, signal);
    s' := DeliveredTo(s, agent, lord);
  }

  method AckTimeout(v: Server, ghost s: Sys, timer: Timer) returns (ghost s': Sys)
    requires v.Valid() && Coupled(v, s) && Enabled(s, TimerFires(timer))
    modifies v.processes.entries, v.processes`core, v.processes.wal, v`timers
    ensures v.Valid() && Coupled(v, s') && s' == Next(s, TimerFires(timer))
  {
    Theorems.TimersHold(s);
    Theorems.StepIsReachable(s, TimerFires(timer));
    s' := Next(s, TimerFires(timer));
    v.AckTimeout(timer);
  }

  lemma RespawnedTo(s: Sys, id: ProcId, lord: LordId, accepted: bool) returns (s': Sys)
    requires Reachable(s) && Enabled(s, RespawnOn(id, lord, accepted))
    ensures Reachable(s') && s' == Next(s, RespawnOn(id, lord, accepted)) && s'.connected == s.connected
    ensures var (c, r) := Respawn(s.core, id, lord, accepted);
      && s'.core == c && s'.sent == s.sent + Queued(lord, r)
      && s'.timers == s.timers + Armed(Queued(lord, r), s.now)
  {
    RespawnTouchesOne(s.core, id, lord, accepted);
    Theorems.EntriesHold(s);
    var (c, r) := Respawn(s.core, id, lord, accepted);
    Composition.RespawningIs(s, id, lord, c, r);
    Theorems.StepIsReachable(s, RespawnOn(id, lord, accepted));
    s' := Next(s, RespawnOn(id, lord, accepted));
  }

  method Migrate(v: Server, ghost s: Sys, id: ProcId, target: LordId, auto: bool, room: bool, now: Time)
    returns (r: MigrateResult, ghost s': Sys)
    requires v.Valid() && Coupled(v, s) && now == s.now
    modifies v.processes.entries, v.processes`core, v.processes.wal, v`sessions, v`sent, v`timers
    ensures v.Valid() && Coupled(v, s')
    ensures s' == s || exists lord, accepted ::
      Enabled(s, RespawnOn(id, lord, accepted)) && s' == Next(s, RespawnOn(id, lord, accepted))
  {
    hide Respawn, OutboxesOk, Reachable, Next, Armed;
    ghost var lord;
    r, lord := v.Migrate(id, target, auto, room, now);
    s' := s;
    if r.Acknowledged? || r.RespawnFailed? {
      s' := RespawnedTo(s, id, lord, old(v.Takes(lord, room)));
      assert Enabled(s, RespawnOn(id, lord, old(v.Takes(lord, room))));
    }
  }

  method ApplyDecision(v: Server, ghost s: Sys, d: Autoscale.Decision, age: ProcId -> nat, room: bool, now: Time)
    returns (ghost s': Sys)
    requires v.Valid() && Coupled(v, s) && now == s.now && "" !in v.View().table
    modifies v.processes.entries, v.processes`core, v.processes.wal, v`sessions, v`sent, v`timers
    ensures v.Valid() && Coupled(v, s')
    ensures s' == s || exists id, lord, accepted ::
      Enabled(s, RespawnOn(id, lord, accepted)) && s' == Next(s, RespawnOn(id, lord, accepted))
  {
    hide Respawn, OutboxesOk, Reachable, Next, Armed;
    ghost var id, lord := v.ApplyDecision(d, age, room, now);
    s' := s;
    if CanMove(v.lords.byID, s.core.table, age, d) {
      s' := RespawnedTo(s, id, lord, old(v.Takes(lord, room)));
      assert Enabled(s, RespawnOn(id, lord, old(v.Takes(lord, room))));
    }
  }

  lemma ConnectedTo(s: Sys, from: LordId, to: LordId, agent: Agent) returns (s': Sys)
    requires Reachable(s) && Enabled(s, Connect(to, agent))
    ensures Reachable(s') && s'.core == Rebind(s.core, from, to) && s'.sent == s.sent
    ensures s'.timers == s.timers && s'.connected == s.connected + {to}
  {
    Theorems.StepIsReachable(s, Connect(to, agent));
    var t := Next(s, Connect(to, agent));
    Theorems.StepIsReachable(t, RebindTo(from, to));
    s' := Next(t, RebindTo(from, to));
  }

  /** A session opens under an id never used before, and the re-bind follows. */
  method ConnectLord(v: Server, ghost s: Sys, ghost agent: Agent, info: Placement.Lord, order: seq<LordId>, now: Time)
    returns (moved: nat, ghost s': Sys)
    requires v.Valid() && Coupled(v, s) && info.id != "" && info.id !in v.lords.byID && info.id !in s.owner
    requires Distinct(order) && forall id :: id in order <==> id in v.lords.byID || id == info.id
    modifies v`sessions, v.lords, v.processes.entries, v.processes`core
    ensures v.Valid() && Coupled(v, s')
  {
    s' := ConnectedTo(s, "", info.id, agent);
    moved := v.Connect(info, order, now);
    ghost var from := Placement.FirstNamed(v.lords.byID, order, info.hostname);
    s' := ConnectedTo(s, from, info.id, agent);
  }

  method DisconnectLord(v: Server, ghost s: Sys, lord: LordId) returns (ghost s': Sys)
    requires v.Valid() && Coupled(v, s) && lord in v.sessions
    modifies v`sessions, v.lords
    ensures v.Valid() && Coupled(v, s') && s' == Next(s, Disconnect(lord))
  {
    Theorems.StepIsReachable(s, Disconnect(lord));
    s' := Next(s, Disconnect(lord));
    v.Disconnect(lord);
  }

  lemma {:induction false} SendsOfAppend(a: seq<Send>, b: seq<Send>, id: ProcId)
    ensures SendsOf(a + b, |a|, id) == SendsOf(b, 0, id)
  {
    if b == [] {
      assert a + b == a;
    } else {
      var init, x := b[..|b| - 1], b[|b| - 1];
      SendsOfAppend(a, init, id);
      assert b == init + [x] && a + b == (a + init) + [x];
      SendsOfSnoc(a + init, |a|, id, x);
      SendsOfSnoc(init, 0, id, x);
    }
  }

  /** Attempt f is the first that finds a lord. */
  predicate FindsFirst(w: World, f: nat) {
    f < 10 && w.picks(f).Some? && forall k | 0 <= k < f :: w.picks(k).None?
  }

  lemma FirstFoundIs(w: World, f: nat)
    ensures FindsFirst(w, f) <==> f == FirstFound(w, 0) && f < 10
    ensures FirstFound(w, 0) == 10 <==> forall k | 0 <= k < 10 :: w.picks(k).None?
  {
  }

  /** At most ten attempts, no process gone or new, and nothing at all if none is found or
      nobody is taken up. */
  lemma RecoverKeeps(s: Sys, ids: seq<ProcId>, w: World, dead: LordId)
    requires Reachable(s) && (ids == [] || TakesUp(ids, s.core.table, dead))
    ensures AllIn(ids, s.core.table)
    ensures var e := Recovery.Recover(s.core, ids, Through(w, s.connected));
      && e.core.table.Keys == s.core.table.Keys && e.attempts <= 10
      && (ids == [] || (forall k | 0 <= k < 10 :: w.picks(k).None?) ==> e.core == s.core && e.sent == [])
  {
    var v := Through(w, s.connected);
    FirstFoundIs(w, 0);
    Composition.SameFirstFound(w, s.connected, 0);
    RecoverNobody(s.core, v);
    Theorems.EntriesHold(s);
    if ids != [] { RecoveryOutcome(s.core, ids, v, dead, ids[0]); }
    hide Recovery.Recover, FirstFound, Reachable, SendsOf, Armed, Through;
  }

  lemma ThroughIs(w: World, open: set<LordId>, f: nat, id: ProcId)
    requires w.picks(f).Some?
    ensures var v := Through(w, open);
      && v.picks == w.picks
      && (v.accepts(f, id) <==> w.picks(f).value in (if f == 0 then open else w.open(f)) && w.accepts(f, id))
  {
    assert w.picks(f).value in OpenAt(w, open, f) <==> w.picks(f).value in (if f == 0 then open else w.open(f));
    assert Through(w, open).accepts(f, id) == (w.picks(f).value in OpenAt(w, open, f) && w.accepts(f, id));
  }

  /** What becomes of a process in a recovery of `dead` whose attempt f found a lord. One on the
      dead lord is stopped: with code -4 where it was if no restart is left, else moved, counted
      and stopped with code -5 or -2, as its one request was taken or not. One on another lord,
      finished or RESTARTING is as it was, and there is no request for it. */
  ghost predicate Became(s: Sys, s': Sys, w: World, dead: LordId, id: ProcId, f: nat)
    requires w.picks(f).Some? && id in s.core.table && id in s'.core.table
  {
    var was, now, lord := s.core.table[id].info, s'.core.table[id].info, w.picks(f).value;
    var open := if f == 0 then s.connected else w.open(f);
    var spent := was.program.maxRestarts >= 0 && was.restarts >= was.program.maxRestarts;
    var taken := lord in open && w.accepts(f, id);
    if was.lord == dead && was.state !in {Exited, Stopped, Restarting} then
      && SendsOf(s'.sent, |s.sent|, id) == (if !spent && taken then 1 else 0)
      && now == if spent then was.(state := Stopped, exitCode := -4, exitSignal := 0)
                else was.(state := Stopped, lord := lord, restarts := was.restarts + 1,
                          exitCode := if taken then -5 else -2, exitSignal := 0)
    else
      s'.core.table[id] == s.core.table[id] && SendsOf(s'.sent, |s.sent|, id) == 0
  }

  lemma RecoverTells(s: Sys, s': Sys, ids: seq<ProcId>, w: World, dead: LordId, id: ProcId, f: nat)
    requires Reachable(s) && TakesUp(ids, s.core.table, dead) && id in s.core.table && FindsFirst(w, f)
    requires AllIn(ids, s.core.table) && s'.core.table.Keys == s.core.table.Keys
    requires var e := Recovery.Recover(s.core, ids, Through(w, s.connected));
      s'.core == e.core && s'.sent == s.sent + e.sent
    ensures Became(s, s', w, dead, id, f)
  {
    hide Recovery.Recover, FirstFound, Reachable, SendsOf, Armed, Through, TakesUp, Became;
    var v := Through(w, s.connected);
    assert FirstFound(v, 0) == f by { FirstFoundIs(w, f); Composition.SameFirstFound(w, s.connected, 0); }
    assert forall k | k in s.core.table :: s.core.table[k].info.id == k by { Theorems.EntriesHold(s); }
    RecoveryOutcome(s.core, ids, v, dead, id);
    SendsOfAppend(s.sent, Recovery.Recover(s.core, ids, v).sent, id);
    OutcomeIsBecame(s, s', v, w, dead, id, f);
  }

  lemma OutcomeIsBecame(s: Sys, s': Sys, v: World, w: World, dead: LordId, id: ProcId, f: nat)
    requires Reachable(s) && id in s.core.table && id in s'.core.table && w.picks(f).Some?
    requires v == Through(w, s.connected)
    requires
      var e, e' := s.core.table[id], s'.core.table[id];
      var spent := e.info.program.maxRestarts >= 0 && e.info.restarts >= e.info.program.maxRestarts;
      if e.info.lord == dead && e.info.state in {Running, Ready, Paused, Migrating} then
        && SendsOf(s'.sent, |s.sent|, id) == (if !spent && v.accepts(f, id) then 1 else 0)
        && e'.info ==
             if spent then e.info.(state := Stopped, exitCode := -4, exitSignal := 0)
             else e.info.(state := Stopped, lord := v.picks(f).value, restarts := e.info.restarts + 1,
                          exitCode := if v.accepts(f, id) then -5 else -2, exitSignal := 0)
      else
        e' == e && SendsOf(s'.sent, |s.sent|, id) == 0
    ensures Became(s, s', w, dead, id, f)
  {
    Theorems.StateClosure(s, id);
    ThroughIs(w, s.connected, f, id);
    hide Reachable, SendsOf, Through;
  }

  lemma RecoveredTo(s: Sys, ids: seq<ProcId>, w: World, dead: LordId, agent: Agent) returns (s': Sys)
    requires Reachable(s) && (ids == [] || TakesUp(ids, s.core.table, dead)) && Composition.FreshSessions(w, s)
    requires FirstFound(w, 0) < MAX_ATTEMPTS ==>
      s.now <= w.at(FirstFound(w, 0)) && forall t | t in s.timers :: w.at(FirstFound(w, 0)) <= t.due
    ensures Reachable(s') && AllIn(ids, s.core.table)
    ensures var e := Recovery.Recover(s.core, ids, Through(w, s.connected));
      && s'.core == e.core && s'.sent == s.sent + e.sent && s'.timers == s.timers + e.armed && e.attempts <= 10
      && s'.connected == OpenAfter(w, s.connected, e.attempts)
    ensures s'.core.table.Keys == s.core.table.Keys
    ensures ids == [] || (forall k | 0 <= k < 10 :: w.picks(k).None?) ==> s'.core == s.core && s'.sent == s.sent
  {
    s' := Composition.RecoveryIsRun(s, ids, w, agent);
    assert FirstFound(w, 0) < MAX_ATTEMPTS ==> Composition.DueFrom(s.timers, w.at(FirstFound(w, 0))) == s.timers;
    RecoverKeeps(s, ids, w, dead);
    assert s.sent + [] == s.sent;
    hide Recovery.Recover, Through, FirstFound, Reachable, Armed, TakesUp;
  }

  lemma RecoveredAll(s: Sys, s': Sys, ids: seq<ProcId>, w: World, dead: LordId)
    requires Reachable(s) && TakesUp(ids, s.core.table, dead) && AllIn(ids, s.core.table)
    requires s'.core.table.Keys == s.core.table.Keys
    requires var e := Recovery.Recover(s.core, ids, Through(w, s.connected));
      s'.core == e.core && s'.sent == s.sent + e.sent
    ensures forall f, id | FindsFirst(w, f) && id in s.core.table :: Became(s, s', w, dead, id, f)
  {
    hide Recovery.Recover, Through, Reachable, Became, TakesUp;
    forall f, id | FindsFirst(w, f) && id in s.core.table ensures Became(s, s', w, dead, id, f) {
      RecoverTells(s, s', ids, w, dead, id, f);
    }
  }

  /** A recovery, with sessions that come and go while it sleeps, and no ack timer due before
      the attempt that finds a lord. One that runs, because none of that lord was asked for in
      the last ten seconds, and that finds a lord, stops every process of the dead lord that is
      not finished or RESTARTING already. */
  method Recover(v: Server, ghost s: Sys, ghost agent: Agent, dead: LordId, now: Time, w: World)
    returns (attempts: nat, ghost s': Sys)
    requires v.Valid() && Coupled(v, s) && Composition.FreshSessions(w, s)
    requires FirstFound(w, 0) < MAX_ATTEMPTS ==>
      s.now <= w.at(FirstFound(w, 0)) && forall t | t in s.timers :: w.at(FirstFound(w, 0)) <= t.due
    modifies v.processes.entries, v.processes`core, v.processes.wal, v
    ensures v.Valid() && Coupled(v, s')
    ensures attempts <= 10 && v.lastRecoveryAt == old(v.lastRecoveryAt)[dead := now]
    ensures s'.core.table.Keys == s.core.table.Keys
    ensures
      var runs := dead !in old(v.lastRecoveryAt) || now - old(v.lastRecoveryAt)[dead] >= 10 * SECOND;
      && (!runs || (forall k | 0 <= k < 10 :: w.picks(k).None?) ==> s'.core == s.core && s'.sent == s.sent)
      && (runs ==> forall f, id | FindsFirst(w, f) && id in s.core.table :: Became(s, s', w, dead, id, f))
  {
    hide Reachable, Recovery.Recover, Through, TakesUp, FirstFound, Became, FindsFirst, OutboxesOk;
    ghost var ids;
    attempts, ids := v.RecoverFromLordDisconnect(dead, now, w);
    s' := RecoveredTo(s, ids, w, dead, agent);
    if TakesUp(ids, s.core.table, dead) { RecoveredAll(s, s', ids, w, dead); }
  }
}
