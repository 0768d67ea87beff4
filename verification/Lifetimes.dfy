/** OS processes and requests over several scheduler lifetimes. A restart gives back the
    whole restart budget, and requests pending at a restart may still be handled after it. */
module Lifetimes {
  import opened Process
  import opened Clock
  import opened Journal
  import opened Lifecycle
  import opened Protocol
  import opened TableInvariants
  import Theorems

  // ---------------------------------------------------------------------------
  // Within one lifetime
  // ---------------------------------------------------------------------------

  /** A request is of this lifetime, or was pending when it began, or was over before. */
  ghost predicate CarryInv(s: Sys) {
    && (forall n | n in s.inflight :: n in s.carried || n >= s.base)
    && (forall n | n in s.started :: n in s.earlier || n in s.carried || n >= s.base)
    && (forall n | n in s.started || n in s.carried :: n < |s.sent|)
    && (forall n | n in s.inflight :: n < |s.sent|)
    && s.base <= |s.sent|
  }

  lemma RespawnKeepsCarry(s: Sys, id: ProcId, lord: LordId, c: Core, r: Respawned)
    requires CarryInv(s)
    ensures CarryInv(Respawning(s, id, lord, c, r))
  {
  }

  lemma CarryInvTableStep(s: Sys, a: Action)
    requires CarryInv(s) && Enabled(s, a) && !OnLinks(a) && !a.RespawnOn?
    ensures CarryInv(Next(s, a))
  {
  }

  lemma CarryInvLinkStep(s: Sys, a: Action)
    requires CarryInv(s) && Enabled(s, a) && OnLinks(a)
    ensures CarryInv(Next(s, a))
  {
  }

  lemma CarryInvStep(s: Sys, a: Action)
    requires CarryInv(s) && Enabled(s, a)
    ensures CarryInv(Next(s, a))
  {
    hide CarryInv;
    if OnLinks(a) {
      CarryInvLinkStep(s, a);
    } else if a.RespawnOn? {
      var (c, r) := Respawn(s.core, a.id, a.lord, a.accepted);
      RespawnKeepsCarry(s, a.id, a.lord, c, r);
    } else {
      CarryInvTableStep(s, a);
    }
  }

  lemma {:induction false} RunKeepsCarry(now: Time, run: seq<Action>)
    requires IsRun(now, run)
    ensures CarryInv(After(now, run))
  {
    if run != [] {
      RunKeepsCarry(now, run[..|run| - 1]);
      CarryInvStep(After(now, run[..|run| - 1]), run[|run| - 1]);
    }
  }

  lemma CarryHolds(s: Sys)
    requires Reachable(s)
    ensures CarryInv(s) && BornInv(s)
  {
    var now, run :| IsRun(now, run) && After(now, run) == s;
    RunKeepsCarry(now, run);
    RunKeepsBorn(now, run);
  }

  /** Processes created in this lifetime have no requests from before it. */
  ghost predicate BornInv(s: Sys) {
    && (forall n | n in s.carried :: n < s.base)
    && (forall n | 0 <= n < s.base && n < |s.sent| :: s.sent[n].req.processId !in s.born)
  }

  lemma SpawnKeepsBorn(s: Sys, id: ProcId, lord: LordId, req: SpawnRequest, accepted: bool)
    requires BornInv(s) && SendInv(s) && id !in s.core.table
    ensures BornInv(SpawnStep(s, id, lord, req, accepted))
  {
    hide Spawn;
    assert forall n | 0 <= n < |s.sent| :: s.sent[n].req.processId in s.core.table;
  }

  lemma RespawnKeepsBorn(s: Sys, id: ProcId, lord: LordId, c: Core, r: Respawned)
    requires BornInv(s) && CarryInv(s)
    ensures BornInv(Respawning(s, id, lord, c, r))
  {
  }

  lemma OtherKeepsBorn(s: Sys, a: Action)
    requires BornInv(s) && CarryInv(s) && Enabled(s, a)
    requires !OnLinks(a) && !a.SpawnCall? && !a.RespawnOn?
    ensures BornInv(Next(s, a))
  {
  }

  lemma BornInvStep(s: Sys, a: Action)
    requires BornInv(s) && CarryInv(s) && SendInv(s) && Enabled(s, a)
    ensures BornInv(Next(s, a))
  {
    hide BornInv;
    if OnLinks(a) {
      OnLinksFrame(s, a);
      BornFrame(s, Next(s, a));
    } else if a.SpawnCall? {
      SpawnKeepsBorn(s, a.id, a.lord, a.req, a.accepted);
    } else if a.RespawnOn? {
      var (c, r) := Respawn(s.core, a.id, a.lord, a.accepted);
      RespawnKeepsBorn(s, a.id, a.lord, c, r);
    } else {
      OtherKeepsBorn(s, a);
    }
  }

  lemma BornFrame(s: Sys, s': Sys)
    requires BornInv(s) && s'.sent == s.sent && s'.base == s.base && s'.born == s.born && s'.carried == s.carried
    ensures BornInv(s')
  {
  }

  lemma {:induction false} RunKeepsBorn(now: Time, run: seq<Action>)
    requires IsRun(now, run)
    ensures BornInv(After(now, run))
  {
    if run != [] {
      RunKeepsBorn(now, run[..|run| - 1]);
      RunKeepsCarry(now, run[..|run| - 1]);
      RunKeepsTableInv(now, run[..|run| - 1]);
      BornInvStep(After(now, run[..|run| - 1]), run[|run| - 1]);
    }
  }

  ghost predicate For(s: Sys, n: nat, id: ProcId) { n < |s.sent| && s.sent[n].req.processId == id }

  /** The OS processes started for one process in this scheduler lifetime. */
  ghost function StartsOf(s: Sys, id: ProcId): set<nat> {
    set n | n in s.started && n !in s.earlier && For(s, n, id)
  }

  /** Its requests that were pending when the lifetime began. */
  ghost function CarriedOf(s: Sys, id: ProcId): set<nat> {
    set n | n in s.carried && For(s, n, id)
  }

  lemma {:induction false} CountBound(sent: seq<Send>, base: nat, id: ProcId, runs: set<nat>)
    requires forall n | n in runs :: base <= n < |sent| && sent[n].req.processId == id
    ensures |runs| <= SendsOf(sent, base, id)
  {
    if |sent| <= base {
      assert runs == {};
    } else {
      var top := |sent| - 1;
      CountBound(sent[..top], base, id, runs - {top});
      if top !in runs { assert runs - {top} == runs; }
    }
  }

  lemma UnionBound<T>(a: set<T>, b: set<T>, c: set<T>)
    requires a <= b + c
    ensures |a| <= |b| + |c|
  {
    assert |b + c| == |b| + |c - b| && c - b <= c;
    assert c == (c - b) + (c * b);
    assert b + c == a + (b + c - a);
  }

  /** In one scheduler lifetime lords start at most as many OS processes for a process as its
      restarts allow, and one more for its creation if it was created in this lifetime, else
      one for each of its requests that were pending when the lifetime began. */
  lemma ExecutionBound(s: Sys, id: ProcId)
    requires Reachable(s) && id in s.core.table
    ensures
      var info := s.core.table[id].info;
      var first := if id in s.born then 1 else |CarriedOf(s, id)|;
      && |StartsOf(s, id)| <= info.restarts + first
      && (info.program.maxRestarts >= 0 ==> |StartsOf(s, id)| <= info.program.maxRestarts + first)
  {
    Theorems.SendsHold(s);
    CarryHolds(s);
    var sentNow := set n | n in StartsOf(s, id) && n >= s.base;
    CountBound(s.sent, s.base, id, sentNow);
    UnionBound(StartsOf(s, id), CarriedOf(s, id), sentNow);
    if id in s.born { assert CarriedOf(s, id) == {}; }
  }

  // ---------------------------------------------------------------------------
  // Over all lifetimes
  // ---------------------------------------------------------------------------

  /** How many restarts the limit allows over some lifetimes. */
  function Allowance(lives: nat, max: nat): nat {
    if lives == 0 then 0 else max + Allowance(lives - 1, max)
  }

  lemma {:induction false} AllowanceIs(lives: nat, max: nat)
    ensures Allowance(lives, max) == lives * max
  {
    if lives > 0 {
      AllowanceIs(lives - 1, max);
      assert lives * max == (lives - 1) * max + max;
    }
  }

  ghost predicate Covered(sent: seq<Send>, lives: nat, t: Table) {
    forall id {:trigger t[id]} | id in t && t[id].info.program.maxRestarts >= 0 ::
      SendsOf(sent, 0, id) <= 1 + Allowance(lives, t[id].info.program.maxRestarts) + t[id].info.restarts
  }

  ghost predicate LivesInv(s: Sys) {
    Covered(s.sent, s.lives, s.core.table)
  }

  lemma SameBudgetKeepsCovered(sent: seq<Send>, lives: nat, t: Table, t': Table)
    requires Covered(sent, lives, t) && SameBudget(t, t')
    ensures Covered(sent, lives, t')
  {
    forall id | id in t' && t'[id].info.program.maxRestarts >= 0
      ensures SendsOf(sent, 0, id) <= 1 + Allowance(lives, t'[id].info.program.maxRestarts) + t'[id].info.restarts
    {
      assert id in t;
    }
  }

  /** One more request for `id`: its first, or one with one more restart. */
  lemma QueueKeepsCovered(sent: seq<Send>, lives: nat, t: Table, t': Table, id: ProcId, x: Send)
    requires Covered(sent, lives, t) && x.req.processId == id && id in t' && t' == t[id := t'[id]]
    requires if id in t
      then t'[id].info.program == t[id].info.program && t'[id].info.restarts == t[id].info.restarts + 1
      else SendsOf(sent, 0, id) == 0
    ensures Covered(sent + [x], lives, t')
  {
    forall k | k in t' && t'[k].info.program.maxRestarts >= 0
      ensures SendsOf(sent + [x], 0, k) <= 1 + Allowance(lives, t'[k].info.program.maxRestarts) + t'[k].info.restarts
    {
      SendsOfSnoc(sent, 0, k, x);
      if k != id { assert k in t; }
    }
  }

  lemma SpawnAddsOne(c: Core, id: ProcId, lord: LordId, req: SpawnRequest, accepted: bool)
    requires id !in c.table
    ensures var t' := Spawn(c, id, lord, req, accepted).table; id in t' && t' == c.table[id := t'[id]]
  {
  }

  lemma SpawnKeepsLives(s: Sys, id: ProcId, lord: LordId, req: SpawnRequest, accepted: bool)
    requires LivesInv(s) && SendInv(s) && id !in s.core.table
    ensures LivesInv(SpawnStep(s, id, lord, req, accepted))
  {
    SendsOfAbsent(s.sent, 0, id);
    SpawnAddsOne(s.core, id, lord, req, accepted);
    hide Spawn, SendInv, SendsOf;
    var t' := Spawn(s.core, id, lord, req, accepted).table;
    if accepted {
      var x := Send(lord, BuildSpawnRequest(InfoFromRequest(id, lord, req), req));
      assert x.req.processId == id;
      hide BuildSpawnRequest, InfoFromRequest, Covered;
      QueueKeepsCovered(s.sent, s.lives, s.core.table, t', id, x);
    }
  }

  lemma RespawnKeepsLives(s: Sys, id: ProcId, lord: LordId, accepted: bool, c: Core, r: Respawned)
    requires LivesInv(s) && TouchesOne(s.core, c, id, accepted, r) && s.core.table[id].info.id == id
    ensures LivesInv(Respawning(s, id, lord, c, r))
  {
    if r.Sent? { QueueKeepsCovered(s.sent, s.lives, s.core.table, c.table, id, Send(lord, r.req)); }
  }

  /** A lifetime ends: its restarts, at most the limit, become part of the allowance. */
  lemma RestartKeepsLives(s: Sys)
    requires LivesInv(s) && SendInv(s) && LogInv(s)
    ensures LivesInv(Next(s, Restart))
  {
    RestartCovers(s.sent, s.base, s.lives, s.core, s.unlogged, s.born);
    assert Next(s, Restart).core.table == Replay(s.core.log);
  }

  lemma RestartCovers(sent: seq<Send>, base: nat, lives: nat, c: Core, unlogged: set<ProcId>, born: set<ProcId>)
    requires Covered(sent, lives, c.table) && Budgeted(sent, base, c.table, born) && Logged(c, unlogged)
    ensures Covered(sent, lives + 1, Replay(c.log))
  {
    var t, t' := c.table, Replay(c.log);
    forall id | id in t' && t'[id].info.program.maxRestarts >= 0
      ensures SendsOf(sent, 0, id) <= 1 + Allowance(lives + 1, t'[id].info.program.maxRestarts) + t'[id].info.restarts
    {
      assert id in t && t'[id].info.program == t[id].info.program;
    }
  }

  lemma LivesInvStep(s: Sys, a: Action)
    requires LivesInv(s) && LogInv(s) && EntryInv(s) && SendInv(s) && Enabled(s, a)
    ensures LivesInv(Next(s, a))
  {
    hide Covered;
    if OnLinks(a) { OnLinksFrame(s, a); return; }
    match a
    case SpawnCall(id, lord, req, accepted) => SpawnKeepsLives(s, id, lord, req, accepted);
    case RespawnOn(id, lord, accepted) =>
      RespawnTouchesOne(s.core, id, lord, accepted);
      var (c, r) := Respawn(s.core, id, lord, accepted);
      RespawnKeepsLives(s, id, lord, accepted, c, r);
    case Restart => RestartKeepsLives(s);
    case Deliver(agent, lord) =>
      ReceiveBudget(s.core, s.sent, s.up[agent][0], lord);
      SameBudgetKeepsCovered(s.sent, s.lives, s.core.table, Next(s, a).core.table);
    case RebindTo(from, to) =>
      RebindBudget(s.core, from, to);
      SameBudgetKeepsCovered(s.sent, s.lives, s.core.table, Next(s, a).core.table);
    case CleanUp(id) =>
      GiveUpIsSameBudget(s.core, id, NO_LORD_LEFT);
      SameBudgetKeepsCovered(s.sent, s.lives, s.core.table, Next(s, a).core.table);
    case TimerFires(timer) =>
      GiveUpIsSameBudget(s.core, timer.id, ACK_TIMED_OUT);
      SameBudgetKeepsCovered(s.sent, s.lives, s.core.table, Next(s, a).core.table);
  }

  lemma GiveUpIsSameBudget(c: Core, id: ProcId, code: int)
    ensures SameBudget(c.table, GiveUp(c, id, code).table)
  {
  }

  lemma {:induction false} RunKeepsLives(now: Time, run: seq<Action>)
    requires IsRun(now, run)
    ensures LivesInv(After(now, run))
  {
    if run != [] {
      RunKeepsLives(now, run[..|run| - 1]);
      RunKeepsTableInv(now, run[..|run| - 1]);
      LivesInvStep(After(now, run[..|run| - 1]), run[|run| - 1]);
    }
  }

  /** Every OS process ever started for one process. */
  ghost function AllStartsOf(s: Sys, id: ProcId): set<nat> {
    set n | n in s.started && For(s, n, id)
  }

  /** Over any number of scheduler restarts lords start at most one OS process, and as many
      more as the limit allows in each lifetime. */
  lemma ExecutionsOverLifetimes(s: Sys, id: ProcId)
    requires Reachable(s) && id in s.core.table && s.core.table[id].info.program.maxRestarts >= 0
    ensures |AllStartsOf(s, id)| <= 1 + (s.lives + 1) * s.core.table[id].info.program.maxRestarts
  {
    var now, run :| IsRun(now, run) && After(now, run) == s;
    RunKeepsLives(now, run);
    Theorems.SendsHold(s);
    CountBound(s.sent, 0, id, AllStartsOf(s, id));
    var max := s.core.table[id].info.program.maxRestarts;
    AllowanceIs(s.lives + 1, max);
    assert s.core.table[id].info.restarts <= max;
  }

  /** The OS processes of one process that run at the same time. */
  ghost function RunningOf(s: Sys, id: ProcId): set<nat> {
    set n | n in s.live && For(s, n, id)
  }

  /** A respawn stops nothing, so all of them may be running; they are no more than that. */
  lemma RunningBound(s: Sys, id: ProcId)
    requires Reachable(s) && id in s.core.table && s.core.table[id].info.program.maxRestarts >= 0
    ensures |RunningOf(s, id)| <= 1 + (s.lives + 1) * s.core.table[id].info.program.maxRestarts
  {
    ExecutionsOverLifetimes(s, id);
    Theorems.LinksHold(s);
    assert RunningOf(s, id) <= AllStartsOf(s, id);
    UnionBound(RunningOf(s, id), AllStartsOf(s, id), {});
  }
}
