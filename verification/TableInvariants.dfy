/** Invariants of the transition system about table entries, the log, the restart budget
    and the ack timers. */
module TableInvariants {
  import opened Process
  import opened Clock
  import opened Journal
  import opened Lifecycle
  import opened Protocol

  // ---------------------------------------------------------------------------
  // The log agrees with the table
  // ---------------------------------------------------------------------------

  ghost predicate Logged(c: Core, unlogged: set<ProcId>) {
    CoreAgrees(c, unlogged) && NoRestarts(Replay(c.log)) && Tallied(c.table.Keys, c.log)
  }

  /** A replay counts every record, and as many creations as there are processes. */
  ghost predicate Tallied(ids: set<ProcId>, log: seq<Record>) {
    var n := TallyAll(map[], log);
    n.creates == |ids| && n.creates + n.states + n.results == |log|
  }

  ghost predicate LogInv(s: Sys) {
    Logged(s.core, s.unlogged) && "" !in s.connected
  }

  lemma LoggedCreate(c: Core, info: Info, unlogged: set<ProcId>)
    requires Logged(c, unlogged) && info.restarts == 0 && info.id !in c.table
    ensures Logged(Create(c, info), unlogged)
  {
    CreateAgrees(c, info, unlogged);
    ReplaySnoc(map[], c.log, CreateRecord(info));
    assert Create(c, info).table.Keys == c.table.Keys + {info.id};
  }

  lemma LoggedState(c: Core, id: ProcId, st: PState, lord: LordId, localPid: int, unlogged: set<ProcId>)
    requires Logged(c, unlogged) && id in c.table
    ensures Logged(UpdateState(c, id, st, lord, localPid), if lord == "" then unlogged else unlogged - {id})
  {
    UpdateStateAgrees(c, id, st, lord, localPid, unlogged);
    ReplaySnoc(map[], c.log, StateRecord(id, st, lord, localPid));
    StateNames(st, StateName(st));
    assert UpdateState(c, id, st, lord, localPid).table.Keys == c.table.Keys;
  }

  lemma LoggedResult(c: Core, id: ProcId, code: int, signal: int, unlogged: set<ProcId>)
    requires Logged(c, unlogged) && id in c.table
    ensures Logged(UpdateResult(c, id, code, signal), unlogged)
  {
    UpdateResultAgrees(c, id, code, signal, unlogged);
    ReplaySnoc(map[], c.log, ResultRecord(id, code, signal));
    assert UpdateResult(c, id, code, signal).table.Keys == c.table.Keys;
  }

  lemma LoggedFinalize(c: Core, id: ProcId, code: int, unlogged: set<ProcId>)
    requires Logged(c, unlogged) && id in c.table
    ensures Logged(Finalize(c, id, code), unlogged)
  {
    LoggedState(c, id, Stopped, "", 0, unlogged);
    LoggedResult(UpdateState(c, id, Stopped, "", 0), id, code, 0, unlogged);
  }

  lemma LoggedGiveUp(c: Core, id: ProcId, code: int, unlogged: set<ProcId>)
    requires Logged(c, unlogged)
    ensures Logged(GiveUp(c, id, code), unlogged)
  {
    if id in c.table && c.table[id].info.state == Restarting { LoggedFinalize(c, id, code, unlogged); }
  }

  lemma LoggedReassign(c: Core, id: ProcId, lord: LordId, restarts: nat, unlogged: set<ProcId>)
    requires Logged(c, unlogged) && id in c.table
    ensures Logged(Reassign(c, id, lord, restarts), unlogged + {id})
  {
  }

  lemma LoggedRebind(c: Core, from: LordId, to: LordId, unlogged: set<ProcId>)
    requires Logged(c, unlogged)
    ensures Logged(Rebind(c, from, to), unlogged + Unlogged(c, from, to))
  {
  }

  lemma LoggedMark(c: Core, id: ProcId, lord: LordId, unlogged: set<ProcId>)
    requires Logged(c, unlogged) && id in c.table
    ensures Logged(MarkRestarting(c, id, lord), unlogged + {id})
  {
    var c1 := UpdateState(c, id, Restarting, "", 0);
    LoggedState(c, id, Restarting, "", 0, unlogged);
    LoggedReassign(c1, id, lord, c.table[id].info.restarts + 1, unlogged);
  }

  lemma LoggedRespawn(c: Core, id: ProcId, lord: LordId, accepted: bool, unlogged: set<ProcId>)
    requires Logged(c, unlogged) && id in c.table
    ensures var (c', r) := Respawn(c, id, lord, accepted);
      Logged(c', if r.AlreadyFinal? || r.OverBudget? then unlogged else unlogged + {id})
  {
    hide Logged, UpdateState, UpdateResult;
    LoggedFinalize(c, id, BUDGET_SPENT, unlogged);
    LoggedMark(c, id, lord, unlogged);
    LoggedFinalize(MarkRestarting(c, id, lord), id, RESPAWN_SEND_FAILED, unlogged + {id});
  }

  lemma LoggedReceive(c: Core, sent: seq<Send>, m: Msg, lord: LordId, unlogged: set<ProcId>)
    requires Logged(c, unlogged) && lord != ""
    ensures Logged(Receive(c, sent, m, lord), if m.StartedMsg? then unlogged - {IdOf(sent, m.run)} else unlogged)
  {
    var id := IdOf(sent, m.run);
    if id in c.table {
      match m
      case StartedMsg(_, localPid) => LoggedState(c, id, Running, lord, localPid, unlogged);
      case ExitMsg(_, code, signal) =>
        LoggedState(c, id, ExitState(signal), "", 0, unlogged);
        LoggedResult(UpdateState(c, id, ExitState(signal), "", 0), id, code, signal, unlogged);
    }
  }

  lemma LoggedRestart(c: Core, unlogged: set<ProcId>)
    requires Logged(c, unlogged)
    ensures Logged(Core(Replay(c.log), c.log), {})
  {
  }

  lemma LogInvTableStep(s: Sys, a: Action)
    requires LogInv(s) && Enabled(s, a) && !OnLinks(a)
    ensures LogInv(Next(s, a))
  {
    hide Logged, UpdateState, UpdateResult, MarkRestarting, Rebind, Replay, Remove, BuildSpawnRequest;
    match a
    case SpawnCall(id, lord, req, accepted) =>
      var info := InfoFromRequest(id, lord, req);
      LoggedCreate(s.core, info, s.unlogged);
      if !accepted { LoggedFinalize(Create(s.core, info), id, SEND_FAILED, s.unlogged); }
    case Deliver(agent, lord) => LoggedReceive(s.core, s.sent, s.up[agent][0], lord, s.unlogged);
    case RebindTo(from, to) => LoggedRebind(s.core, from, to, s.unlogged);
    case RespawnOn(id, lord, accepted) => LoggedRespawn(s.core, id, lord, accepted, s.unlogged);
    case CleanUp(id) => LoggedGiveUp(s.core, id, NO_LORD_LEFT, s.unlogged);
    case TimerFires(timer) => LoggedGiveUp(s.core, timer.id, ACK_TIMED_OUT, s.unlogged);
    case Restart => LoggedRestart(s.core, s.unlogged);
    case _ =>
  }

  lemma LogInvStep(s: Sys, a: Action)
    requires LogInv(s) && Enabled(s, a)
    ensures LogInv(Next(s, a))
  {
    if OnLinks(a) { OnLinksFrame(s, a); } else { LogInvTableStep(s, a); }
  }

  // ---------------------------------------------------------------------------
  // States and the exited channel
  // ---------------------------------------------------------------------------

  const STATES: set<PState> := {Ready, Running, Restarting, Exited, Stopped}

  predicate EverFinal(hist: seq<PState>) {
    exists i | 0 <= i < |hist| :: Final(hist[i])
  }

  /** The channel is closed, once, exactly when some state so far was final. */
  ghost predicate ChannelOk(e: Entry) {
    && e.hist != [] && e.hist[|e.hist| - 1] == e.info.state
    && (forall st | st in e.hist :: st in STATES)
    && e.closes == if EverFinal(e.hist) then 1 else 0
  }

  lemma SetStateChannel(e: Entry, st: PState, lord: LordId, localPid: int)
    requires ChannelOk(e) && st in STATES
    ensures ChannelOk(SetState(e, st, lord, localPid))
  {
    var e' := SetState(e, st, lord, localPid);
    assert e'.hist[|e.hist|] == st;
    if i :| 0 <= i < |e.hist| && Final(e.hist[i]) { assert Final(e'.hist[i]); }
    if Final(st) { assert Final(e'.hist[|e.hist|]); }
  }

  ghost predicate TableOk(t: Table) {
    forall id {:trigger t[id]} | id in t :: t[id].info.id == id && ChannelOk(t[id])
  }

  lemma StateOk(c: Core, id: ProcId, st: PState, lord: LordId, localPid: int)
    requires TableOk(c.table) && id in c.table && st in STATES
    ensures TableOk(UpdateState(c, id, st, lord, localPid).table)
  {
    SetStateChannel(c.table[id], st, lord, localPid);
  }

  lemma FinalizeOk(c: Core, id: ProcId, code: int)
    requires TableOk(c.table) && id in c.table
    ensures TableOk(Finalize(c, id, code).table)
  {
    StateOk(c, id, Stopped, "", 0);
  }

  lemma GiveUpOk(c: Core, id: ProcId, code: int)
    requires TableOk(c.table)
    ensures TableOk(GiveUp(c, id, code).table)
  {
    if id in c.table { FinalizeOk(c, id, code); }
  }

  lemma MarkOk(c: Core, id: ProcId, lord: LordId)
    requires TableOk(c.table) && id in c.table
    ensures TableOk(MarkRestarting(c, id, lord).table)
  {
    StateOk(c, id, Restarting, "", 0);
  }

  lemma RespawnOk(c: Core, id: ProcId, lord: LordId, accepted: bool)
    requires TableOk(c.table) && id in c.table
    ensures TableOk(Respawn(c, id, lord, accepted).0.table)
  {
    FinalizeOk(c, id, BUDGET_SPENT);
    MarkOk(c, id, lord);
    FinalizeOk(MarkRestarting(c, id, lord), id, RESPAWN_SEND_FAILED);
  }

  lemma SpawnOk(c: Core, id: ProcId, lord: LordId, req: SpawnRequest, accepted: bool)
    requires TableOk(c.table)
    ensures TableOk(Spawn(c, id, lord, req, accepted).table)
  {
    var c1 := Create(c, InfoFromRequest(id, lord, req));
    assert ChannelOk(c1.table[id]);
    FinalizeOk(c1, id, SEND_FAILED);
  }

  lemma ReceiveOk(c: Core, sent: seq<Send>, m: Msg, lord: LordId)
    requires TableOk(c.table)
    ensures TableOk(Receive(c, sent, m, lord).table)
  {
    var id := IdOf(sent, m.run);
    if id in c.table {
      match m
      case StartedMsg(_, localPid) => StateOk(c, id, Running, lord, localPid);
      case ExitMsg(_, _, signal) => StateOk(c, id, ExitState(signal), "", 0);
    }
  }

  lemma RebindOk(c: Core, from: LordId, to: LordId)
    requires TableOk(c.table)
    ensures TableOk(Rebind(c, from, to).table)
  {
  }

  lemma ReplayOk(c: Core, unlogged: set<ProcId>)
    requires TableOk(c.table) && Logged(c, unlogged)
    ensures TableOk(Replay(c.log))
  {
  }

  ghost predicate EntryInv(s: Sys) {
    TableOk(s.core.table)
  }

  lemma EntryInvTableStep(s: Sys, a: Action)
    requires EntryInv(s) && LogInv(s) && Enabled(s, a) && !OnLinks(a)
    ensures EntryInv(Next(s, a))
  {
    NextCoreIs(s, a);
    hide Next, Logged, TableOk, Respawn, Spawn, Rebind, Replay, GiveUp, Receive;
    match a
    case SpawnCall(id, lord, req, accepted) => SpawnOk(s.core, id, lord, req, accepted);
    case Deliver(agent, lord) => ReceiveOk(s.core, s.sent, s.up[agent][0], lord);
    case RebindTo(from, to) => RebindOk(s.core, from, to);
    case RespawnOn(id, lord, accepted) => RespawnOk(s.core, id, lord, accepted);
    case CleanUp(id) => GiveUpOk(s.core, id, NO_LORD_LEFT);
    case TimerFires(timer) => GiveUpOk(s.core, timer.id, ACK_TIMED_OUT);
    case Restart => ReplayOk(s.core, s.unlogged);
    case _ =>
  }

  lemma EntryInvStep(s: Sys, a: Action)
    requires EntryInv(s) && LogInv(s) && Enabled(s, a)
    ensures EntryInv(Next(s, a))
  {
    if OnLinks(a) { OnLinksFrame(s, a); } else { EntryInvTableStep(s, a); }
  }

  // ---------------------------------------------------------------------------
  // Spawn requests: fidelity and budget
  // ---------------------------------------------------------------------------

  /** Every request carries the recorded program. */
  ghost predicate Faithful(sent: seq<Send>, t: Table) {
    forall n | 0 <= n < |sent| ::
      && sent[n].req.processId in t
      && sent[n].req.(stdinInitial := []) == RespawnRequest(t[sent[n].req.processId].info)
  }

  /** Requests are covered by the creation and the restarts, restarts by the limit. */
  ghost predicate Budgeted(sent: seq<Send>, base: nat, t: Table, born: set<ProcId>) {
    forall id {:trigger t[id]} | id in t ::
      && SendsOf(sent, base, id) <= t[id].info.restarts + (if id in born then 1 else 0)
      && (t[id].info.program.maxRestarts >= 0 ==> t[id].info.restarts <= t[id].info.program.maxRestarts)
  }

  ghost predicate SendInv(s: Sys) {
    && s.base <= |s.sent|
    && Faithful(s.sent, s.core.table)
    && Budgeted(s.sent, s.base, s.core.table, s.born)
  }

  lemma SendsOfAbsent(sent: seq<Send>, base: nat, id: ProcId)
    requires forall n | 0 <= n < |sent| :: sent[n].req.processId != id
    ensures SendsOf(sent, base, id) == 0
  {
    if |sent| > base { SendsOfAbsent(sent[..|sent| - 1], base, id); }
  }

  lemma SendsOfNone(sent: seq<Send>, id: ProcId)
    ensures SendsOf(sent, |sent|, id) == 0
  {
  }

  /** Ids, programs and restart counts as they were. */
  ghost predicate SameBudget(t: Table, t': Table) {
    && t.Keys == t'.Keys
    && forall id | id in t :: id in t' && t'[id].info.id == t[id].info.id
         && t'[id].info.program == t[id].info.program && t'[id].info.restarts == t[id].info.restarts
  }

  lemma SameBudgetKeeps(sent: seq<Send>, base: nat, t: Table, t': Table, born: set<ProcId>)
    requires Faithful(sent, t) && Budgeted(sent, base, t, born) && SameBudget(t, t')
    ensures Faithful(sent, t') && Budgeted(sent, base, t', born)
  {
  }

  lemma SameRequest(i: Info, j: Info)
    requires i.id == j.id && i.program == j.program
    ensures RespawnRequest(i) == RespawnRequest(j)
  {
  }

  /** Queue one request for `id`, whose record may be new or one restart further. */
  lemma QueueKeeps(sent: seq<Send>, base: nat, t: Table, t': Table, born: set<ProcId>, id: ProcId, x: Send)
    requires base <= |sent| && Faithful(sent, t) && Budgeted(sent, base, t, born)
    requires id in t' && SameBudget(t - {id}, t' - {id})
    requires id in t ==> t'[id].info.id == t[id].info.id && t'[id].info.program == t[id].info.program
    requires x.req.processId == id && x.req.(stdinInitial := []) == RespawnRequest(t'[id].info)
    requires t'[id].info.program.maxRestarts >= 0 ==> t'[id].info.restarts <= t'[id].info.program.maxRestarts
    requires SendsOf(sent, base, id) + 1 <= t'[id].info.restarts + if id in born then 1 else 0
    ensures Faithful(sent + [x], t') && Budgeted(sent + [x], base, t', born)
  {
    hide RespawnRequest;
    forall k | k in t'
      ensures SendsOf(sent + [x], base, k) <= t'[k].info.restarts + (if k in born then 1 else 0)
    {
      SendsOfSnoc(sent, base, k, x);
      if k != id { assert k in t - {id} && k in t' - {id}; }
    }
    forall k | k in t' && k != id
      ensures k in t && t'[k].info.id == t[k].info.id
        && t'[k].info.program == t[k].info.program && t'[k].info.restarts == t[k].info.restarts
    {
      assert k in t' - {id} && k in t - {id};
    }
    forall n | 0 <= n < |sent| ensures sent[n].req.processId in t' &&
      sent[n].req.(stdinInitial := []) == RespawnRequest(t'[sent[n].req.processId].info)
    {
      var k := sent[n].req.processId;
      if k != id { assert k in t - {id}; }
      SameRequest(t[k].info, t'[k].info);
    }
  }

  /** A new record, without a request. */
  lemma AddKeeps(sent: seq<Send>, base: nat, t: Table, born: set<ProcId>, id: ProcId, e: Entry)
    requires Faithful(sent, t) && Budgeted(sent, base, t, born) && id !in t && e.info.restarts == 0
    ensures Faithful(sent, t[id := e]) && Budgeted(sent, base, t[id := e], born + {id})
  {
    hide RespawnRequest;
    SendsOfAbsent(sent, base, id);
  }

  lemma SpawnedCore(c: Core, id: ProcId, lord: LordId, req: SpawnRequest, accepted: bool)
    ensures var info, t := InfoFromRequest(id, lord, req), Spawn(c, id, lord, req, accepted).table;
      && id in t && t == c.table[id := t[id]] && t[id].info.restarts == 0
      && (accepted ==> t[id].info == info)
      && info.id == id && info.restarts == 0
  {
  }

  lemma SpawnBudget(s: Sys, id: ProcId, lord: LordId, req: SpawnRequest, accepted: bool)
    requires SendInv(s) && Enabled(s, SpawnCall(id, lord, req, accepted))
    ensures SendInv(SpawnStep(s, id, lord, req, accepted))
  {
    var info, t := InfoFromRequest(id, lord, req), s.core.table;
    var t' := Spawn(s.core, id, lord, req, accepted).table;
    var born := s.born + {id};
    SpawnedCore(s.core, id, lord, req, accepted);
    AddKeeps(s.sent, s.base, t, s.born, id, t'[id]);
    if accepted {
      SendsOfAbsent(s.sent, s.base, id);
      FirstSpawnIsRespawn(id, lord, req);
      SpawnCarries(id, lord, req);
      hide BuildSpawnRequest, RespawnRequest, Spawn, InfoFromRequest, Faithful, Budgeted, SendsOf, CarriesProgram;
      QueueKeeps(s.sent, s.base, t', t', born, id, Send(lord, BuildSpawnRequest(info, req)));
    }
  }

  /** One more restart, no request. */
  lemma RestartKeeps(sent: seq<Send>, base: nat, t: Table, t': Table, born: set<ProcId>, id: ProcId, e: Entry)
    requires Faithful(sent, t) && Budgeted(sent, base, t, born)
    requires id in t && t' == t[id := e]
    requires e.info.id == t[id].info.id && e.info.program == t[id].info.program
    requires e.info.restarts == t[id].info.restarts + 1
    requires e.info.program.maxRestarts >= 0 ==> e.info.restarts <= e.info.program.maxRestarts
    ensures Faithful(sent, t') && Budgeted(sent, base, t', born)
  {
  }

  lemma RespawnBudget(s: Sys, id: ProcId, lord: LordId, accepted: bool, c: Core, r: Respawned)
    requires SendInv(s) && TouchesOne(s.core, c, id, accepted, r) && s.core.table[id].info.id == id
    ensures SendInv(Respawning(s, id, lord, c, r))
  {
    var t, t' := s.core.table, c.table;
    match r
    case AlreadyFinal =>
    case OverBudget => SameBudgetKeeps(s.sent, s.base, t, t', s.born);
    case SendFailed => RestartKeeps(s.sent, s.base, t, t', s.born, id, t'[id]);
    case Sent(req) =>
      assert t - {id} == t' - {id};
      QueueKeeps(s.sent, s.base, t, t', s.born, id, Send(lord, req));
  }

  lemma RestartBudget(s: Sys)
    requires SendInv(s) && LogInv(s)
    ensures SendInv(Next(s, Restart))
  {
    forall id | id in s.core.table ensures SendsOf(s.sent, |s.sent|, id) == 0 {
      SendsOfNone(s.sent, id);
    }
  }

  lemma SendInvTableStep(s: Sys, a: Action)
    requires SendInv(s) && LogInv(s) && EntryInv(s) && Enabled(s, a) && !OnLinks(a)
    ensures SendInv(Next(s, a))
  {
    match a
    case SpawnCall(id, lord, req, accepted) => SpawnBudget(s, id, lord, req, accepted);
    case RespawnOn(id, lord, accepted) => RespawnStepBudget(s, id, lord, accepted);
    case Restart => RestartBudget(s);
    case Deliver(agent, lord) =>
      ReceiveBudget(s.core, s.sent, s.up[agent][0], lord);
      SameBudgetKeeps(s.sent, s.base, s.core.table, Next(s, a).core.table, s.born);
    case RebindTo(from, to) =>
      RebindBudget(s.core, from, to);
      SameBudgetKeeps(s.sent, s.base, s.core.table, Next(s, a).core.table, s.born);
    case CleanUp(id) => GiveUpBudget(s, id, NO_LORD_LEFT);
    case TimerFires(timer) => GiveUpBudget(s, timer.id, ACK_TIMED_OUT);
    case _ =>
  }

  lemma SendInvStep(s: Sys, a: Action)
    requires SendInv(s) && LogInv(s) && EntryInv(s) && Enabled(s, a)
    ensures SendInv(Next(s, a))
  {
    if OnLinks(a) { OnLinksFrame(s, a); } else { SendInvTableStep(s, a); }
  }

  lemma RespawnStepBudget(s: Sys, id: ProcId, lord: LordId, accepted: bool)
    requires SendInv(s) && EntryInv(s) && id in s.core.table
    ensures SendInv(RespawnStep(s, id, lord, accepted))
  {
    RespawnTouchesOne(s.core, id, lord, accepted);
    var (c, r) := Respawn(s.core, id, lord, accepted);
    RespawnBudget(s, id, lord, accepted, c, r);
  }

  lemma RebindBudget(c: Core, from: LordId, to: LordId)
    ensures SameBudget(c.table, Rebind(c, from, to).table)
  {
  }

  lemma ReceiveBudget(c: Core, sent: seq<Send>, m: Msg, lord: LordId)
    ensures SameBudget(c.table, Receive(c, sent, m, lord).table)
  {
  }

  lemma GiveUpBudget(s: Sys, id: ProcId, code: int)
    requires SendInv(s)
    ensures var c := GiveUp(s.core, id, code);
      Faithful(s.sent, c.table) && Budgeted(s.sent, s.base, c.table, s.born)
  {
    var c := GiveUp(s.core, id, code);
    assert SameBudget(s.core.table, c.table);
    SameBudgetKeeps(s.sent, s.base, s.core.table, c.table, s.born);
  }

  // ---------------------------------------------------------------------------
  // Ack timers
  // ---------------------------------------------------------------------------

  ghost predicate TimersOk(t: Table, now: Time, timers: set<Timer>, lastSend: map<ProcId, Time>,
                           respawned: set<ProcId>)
  {
    && (forall k | k in timers :: now <= k.due && k.id in lastSend)
    && (forall id | id in lastSend :: id in t && lastSend[id] <= now && id in respawned)
    && (forall id | id in t && t[id].info.state == Restarting ::
          && id in respawned
          && (id in lastSend ==> Timer(id, lastSend[id] + ACK_TIMEOUT) in timers))
  }

  ghost predicate TimerInv(s: Sys) {
    TimersOk(s.core.table, s.now, s.timers, s.lastSend, s.respawned)
  }

  /** Steps that put no process into RESTARTING. */
  ghost predicate NoneEnters(t: Table, t': Table) {
    t.Keys <= t'.Keys &&
    forall id | id in t' && t'[id].info.state == Restarting :: id in t && t[id].info.state == Restarting
  }

  lemma ArmTimer(s: Sys, t': Table, id: ProcId)
    requires TimerInv(s) && id in t' && t' == s.core.table[id := t'[id]]
    ensures TimersOk(t', s.now, s.timers + {Timer(id, s.now + ACK_TIMEOUT)}, s.lastSend[id := s.now],
                     s.respawned + {id})
  {
  }

  lemma TimerRespawn(s: Sys, id: ProcId, lord: LordId, accepted: bool, c: Core, r: Respawned)
    requires TimerInv(s) && TouchesOne(s.core, c, id, accepted, r)
    ensures TimerInv(Respawning(s, id, lord, c, r))
  {
    if r.Sent? { ArmTimer(s, c.table, id); }
  }

  lemma TimerRespawnStep(s: Sys, id: ProcId, lord: LordId, accepted: bool)
    requires TimerInv(s) && id in s.core.table
    ensures TimerInv(RespawnStep(s, id, lord, accepted))
  {
    RespawnTouchesOne(s.core, id, lord, accepted);
    var (c, r) := Respawn(s.core, id, lord, accepted);
    TimerRespawn(s, id, lord, accepted, c, r);
  }

  /** Giving up on the process of a fired timer leaves no RESTARTING entry without one. */
  lemma TimerFired(s: Sys, timer: Timer)
    requires TimerInv(s) && timer in s.timers
    ensures TimerInv(s.(timers := s.timers - {timer}, core := GiveUp(s.core, timer.id, ACK_TIMED_OUT)))
  {
    var t' := GiveUp(s.core, timer.id, ACK_TIMED_OUT).table;
    assert NoneEnters(s.core.table, t') && (timer.id in t' ==> t'[timer.id].info.state != Restarting);
  }

  lemma ReceiveIsQuiet(c: Core, sent: seq<Send>, m: Msg, lord: LordId)
    ensures NoneEnters(c.table, Receive(c, sent, m, lord).table)
  {
  }

  lemma SpawnIsQuiet(c: Core, id: ProcId, lord: LordId, req: SpawnRequest, accepted: bool)
    requires id !in c.table
    ensures NoneEnters(c.table, Spawn(c, id, lord, req, accepted).table)
  {
  }

  lemma RebindIsQuiet(c: Core, from: LordId, to: LordId)
    ensures NoneEnters(c.table, Rebind(c, from, to).table)
  {
  }

  lemma QuietKeepsTimers(s: Sys, t': Table)
    requires TimerInv(s) && NoneEnters(s.core.table, t')
    ensures TimersOk(t', s.now, s.timers, s.lastSend, s.respawned)
  {
  }

  lemma TimerInvTableStep(s: Sys, a: Action)
    requires TimerInv(s) && LogInv(s) && Enabled(s, a) && !OnLinks(a)
    ensures TimerInv(Next(s, a))
  {
    match a
    case SpawnCall(id, lord, req, accepted) =>
      SpawnIsQuiet(s.core, id, lord, req, accepted);
      QuietKeepsTimers(s, Next(s, a).core.table);
    case Deliver(agent, lord) =>
      ReceiveIsQuiet(s.core, s.sent, s.up[agent][0], lord);
      QuietKeepsTimers(s, Next(s, a).core.table);
    case RebindTo(from, to) =>
      RebindIsQuiet(s.core, from, to);
      QuietKeepsTimers(s, Next(s, a).core.table);
    case RespawnOn(id, lord, accepted) => TimerRespawnStep(s, id, lord, accepted);
    case CleanUp(id) => QuietKeepsTimers(s, GiveUp(s.core, id, NO_LORD_LEFT).table);
    case TimerFires(timer) => TimerFired(s, timer);
    case _ =>
  }

  lemma TimerInvStep(s: Sys, a: Action)
    requires TimerInv(s) && LogInv(s) && Enabled(s, a)
    ensures TimerInv(Next(s, a))
  {
    if OnLinks(a) { OnLinksFrame(s, a); } else { TimerInvTableStep(s, a); }
  }

  // ---------------------------------------------------------------------------
  // All of them over every run
  // ---------------------------------------------------------------------------

  ghost predicate TableInv(s: Sys) {
    LogInv(s) && EntryInv(s) && SendInv(s) && TimerInv(s)
  }

  lemma {:induction false} RunKeepsTableInv(now: Time, run: seq<Action>)
    requires IsRun(now, run)
    ensures TableInv(After(now, run))
  {
    if run != [] {
      var s, a := After(now, run[..|run| - 1]), run[|run| - 1];
      RunKeepsTableInv(now, run[..|run| - 1]);
      LogInvStep(s, a);
      EntryInvStep(s, a);
      SendInvStep(s, a);
      TimerInvStep(s, a);
    }
  }
}
