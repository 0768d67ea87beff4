/** What each scheduler operation does to the live table and the log, one atomic step each. */
module Lifecycle {
  import opened Process
  import opened Journal

  const SEND_FAILED := -1
  const RESPAWN_SEND_FAILED := -2
  const ACK_TIMED_OUT := -3
  const BUDGET_SPENT := -4
  const NO_LORD_LEFT := -5

  /** The end of a successful or failed Spawn call, after placement. */
  function Spawn(c: Core, id: ProcId, lord: LordId, req: SpawnRequest, accepted: bool): Core {
    var c1 := Create(c, InfoFromRequest(id, lord, req));
    if accepted then c1 else Finalize(c1, id, SEND_FAILED)
  }

  /** A lord's Started message, delivered by the session of `lord`. */
  function Started(c: Core, id: ProcId, lord: LordId, localPid: int): Core {
    if id in c.table then UpdateState(c, id, Running, lord, localPid) else c
  }

  function ExitState(signal: int): PState { if signal != 0 then Stopped else Exited }

  /** A lord's Exit message. */
  function Exit(c: Core, id: ProcId, code: int, signal: int): Core {
    if id in c.table then UpdateResult(UpdateState(c, id, ExitState(signal), "", 0), id, code, signal) else c
  }

  datatype Respawned =
    | AlreadyFinal                 // nothing done, reported as success
    | OverBudget                   // given up, reported as failure
    | SendFailed                   // given up, reported as failure
    | Sent(req: SpawnRequest)      // queued to the new lord; an ack timer is armed
  {
    predicate Ok() { AlreadyFinal? || Sent? }
  }

  predicate Exhausted(info: Info) {
    info.program.maxRestarts >= 0 && info.restarts >= info.program.maxRestarts
  }

  /** RESTARTING, on the new lord, one restart spent. */
  function MarkRestarting(c: Core, id: ProcId, lord: LordId): Core
    requires id in c.table
  {
    Reassign(UpdateState(c, id, Restarting, "", 0), id, lord, c.table[id].info.restarts + 1)
  }

  function Respawn(c: Core, id: ProcId, lord: LordId, accepted: bool): (Core, Respawned)
    requires id in c.table
  {
    var info := c.table[id].info;
    if Final(info.state) then (c, AlreadyFinal)
    else if Exhausted(info) then (Finalize(c, id, BUDGET_SPENT), OverBudget)
    else
      var c1 := MarkRestarting(c, id, lord);
      if accepted then (c1, Sent(RespawnRequest(c1.table[id].info)))
      else (Finalize(c1, id, RESPAWN_SEND_FAILED), SendFailed)
  }

  /** A respawn touches one entry: it keeps the identity and the program, and spends a
      restart exactly when it tried to send. */
  ghost predicate TouchesOne(c: Core, c': Core, id: ProcId, accepted: bool, r: Respawned) {
    && id in c.table && id in c'.table
    && c'.table == c.table[id := c'.table[id]]
    && var e, e' := c.table[id], c'.table[id];
    && e'.info.id == e.info.id && e'.info.program == e.info.program
    && e'.info.restarts == e.info.restarts + (if r.Sent? || r.SendFailed? then 1 else 0)
    && (r.AlreadyFinal? <==> Final(e.info.state))
    && (r.AlreadyFinal? ==> c' == c)
    && (r.OverBudget? <==> !Final(e.info.state) && Exhausted(e.info))
    && (!r.AlreadyFinal? ==> e'.info.state == if r.Sent? then Restarting else Stopped)
    && (r.SendFailed? ==> !accepted)
    && (r.Sent? ==> accepted && r.req == RespawnRequest(e'.info) == RespawnRequest(e.info))
  }

  lemma RespawnTouchesOne(c: Core, id: ProcId, lord: LordId, accepted: bool)
    requires id in c.table
    ensures var (c', r) := Respawn(c, id, lord, accepted); TouchesOne(c, c', id, accepted, r)
  {
  }

  /** Give a process up if it is still waiting for the lord's answer. */
  function GiveUp(c: Core, id: ProcId, code: int): Core {
    if id in c.table && c.table[id].info.state == Restarting then Finalize(c, id, code) else c
  }

  /** A lord that is draining, or cannot start the program, refuses with an Exit of code -1:
      the process is EXITED, no recovery takes it up, and a migration leaves it so. */
  lemma RefusalIsFinal(c: Core, id: ProcId, dead: LordId, lord: LordId, accepted: bool)
    requires id in c.table
    ensures var c' := Exit(c, id, -1, 0);
      && id in c'.table && c'.table[id].info.state == Exited && c'.table[id].info.exitCode == -1
      && !IsCandidate(c'.table[id].info, dead)
      && Respawn(c', id, lord, accepted) == (c', AlreadyFinal)
  {
  }

  predicate IsCandidate(info: Info, dead: LordId) {
    info.lord == dead && info.state in {Running, Ready, Paused, Migrating}
  }

  // ---------------------------------------------------------------------------
  // What each step makes of the table, written out
  // ---------------------------------------------------------------------------

  /** No other entry differs, and none is gone or new. */
  ghost predicate OnlyAt(t: Table, t': Table, id: ProcId) {
    t'.Keys == t.Keys && forall k | k in t && k != id :: t'[k] == t[k]
  }

  /** A spawn adds one READY process, or one STOPPED with code -1 when its request was not
      taken. */
  lemma SpawnTells(c: Core, id: ProcId, lord: LordId, req: SpawnRequest, accepted: bool)
    ensures var t := Spawn(c, id, lord, req, accepted).table;
      && id in t && t.Keys == c.table.Keys + {id} && (forall k | k in c.table && k != id :: t[k] == c.table[k])
      && t[id].info == Info(id, ProgramOf(req), if accepted then Ready else Stopped, lord, 0,
                            if accepted then 0 else -1, 0, 0)
  {
  }

  /** A Started makes its process RUNNING on the lord it came from, with the pid it names, if
      any. */
  lemma StartedTells(c: Core, id: ProcId, lord: LordId, localPid: int)
    ensures var t, t' := c.table, Started(c, id, lord, localPid).table;
      && OnlyAt(t, t', id)
      && (id in t ==>
            t'[id].info == t[id].info.(
              state := Running, lord := if lord == "" then t[id].info.lord else lord,
              localPid := if localPid == 0 then t[id].info.localPid else localPid))
  {
  }

  /** An Exit makes its process STOPPED if a signal ended it, else EXITED, with its code and
      signal. */
  lemma ExitTells(c: Core, id: ProcId, code: int, signal: int)
    ensures var t, t' := c.table, Exit(c, id, code, signal).table;
      && OnlyAt(t, t', id)
      && (id in t ==>
            && (t'[id].info.state == Stopped <==> signal != 0) && (t'[id].info.state == Exited <==> signal == 0)
            && t'[id].info == t[id].info.(state := t'[id].info.state, exitCode := code, exitSignal := signal))
  {
  }

  /** A respawn leaves a finished process alone; it gives up one that has a limit and has
      reached it, with code -4; any other is moved and counted, and then RESTARTING, or
      STOPPED with code -2 when its request was not taken. */
  lemma RespawnTells(c: Core, id: ProcId, lord: LordId, accepted: bool)
    requires id in c.table
    ensures var ((c', r), t) := (Respawn(c, id, lord, accepted), c.table);
      var info := t[id].info;
      var spent := info.program.maxRestarts >= 0 && info.restarts >= info.program.maxRestarts;
      && OnlyAt(t, c'.table, id)
      && (r.Ok() <==> info.state in {Exited, Stopped} || (!spent && accepted))
      && (r.Sent? <==> info.state !in {Exited, Stopped} && !spent && accepted)
      && c'.table[id].info ==
           if info.state in {Exited, Stopped} then info
           else if spent then info.(state := Stopped, exitCode := -4, exitSignal := 0)
           else if accepted then info.(state := Restarting, lord := lord, restarts := info.restarts + 1)
           else info.(state := Stopped, lord := lord, restarts := info.restarts + 1, exitCode := -2, exitSignal := 0)
  {
  }

  /** Giving up stops a process that is RESTARTING, and no other. */
  lemma GiveUpTells(c: Core, id: ProcId, code: int)
    ensures var t, t' := c.table, GiveUp(c, id, code).table;
      && OnlyAt(t, t', id)
      && (id in t ==>
            t'[id].info == if t[id].info.state != Restarting then t[id].info
                           else t[id].info.(state := Stopped, exitCode := code, exitSignal := 0))
  {
  }
}
