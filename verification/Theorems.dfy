/** What holds over every run of the scheduler, its lords and their links. */
module Theorems {
  import opened Process
  import opened Clock
  import opened Journal
  import opened Lifecycle
  import opened Protocol
  import opened TableInvariants
  import opened LinkInvariants
  import Framing

  lemma LogHolds(s: Sys)
    requires Reachable(s)
    ensures LogInv(s)
  {
    var now, run :| IsRun(now, run) && After(now, run) == s;
    RunKeepsTableInv(now, run);
  }

  lemma EntriesHold(s: Sys)
    requires Reachable(s)
    ensures EntryInv(s)
  {
    var now, run :| IsRun(now, run) && After(now, run) == s;
    RunKeepsTableInv(now, run);
  }

  lemma SendsHold(s: Sys)
    requires Reachable(s)
    ensures SendInv(s)
  {
    var now, run :| IsRun(now, run) && After(now, run) == s;
    RunKeepsTableInv(now, run);
  }

  lemma TimersHold(s: Sys)
    requires Reachable(s)
    ensures TimerInv(s)
  {
    var now, run :| IsRun(now, run) && After(now, run) == s;
    RunKeepsTableInv(now, run);
  }

  lemma LinksHold(s: Sys)
    requires Reachable(s)
    ensures LinkInv(s)
  {
    var now, run :| IsRun(now, run) && After(now, run) == s;
    RunKeepsLinkInv(now, run);
  }

  lemma StepIsReachable(s: Sys, a: Action)
    requires Reachable(s) && Enabled(s, a)
    ensures Reachable(Next(s, a))
  {
    var now, run :| IsRun(now, run) && After(now, run) == s;
    var more := run + [a];
    assert more[..|run|] == run && more[|run|] == a;
    assert IsRun(now, more) && After(now, more) == Next(s, a);
  }

  // ---------------------------------------------------------------------------
  // Replay
  // ---------------------------------------------------------------------------

  /** At any point of any run, over any number of scheduler restarts, a replay of the log
      rebuilds the live table, up to restart counts and to lord ids changed off the log. */
  lemma ReplayRefinesLive(s: Sys, id: ProcId)
    requires Reachable(s)
    ensures
      && (id in Replay(s.core.log) <==> id in s.core.table)
      && (id in s.core.table ==>
            var replayed, live := Replay(s.core.log)[id], s.core.table[id];
            && replayed.info.program == live.info.program
            && replayed.info.state == live.info.state
            && replayed.info.localPid == live.info.localPid
            && replayed.info.exitCode == live.info.exitCode
            && replayed.info.exitSignal == live.info.exitSignal
            && replayed.closes == live.closes
            && (id !in s.unlogged ==> replayed.info.lord == live.info.lord))
  {
    LogHolds(s);
  }

  /** A replay counts every record of the log, one of them a creation for each process. */
  lemma EveryRecordIsCounted(s: Sys)
    requires Reachable(s)
    ensures var n := TallyAll(map[], s.core.log);
      n.creates == |s.core.table.Keys| && n.creates + n.states + n.results == |s.core.log|
  {
    LogHolds(s);
    hide Reachable;
  }

  /** A replay gets a restart count right exactly when no restart was counted in this
      lifetime. */
  lemma RestartCountIsNotReplayed(s: Sys, id: ProcId)
    requires Reachable(s) && id in s.core.table
    ensures id in Replay(s.core.log)
    ensures Replay(s.core.log)[id].info.restarts == s.core.table[id].info.restarts <==>
            s.core.table[id].info.restarts == 0
  {
    LogHolds(s);
  }

  lemma StateWithoutLord(c: Core, id: ProcId, st: PState)
    requires id in c.table && id in Replay(c.log)
    ensures var log := UpdateState(c, id, st, "", 0).log;
      id in Replay(log) && Replay(log)[id].info.lord == Replay(c.log)[id].info.lord
  {
    ReplaySnoc(map[], c.log, StateRecord(id, st, "", 0));
    StateNames(st, StateName(st));
  }

  lemma ResultWithoutLord(c: Core, id: ProcId, code: int)
    requires id in c.table && id in Replay(c.log)
    ensures var log := UpdateResult(c, id, code, 0).log;
      id in Replay(log) && Replay(log)[id].info.lord == Replay(c.log)[id].info.lord
  {
    ReplaySnoc(map[], c.log, ResultRecord(id, code, 0));
  }

  lemma RespawnLeavesReplayedLord(c: Core, id: ProcId, lord: LordId, accepted: bool)
    requires id in c.table && id in Replay(c.log)
    requires !Final(c.table[id].info.state) && !Exhausted(c.table[id].info)
    ensures var log := Respawn(c, id, lord, accepted).0.log;
      id in Replay(log) && Replay(log)[id].info.lord == Replay(c.log)[id].info.lord
  {
    StateWithoutLord(c, id, Restarting);
    if !accepted {
      var c1 := MarkRestarting(c, id, lord);
      StateWithoutLord(c1, id, Stopped);
      ResultWithoutLord(UpdateState(c1, id, Stopped, "", 0), id, RESPAWN_SEND_FAILED);
    }
  }

  /** A respawn that tries to send, accepted or not, moves the process to the new lord and
      spends a restart; a replay finds the lord it would have found before, and no restart. */
  lemma RespawnIsNotReplayed(s: Sys, id: ProcId, lord: LordId, accepted: bool)
    requires Reachable(s) && Enabled(s, RespawnOn(id, lord, accepted))
    requires !Final(s.core.table[id].info.state) && !Exhausted(s.core.table[id].info)
    ensures
      var s' := Next(s, RespawnOn(id, lord, accepted));
      && id in Replay(s.core.log) && id in Replay(s'.core.log) && id in s'.core.table
      && s'.core.table[id].info.lord == lord
      && s'.core.table[id].info.restarts == s.core.table[id].info.restarts + 1
      && Replay(s'.core.log)[id].info.lord == Replay(s.core.log)[id].info.lord
      && Replay(s'.core.log)[id].info.restarts == 0
  {
    LogHolds(s);
    RespawnLeavesReplayedLord(s.core, id, lord, accepted);
    RespawnMoves(s.core, id, lord, accepted);
    StepIsReachable(s, RespawnOn(id, lord, accepted));
    hide Respawn;
    var s' := Next(s, RespawnOn(id, lord, accepted));
    assert s'.core == Respawn(s.core, id, lord, accepted).0;
    LogHolds(s');
  }

  lemma RespawnMoves(c: Core, id: ProcId, lord: LordId, accepted: bool)
    requires id in c.table && !Final(c.table[id].info.state) && !Exhausted(c.table[id].info)
    ensures var (c', r) := Respawn(c, id, lord, accepted);
      && id in c'.table && c'.table[id].info.lord == lord && !r.AlreadyFinal? && !r.OverBudget?
      && c'.table[id].info.restarts == c.table[id].info.restarts + 1
  {
  }

  /** Nor is a re-bind: a replay finds the moved processes on the old lord. */
  lemma RebindIsNotReplayed(s: Sys, from: LordId, to: LordId, id: ProcId)
    requires Reachable(s) && Enabled(s, RebindTo(from, to)) && from != "" && to != "" && from != to
    requires id in s.core.table && s.core.table[id].info.lord == from
    ensures var s' := Next(s, RebindTo(from, to));
      && id in s'.core.table && s'.core.table[id].info.lord == to
      && s'.core.log == s.core.log
      && id in Replay(s'.core.log)
      && (id !in s.unlogged ==> Replay(s'.core.log)[id].info.lord == from)
  {
    LogHolds(s);
  }

  /** The log file of a run, with or without its header line and with undecodable lines
      in it, cut after any n bytes: a replay rebuilds the table of the logged records that
      are complete before the cut, and of the whole file the live table. */
  lemma CrashRecovery(s: Sys, c: Framing.Codec<Record>, header: bool,
                      lines: seq<Framing.Line<Record>>, n: nat)
    requires Reachable(s)
    requires Framing.Lawful(c) && Framing.Readable(c, lines)
    requires Framing.Records(lines) == s.core.log
    requires n <= |Framing.Image(c, header, lines)|
    ensures
      var k := Framing.SurvivorsIn(c, header, lines, n);
      && k <= |s.core.log|
      && Replay(Framing.ReadRecords(c, Framing.Image(c, header, lines)[..n])) == Replay(s.core.log[..k])
    ensures
      Agree(Replay(Framing.ReadRecords(c, Framing.Image(c, header, lines))), s.core.table, s.unlogged)
  {
    Framing.CrashConsistency(c, header, lines, n);
    Framing.IntactFile(c, header, lines);
    LogHolds(s);
  }

  // ---------------------------------------------------------------------------
  // Requests
  // ---------------------------------------------------------------------------

  /** Every request ever sent for a process is the same but for the initial stdin, and is
      the one its record describes. */
  lemma RespawnFidelity(s: Sys, i: nat, j: nat)
    requires Reachable(s)
    requires i < |s.sent| && j < |s.sent|
    ensures
      var x, y := s.sent[i].req, s.sent[j].req;
      && x.processId in s.core.table
      && (x.processId == y.processId ==> x == y.(stdinInitial := x.stdinInitial))
      && x.(stdinInitial := []) == RespawnRequest(s.core.table[x.processId].info)
  {
    SendsHold(s);
    var x, y := s.sent[i].req, s.sent[j].req;
    assert x.(stdinInitial := []) == RespawnRequest(s.core.table[x.processId].info);
    assert y.(stdinInitial := []) == RespawnRequest(s.core.table[y.processId].info);
  }

  // ---------------------------------------------------------------------------
  // States
  // ---------------------------------------------------------------------------

  /** Only five of the nine states are ever reached. */
  lemma StateClosure(s: Sys, id: ProcId)
    requires Reachable(s) && id in s.core.table
    ensures s.core.table[id].info.state in {Ready, Running, Restarting, Exited, Stopped}
  {
    EntriesHold(s);
    var e := s.core.table[id];
    assert ChannelOk(e);
    assert e.hist[|e.hist| - 1] in e.hist;
  }

  predicate IsStartedFor(s: Sys, a: Action, id: ProcId) {
    && a.Deliver? && Outbox(s.up, a.agent) != []
    && s.up[a.agent][0].StartedMsg? && IdOf(s.sent, s.up[a.agent][0].run) == id
  }

  /** Entries stay and keep their programs, histories grow, and a channel is only closed on entering a final state. */
  ghost predicate EntryStep(e: Entry, e': Entry) {
    && e'.info.id == e.info.id && e'.info.program == e.info.program
    && e.hist <= e'.hist
    && e.closes <= e'.closes
    && (e.closes < e'.closes ==> Final(e'.info.state))
  }

  lemma EntryStays(e: Entry)
    ensures EntryStep(e, e)
  {
  }

  lemma SomeTableStep(s: Sys, a: Action, id: ProcId)
    requires LogInv(s) && Enabled(s, a) && !OnLinks(a) && id in s.core.table
    ensures id in Next(s, a).core.table && EntryStep(s.core.table[id], Next(s, a).core.table[id])
  {
    EntryStays(s.core.table[id]);
    NextCoreIs(s, a);
    hide EntryStep, Next;
    match a
    case RespawnOn(k, lord, accepted) => RespawnEntryStep(s.core, k, lord, accepted, id);
    case Deliver(agent, lord) => ReceiveEntryStep(s.core, s.sent, s.up[agent][0], lord, id);
    case RebindTo(from, to) => RebindEntryStep(s.core, from, to, id);
    case CleanUp(k) => GiveUpEntryStep(s.core, k, NO_LORD_LEFT, id);
    case TimerFires(timer) => GiveUpEntryStep(s.core, timer.id, ACK_TIMED_OUT, id);
    case Restart =>
      ReplayEntryStep(s.core, s.unlogged, id);
    case _ =>
  }

  lemma SomeStep(s: Sys, a: Action, id: ProcId)
    requires LogInv(s) && Enabled(s, a) && id in s.core.table
    ensures id in Next(s, a).core.table && EntryStep(s.core.table[id], Next(s, a).core.table[id])
  {
    if OnLinks(a) { OnLinksFrame(s, a); } else { SomeTableStep(s, a, id); }
  }

  lemma GiveUpEntryStep(c: Core, k: ProcId, code: int, id: ProcId)
    requires id in c.table
    ensures var c' := GiveUp(c, k, code);
      id in c'.table && EntryStep(c.table[id], c'.table[id])
      && (Final(c.table[id].info.state) ==> c'.table[id] == c.table[id])
  {
  }

  lemma RebindEntryStep(c: Core, from: LordId, to: LordId, id: ProcId)
    requires id in c.table
    ensures var c' := Rebind(c, from, to);
      id in c'.table && EntryStep(c.table[id], c'.table[id])
      && c'.table[id].info.state == c.table[id].info.state
  {
  }

  lemma ReplayEntryStep(c: Core, unlogged: set<ProcId>, id: ProcId)
    requires Logged(c, unlogged) && id in c.table
    ensures id in Replay(c.log) && EntryStep(c.table[id], Replay(c.log)[id])
      && Replay(c.log)[id].info.state == c.table[id].info.state
  {
  }

  lemma RespawnEntryStep(c: Core, k: ProcId, lord: LordId, accepted: bool, id: ProcId)
    requires k in c.table && id in c.table
    ensures var c' := Respawn(c, k, lord, accepted).0;
      id in c'.table && EntryStep(c.table[id], c'.table[id])
  {
  }

  lemma ReceiveEntryStep(c: Core, sent: seq<Send>, m: Msg, lord: LordId, id: ProcId)
    requires id in c.table
    ensures var c' := Receive(c, sent, m, lord);
      id in c'.table && EntryStep(c.table[id], c'.table[id])
  {
  }

  /** From a reachable state, a step leaves a final state only by delivering a Started for
      that process, and then to RUNNING; respawns, recovery clean-up, ack timers, re-binds
      and scheduler restarts leave the state of a finished process as it is. */
  lemma FinalLeftOnlyByStarted(s: Sys, a: Action, id: ProcId)
    requires Reachable(s) && Enabled(s, a)
    requires id in s.core.table && Final(s.core.table[id].info.state)
    ensures FinalStep(s, a, id)
  {
    LogHolds(s);
    FinalStepHolds(s, a, id);
  }

  ghost predicate FinalStep(s: Sys, a: Action, id: ProcId)
    requires Enabled(s, a) && id in s.core.table
  {
    var s' := Next(s, a);
    && id in s'.core.table
    && var st, st' := s.core.table[id].info.state, s'.core.table[id].info.state;
    && (if IsStartedFor(s, a, id) then st' == Running else Final(st'))
    && (!a.Deliver? ==> st' == st)
  }

  lemma FinalStepHolds(s: Sys, a: Action, id: ProcId)
    requires LogInv(s) && Enabled(s, a) && id in s.core.table && Final(s.core.table[id].info.state)
    ensures FinalStep(s, a, id)
  {
    NextCoreIs(s, a);
    hide Next;
    match a
    case RespawnOn(k, lord, accepted) =>
      RespawnTouchesOne(s.core, k, lord, accepted);
      var (c, r) := Respawn(s.core, k, lord, accepted);
      RespawnKeepsFinal(s.core, c, k, accepted, r, id);
    case Deliver(agent, lord) => ReceiveFinal(s.core, s.sent, s.up[agent][0], lord, id);
    case RebindTo(from, to) => RebindEntryStep(s.core, from, to, id);
    case CleanUp(k) => GiveUpEntryStep(s.core, k, NO_LORD_LEFT, id);
    case TimerFires(timer) => GiveUpEntryStep(s.core, timer.id, ACK_TIMED_OUT, id);
    case Restart => ReplayEntryStep(s.core, s.unlogged, id);
    case _ =>
  }

  lemma ReceiveFinal(c: Core, sent: seq<Send>, m: Msg, lord: LordId, id: ProcId)
    requires id in c.table && Final(c.table[id].info.state)
    ensures var c' := Receive(c, sent, m, lord);
      id in c'.table &&
      if m.StartedMsg? && IdOf(sent, m.run) == id then c'.table[id].info.state == Running
      else Final(c'.table[id].info.state)
  {
  }

  lemma RespawnKeepsFinal(c: Core, c': Core, k: ProcId, accepted: bool, r: Respawned, id: ProcId)
    requires TouchesOne(c, c', k, accepted, r) && id in c.table && Final(c.table[id].info.state)
    ensures id in c'.table && c'.table[id] == c.table[id]
  {
  }

  // ---------------------------------------------------------------------------
  // What messages, timers and respawns do, in any reachable state
  // ---------------------------------------------------------------------------

  /** What becomes of a request: it is started and a Started queued, or refused and an Exit with
      code -1 queued, behind the other messages of the agent whose session it went to, or
      neither; and it is in flight no more. */
  lemma HandleTells(s: Sys, run: nat, outcome: Outcome)
    requires Enabled(s, Handle(run, outcome))
    ensures
      var s', agent := Next(s, Handle(run, outcome)), s.owner[s.sent[run].lord];
      var had, has := Outbox(s.up, agent), Outbox(s'.up, agent);
      && run !in s'.inflight && s'.core == s.core && s'.sent == s.sent
      && (outcome.Up? ==> has == had + [StartedMsg(run, outcome.localPid)] && run in s'.started && run in s'.live
                          && s'.live[run] == agent)
      && (outcome.Refused? ==> has == had + [ExitMsg(run, -1, 0)])
      && (!outcome.Up? ==> s'.started == s.started && s'.live == s.live)
      && (outcome.Silent? ==> has == had)
      && forall a | a != agent :: Outbox(s'.up, a) == Outbox(s.up, a)
  {
  }

  /** A message that arrives is about a request that was queued and a process there is. */
  lemma MessageIsKnown(s: Sys, agent: Agent)
    requires Reachable(s) && Outbox(s.up, agent) != []
    ensures var run := s.up[agent][0].run; run < |s.sent| && s.sent[run].req.processId in s.core.table
  {
    LinksHold(s);
    SendsHold(s);
    assert MsgOk(LinksOf(s), agent, LinksOf(s).up[agent][0]);
  }

  /** An Exit that arrives makes its process STOPPED if and only if a signal ended it, and
      EXITED otherwise; its code and signal are recorded, and no other entry changes. */
  lemma ExitDelivered(s: Sys, agent: Agent, lord: LordId, run: nat, code: int, signal: int)
    requires Reachable(s) && Enabled(s, Deliver(agent, lord)) && s.up[agent][0] == ExitMsg(run, code, signal)
    ensures run < |s.sent|
    ensures
      var id, t, t' := s.sent[run].req.processId, s.core.table, Next(s, Deliver(agent, lord)).core.table;
      && id in t && t'.Keys == t.Keys && (forall k | k in t && k != id :: t'[k] == t[k])
      && (t'[id].info.state == Stopped <==> signal != 0) && (t'[id].info.state == Exited <==> signal == 0)
      && t'[id].info == t[id].info.(state := t'[id].info.state, exitCode := code, exitSignal := signal)
  {
    MessageIsKnown(s, agent);
    NextCoreIs(s, Deliver(agent, lord));
    hide Next, Reachable;
    ExitTells(s.core, s.sent[run].req.processId, code, signal);
  }

  /** A Started that arrives makes its process RUNNING on the lord whose session it came
      through, with the pid it names, if any; no other entry changes. */
  lemma StartedDelivered(s: Sys, agent: Agent, lord: LordId, run: nat, localPid: int)
    requires Reachable(s) && Enabled(s, Deliver(agent, lord)) && s.up[agent][0] == StartedMsg(run, localPid)
    ensures run < |s.sent|
    ensures
      var id, t, t' := s.sent[run].req.processId, s.core.table, Next(s, Deliver(agent, lord)).core.table;
      && id in t && t'.Keys == t.Keys && (forall k | k in t && k != id :: t'[k] == t[k])
      && t'[id].info == t[id].info.(
           state := Running, lord := lord, localPid := if localPid == 0 then t[id].info.localPid else localPid)
  {
    MessageIsKnown(s, agent);
    LogHolds(s);
    NextCoreIs(s, Deliver(agent, lord));
    hide Next, Reachable;
    StartedTells(s.core, s.sent[run].req.processId, lord, localPid);
  }

  /** A timer that fires stops its process with code -3 if it is RESTARTING, and changes
      nothing otherwise. */
  lemma TimerDecides(s: Sys, timer: Timer)
    requires Reachable(s) && Enabled(s, TimerFires(timer))
    ensures
      var id, t, t' := timer.id, s.core.table, Next(s, TimerFires(timer)).core.table;
      && id in t && t'.Keys == t.Keys && (forall k | k in t && k != id :: t'[k] == t[k])
      && t'[id].info == if t[id].info.state != Restarting then t[id].info
                        else t[id].info.(state := Stopped, exitCode := -3, exitSignal := 0)
  {
    TimersHold(s);
    NextCoreIs(s, TimerFires(timer));
    hide Next, Reachable;
    GiveUpTells(s.core, timer.id, ACK_TIMED_OUT);
  }

  // ---------------------------------------------------------------------------
  // Requests and the calls they come from
  // ---------------------------------------------------------------------------

  lemma {:induction false} RecordKeepsProgram(now: Time, run: seq<Action>, i: nat)
    requires IsRun(now, run) && i < |run| && run[i].SpawnCall?
    ensures var t := After(now, run).core.table;
      && run[i].id in t && t[run[i].id].info.id == run[i].id
      && t[run[i].id].info.program == ProgramOf(run[i].req)
  {
    var s, a := After(now, run[..|run| - 1]), run[|run| - 1];
    if i < |run| - 1 {
      RecordKeepsProgram(now, run[..|run| - 1], i);
      assert Reachable(s);
      LogHolds(s);
      SomeStep(s, a, run[i].id);
    } else {
      assert Next(s, a).core == Spawn(s.core, a.id, a.lord, a.req, a.accepted);
    }
  }

  /** Over any run, every request queued for a process, by its Spawn call or by any respawn,
      carries the program of that call. */
  lemma RequestsCarryOriginal(now: Time, run: seq<Action>, i: nat, n: nat)
    requires IsRun(now, run) && i < |run| && run[i].SpawnCall?
    requires n < |After(now, run).sent| && After(now, run).sent[n].req.processId == run[i].id
    ensures CarriesProgram(After(now, run).sent[n].req, run[i].id, run[i].req)
  {
    var s := After(now, run);
    assert Reachable(s);
    SendsHold(s);
    RecordKeepsProgram(now, run, i);
    RespawnCarries(s.core.table[run[i].id].info, run[i].req);
  }

  /** And there is such a call for every process there is, so for every request. */
  lemma {:induction false} EveryProcessHasACall(now: Time, run: seq<Action>, id: ProcId) returns (i: nat)
    requires IsRun(now, run) && id in After(now, run).core.table
    ensures i < |run| && run[i].SpawnCall? && run[i].id == id
  {
    var s, a := After(now, run[..|run| - 1]), run[|run| - 1];
    assert Reachable(s);
    LogHolds(s);
    if id in s.core.table {
      i := EveryProcessHasACall(now, run[..|run| - 1], id);
    } else {
      OnlySpawnCallAdds(s, a, id);
      i := |run| - 1;
    }
  }

  // ---------------------------------------------------------------------------
  // The exited channel
  // ---------------------------------------------------------------------------

  ghost predicate WasFinal(now: Time, run: seq<Action>, i: nat, id: ProcId)
    requires IsRun(now, run) && i <= |run|
  {
    PrefixIsRun(now, run, i);
    var t := After(now, run[..i]).core.table;
    id in t && Final(t[id].info.state)
  }

  lemma {:induction false} PrefixIsRun(now: Time, run: seq<Action>, i: nat)
    requires IsRun(now, run) && i <= |run|
    ensures IsRun(now, run[..i])
  {
    if i < |run| {
      PrefixIsRun(now, run[..|run| - 1], i);
      assert run[..|run| - 1][..i] == run[..i];
    } else {
      assert run[..i] == run;
    }
  }

  lemma ClosesFacts(e: Entry)
    requires ChannelOk(e)
    ensures e.closes <= 1 && (Final(e.info.state) ==> e.closes == 1)
  {
    assert Final(e.info.state) ==> Final(e.hist[|e.hist| - 1]);
  }

  ghost predicate EverWasFinal(now: Time, run: seq<Action>, id: ProcId)
    requires IsRun(now, run)
  {
    exists i | 0 <= i <= |run| :: WasFinal(now, run, i, id)
  }

  lemma EverWasFinalSnoc(now: Time, run: seq<Action>, id: ProcId)
    requires IsRun(now, run) && run != [] && id in After(now, run).core.table
    ensures EverWasFinal(now, run, id) <==>
      EverWasFinal(now, run[..|run| - 1], id) || Final(After(now, run).core.table[id].info.state)
  {
    var init := run[..|run| - 1];
    assert run[..|run|] == run;
    forall i | 0 <= i < |run| ensures WasFinal(now, run, i, id) == WasFinal(now, init, i, id) {
      assert run[..i] == init[..i];
    }
    assert WasFinal(now, run, |run|, id) == Final(After(now, run).core.table[id].info.state);
    if i :| 0 <= i <= |init| && WasFinal(now, init, i, id) { assert WasFinal(now, run, i, id); }
  }

  /** The channel is closed at most once, and is closed exactly when the process is, or was
      at some earlier point of the run, EXITED or STOPPED. */
  lemma {:induction false} WaitChannel(now: Time, run: seq<Action>, id: ProcId)
    requires IsRun(now, run) && id in After(now, run).core.table
    ensures After(now, run).core.table[id].closes <= 1
    ensures After(now, run).core.table[id].closes == 1 <==> EverWasFinal(now, run, id)
  {
    assert Reachable(After(now, run));
    EntriesHold(After(now, run));
    ClosesFacts(After(now, run).core.table[id]);
    if run != [] {
      var init := run[..|run| - 1];
      var s, a := After(now, init), run[|run| - 1];
      assert Reachable(s);
      LogHolds(s);
      EverWasFinalSnoc(now, run, id);
      if id in s.core.table {
        SomeStep(s, a, id);
        WaitChannel(now, init, id);
      } else {
        NewEntryClosed(s, a, id);
        NeverThere(now, init, id);
      }
    }
  }

  lemma NeverThere(now: Time, run: seq<Action>, id: ProcId)
    requires IsRun(now, run) && id !in After(now, run).core.table
    ensures !EverWasFinal(now, run, id)
  {
    forall i | 0 <= i <= |run| ensures !WasFinal(now, run, i, id) {
      NotYetThere(now, run, i, id);
    }
  }

  lemma OnlySpawnCallAdds(s: Sys, a: Action, id: ProcId)
    requires LogInv(s) && Enabled(s, a) && id !in s.core.table
    ensures id in Next(s, a).core.table ==> a.SpawnCall? && a.id == id
  {
    NextCoreIs(s, a);
    hide Next;
    if a.RespawnOn? { RespawnTouchesOne(s.core, a.id, a.lord, a.accepted); }
  }

  lemma NewEntryClosed(s: Sys, a: Action, id: ProcId)
    requires LogInv(s) && Enabled(s, a) && id !in s.core.table && id in Next(s, a).core.table
    ensures Next(s, a).core.table[id].closes == 1 ==> Final(Next(s, a).core.table[id].info.state)
  {
    OnlySpawnCallAdds(s, a, id);
    var SpawnCall(_, lord, req, accepted) := a;
    assert Next(s, a).core == Spawn(s.core, id, lord, req, accepted);
  }

  lemma {:induction false} NotYetThere(now: Time, run: seq<Action>, i: nat, id: ProcId)
    requires IsRun(now, run) && i <= |run| && id !in After(now, run).core.table
    ensures !WasFinal(now, run, i, id)
  {
    if i < |run| {
      var init := run[..|run| - 1];
      var s, a := After(now, init), run[|run| - 1];
      assert Reachable(s);
      LogHolds(s);
      if id in s.core.table { SomeStep(s, a, id); }
      NotYetThere(now, init, i, id);
      assert run[..i] == init[..i];
    } else {
      assert run[..i] == run;
    }
  }

  // ---------------------------------------------------------------------------
  // Restarting
  // ---------------------------------------------------------------------------

  /** A RESTARTING process whose request went out in this scheduler lifetime has a timer due
      30 s after its latest one, and that moment has not passed. One has a timer exactly
      when it was respawned in this lifetime. */
  lemma NoStuckRestart(s: Sys, id: ProcId)
    requires Reachable(s)
    requires id in s.core.table && s.core.table[id].info.state == Restarting
    ensures
      && (id in s.lastSend ==>
            && Timer(id, s.lastSend[id] + 30 * SECOND) in s.timers
            && s.now <= s.lastSend[id] + 30 * SECOND)
      && (HasTimer(s, id) <==> id in s.lastSend)
  {
    TimersHold(s);
    TimerFacts(s, id);
  }

  ghost predicate HasTimer(s: Sys, id: ProcId) {
    exists t | t in s.timers :: t.id == id
  }

  lemma TimerFacts(s: Sys, id: ProcId)
    requires TimerInv(s) && id in s.core.table && s.core.table[id].info.state == Restarting
    ensures id in s.lastSend ==>
      Timer(id, s.lastSend[id] + ACK_TIMEOUT) in s.timers && s.now <= s.lastSend[id] + ACK_TIMEOUT
    ensures HasTimer(s, id) <==> id in s.lastSend
  {
    if id in s.lastSend {
      var t := Timer(id, s.lastSend[id] + ACK_TIMEOUT);
      assert t in s.timers && t.id == id;
    }
  }

  /** The other half: a process that is RESTARTING when the scheduler restarts stays so
      with no timer armed, and no recovery takes it up. */
  lemma RestartingSurvivesRestart(s: Sys, id: ProcId, dead: LordId)
    requires Reachable(s)
    requires id in s.core.table && s.core.table[id].info.state == Restarting
    ensures var s' := Next(s, Restart);
      && id in s'.core.table && s'.core.table[id].info.state == Restarting
      && !HasTimer(s', id)
      && !IsCandidate(s'.core.table[id].info, dead)
  {
    LogHolds(s);
    ReplayEntryStep(s.core, s.unlogged, id);
    assert Next(s, Restart).core.table == Replay(s.core.log) && Next(s, Restart).timers == {};
  }

  // ---------------------------------------------------------------------------
  // Processes that are never respawned
  // ---------------------------------------------------------------------------

  /** READY, then perhaps RUNNING, then perhaps one final state; the channel is closed
      exactly when the state is final. */
  lemma UnrespawnedLife(s: Sys, id: ProcId)
    requires Reachable(s) && id in s.core.table && id !in s.respawned
    ensures var e := s.core.table[id];
      && e.hist in {[Ready], [Ready, Running], [Ready, Exited], [Ready, Stopped],
                    [Ready, Running, Exited], [Ready, Running, Stopped]}
      && e.info.state == e.hist[|e.hist| - 1]
      && (e.closes == 1 <==> Final(e.info.state))
  {
    LinksHold(s);
    EntriesHold(s);
    var e := s.core.table[id];
    assert e.hist == LivesOf(s).hists[id];
    LifeShape(e);
  }

  /** Once it is EXITED or STOPPED, no OS process of it is running. */
  lemma UnrespawnedFinalIsDead(s: Sys, id: ProcId, run: nat)
    requires Reachable(s) && id in s.core.table && id !in s.respawned && Final(s.core.table[id].info.state)
    requires run in s.live
    ensures IdOf(s.sent, run) != id
  {
    LinksHold(s);
    UnrespawnedLife(s, id);
    var v := LivesOf(s);
    assert v.hists[id] == s.core.table[id].hist;
    assert !Early(v.hists[id]);
  }

  lemma LifeShape(e: Entry)
    requires ChannelOk(e) && (Early(e.hist) || Over(e.hist))
    ensures e.hist in {[Ready], [Ready, Running], [Ready, Exited], [Ready, Stopped],
                       [Ready, Running, Exited], [Ready, Running, Stopped]}
    ensures e.closes == 1 <==> Final(e.info.state)
  {
    var h := e.hist;
    var last := |h| - 1;
    if Over(h) {
      assert h == h[..last] + [h[last]];
      assert forall i | 0 <= i < last :: h[i] == h[..last][i];
    }
    assert forall i | 0 <= i < last :: h[i] in {Ready, Running};
    assert |h| == 2 ==> h == [h[0], h[1]];
    assert |h| == 3 ==> h == [h[0], h[1], h[2]];
    if Final(e.info.state) { assert Final(h[last]); }
  }

  /** A final state is never left: no step changes the history of such a process. */
  lemma UnrespawnedStaysFinal(s: Sys, a: Action, id: ProcId)
    requires Reachable(s) && Enabled(s, a)
    requires id in s.core.table && Final(s.core.table[id].info.state)
    requires id !in Next(s, a).respawned
    ensures id in Next(s, a).core.table
    ensures Next(s, a).core.table[id].hist == s.core.table[id].hist
  {
    LogHolds(s);
    SomeStep(s, a, id);
    RespawnedGrows(s, a);
    StepIsReachable(s, a);
    UnrespawnedLife(s, id);
    UnrespawnedLife(Next(s, a), id);
    OverIsMaximal(s.core.table[id].hist, Next(s, a).core.table[id].hist);
  }

  lemma RespawnedGrows(s: Sys, a: Action)
    requires Enabled(s, a)
    ensures s.respawned <= Next(s, a).respawned
  {
    if OnLinks(a) { OnLinksFrame(s, a); }
  }

  lemma OverIsMaximal(h: seq<PState>, h': seq<PState>)
    requires h <= h' && |h| >= 2 && Final(h[|h| - 1])
    requires h' in {[Ready], [Ready, Running], [Ready, Exited], [Ready, Stopped],
                    [Ready, Running, Exited], [Ready, Running, Stopped]}
    ensures h == h'
  {
    assert h'[|h| - 1] == h[|h| - 1];
  }
}
