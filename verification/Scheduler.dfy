/** The scheduler's operations as the program has them, on the table, log, registry and
    sessions it updates in place, each proved against the functions of Lifecycle and Recovery;
    Coupling says which steps of the transition system they make. What other parties decide is
    passed in: whether a session's outbox has room, in what order a map is iterated, and what
    a placement finds and which sessions are open while a recovery sleeps. */
module Scheduler {
  import opened Process
  import opened Clock
  import opened Sequences
  import opened Journal
  import opened Lifecycle
  import opened Recovery
  import opened ProcessTables
  import opened Placement
  import Autoscale
  import Protocol

  /** The largest age in seconds that 64 bits hold. */
  const MAX_AGE: nat := 0xffff_ffff_ffff_ffff

  datatype SpawnResult =
    | InvalidArgument
    | NoLord
    | NotConnected
    | NotSent
    | Spawned(info: Info)

  datatype MigrateResult =
    | NotFound
    | NoAlternative
    | SameLord(lord: LordId)
    | RespawnFailed
    | Acknowledged(lord: LordId)

  lemma Assoc<T>(a: seq<T>, b: seq<T>, c: seq<T>)
    ensures (a + b) + c == a + (b + c)
  {
  }

  // ---------------------------------------------------------------------------
  // Requests by lord
  // ---------------------------------------------------------------------------

  /** The requests sent to one lord, in order. */
  function SentTo(sent: seq<Protocol.Send>, lord: LordId): seq<SpawnRequest> {
    if sent == [] then []
    else
      var x := sent[|sent| - 1];
      SentTo(sent[..|sent| - 1], lord) + if x.lord == lord then [x.req] else []
  }

  lemma SentToSnoc(sent: seq<Protocol.Send>, x: Protocol.Send, lord: LordId)
    ensures SentTo(sent + [x], lord) == SentTo(sent, lord) + if x.lord == lord then [x.req] else []
  {
    assert (sent + [x])[..|sent|] == sent;
  }

  lemma RebindSelf(c: Core, lord: LordId)
    ensures Rebind(c, lord, lord) == c && Rebind(c, "", lord) == c
  {
  }

  /** Of the processes of an earlier lord of the same name, all move if the lookup found that
      lord, and none otherwise. */
  lemma OnlyTheFoundLordMoves(c: Core, from: LordId, to: LordId, id: ProcId)
    requires id in c.table && c.table[id].info.lord !in {"", to} && to != ""
    ensures id in Rebind(c, from, to).table
    ensures Rebind(c, from, to).table[id].info.lord == to <==> from == c.table[id].info.lord
    ensures var e := c.table[id];
      Rebind(c, from, to).table[id] == e.(info := e.info.(lord := if from == e.info.lord then to else e.info.lord))
  {
  }

  /** Whatever the registry holds, the lookup may find the new lord itself, and then every
      process of an earlier lord of its name stays behind. */
  lemma ReconnectMayMoveNothing(lords: Lords, order: seq<LordId>, to: LordId, c: Core) returns (order': seq<LordId>)
    requires IsIteration(lords, order) && to in lords && lords[to].info.hostname != ""
    ensures IsIteration(lords, order') && Rebind(c, FirstNamed(lords, order', lords[to].info.hostname), to) == c
  {
    order' := AnyMayBeFound(lords, order, to);
    RebindSelf(c, to);
  }

  /** With two earlier lords of its name it may find the one, and the other's stay behind. */
  lemma ReconnectMayMissOne(lords: Lords, order: seq<LordId>, old1: LordId, old2: LordId, to: LordId, c: Core,
                           id: ProcId)
    returns (order': seq<LordId>)
    requires IsIteration(lords, order) && old1 in lords && to in lords && to != "" && old2 !in {"", old1, to}
    requires lords[old1].info.hostname == lords[to].info.hostname != ""
    requires id in c.table && c.table[id].info.lord == old2
    ensures IsIteration(lords, order')
    ensures var c' := Rebind(c, FirstNamed(lords, order', lords[to].info.hostname), to);
      id in c'.table && c'.table[id].info.lord == old2
  {
    order' := AnyMayBeFound(lords, order, old1);
    OnlyTheFoundLordMoves(c, old1, to, id);
  }

  type Sessions = map<LordId, seq<SpawnRequest>>

  /** Every outbox holds the latest requests sent to its lord, oldest first. */
  ghost predicate OutboxesOk(sessions: Sessions, sent: seq<Protocol.Send>) {
    forall k | k in sessions :: Last(|sessions[k]|, SentTo(sent, k)) == sessions[k]
  }

  lemma PutKeepsOutboxes(sessions: Sessions, sent: seq<Protocol.Send>, x: Protocol.Send)
    requires OutboxesOk(sessions, sent) && x.lord in sessions
    ensures OutboxesOk(sessions[x.lord := sessions[x.lord] + [x.req]], sent + [x])
  {
    var sessions' := sessions[x.lord := sessions[x.lord] + [x.req]];
    hide SentTo;
    forall k | k in sessions' ensures Last(|sessions'[k]|, SentTo(sent + [x], k)) == sessions'[k] {
      SentToSnoc(sent, x, k);
      LastSnoc(SentTo(sent, k), sessions[k], x.req);
    }
  }

  lemma TakeKeepsOutboxes(sessions: Sessions, sent: seq<Protocol.Send>, lord: LordId)
    requires OutboxesOk(sessions, sent) && lord in sessions && sessions[lord] != []
    ensures OutboxesOk(sessions[lord := sessions[lord][1..]], sent)
    ensures |sessions[lord]| <= |SentTo(sent, lord)|
  {
    hide SentTo;
    var all, box := SentTo(sent, lord), sessions[lord];
    assert Last(|box|, all) == box;
    assert Last(|box| - 1, all) == box[1..];
  }

  lemma OpenKeepsOutboxes(sessions: Sessions, sent: seq<Protocol.Send>, lord: LordId)
    requires OutboxesOk(sessions, sent)
    ensures OutboxesOk(sessions[lord := []], sent)
  {
    hide SentTo;
  }

  class Server {
    const processes: ProcessTable
    const lords: LordRegistry
    var sessions: Sessions                  // the open sessions, and what waits in their outboxes
    var timers: set<Protocol.Timer>         // armed ack timers
    var lastRecoveryAt: map<LordId, Time>
    ghost var sent: seq<Protocol.Send>      // every request ever put into an outbox

    ghost predicate Valid()
      reads this, processes, processes.entries, processes.wal, lords
    {
      && processes.Valid() && processes.wal != null && lords.Valid()
      && OutboxesOk(sessions, sent)
    }

    ghost function View(): Core
      reads processes`core
    {
      processes.core
    }

    /** What a session takes: it is open, and there is room in its outbox in time. */
    predicate Takes(lord: LordId, room: bool)
      reads this`sessions
    {
      lord in sessions && room
    }

    constructor (processes: ProcessTable, lords: LordRegistry)
      requires processes.Valid() && processes.wal != null && lords.Valid()
      ensures Valid() && this.processes == processes && this.lords == lords
      ensures sent == [] && sessions == map[] && timers == {} && lastRecoveryAt == map[]
    {
      this.processes, this.lords := processes, lords;
      sessions, timers, lastRecoveryAt, sent := map[], {}, map[], [];
    }

    // -------------------------------------------------------------------------
    // Sessions
    // -------------------------------------------------------------------------

    /** A lord connects under a fresh id. If it has a host name, the processes of the first
        lord of that name that the lookup meets, which may be the new one, are re-bound to it. */
    method Connect(info: Lord, order: seq<LordId>, now: Time) returns (moved: nat)
      requires Valid() && info.id != "" && info.id !in lords.byID
      requires Distinct(order) && forall id :: id in order <==> id in lords.byID || id == info.id
      modifies this`sessions, lords, processes.entries, processes`core
      ensures Valid() && sessions == old(sessions)[info.id := []]
      ensures Usable(lords.byID, info.id) && lords.byID.Keys == old(lords.byID.Keys) + {info.id}
      ensures lords.byID[info.id].info == info
      ensures forall k | k in old(lords.byID) :: lords.byID[k] == old(lords.byID)[k]
      ensures var from := FirstNamed(lords.byID, order, info.hostname);
        && View() == Rebind(old(View()), from, info.id)
        && moved == if from == "" || from == info.id then 0 else |OnLord(old(View()).table, from)|
    {
      OpenKeepsOutboxes(sessions, sent, info.id);
      hide OutboxesOk, Rebind, OnLord, FirstNamed;
      sessions := sessions[info.id := []];
      lords.Register(info, now);
      moved := TakeOver(info.hostname, info.id, order);
    }

    /** Re-bind the processes of the first lord of that name to this one. */
    method TakeOver(hostname: string, to: LordId, order: seq<LordId>) returns (moved: nat)
      requires Valid() && IsIteration(lords.byID, order) && to != ""
      modifies processes.entries, processes`core
      ensures Valid()
      ensures var from := FirstNamed(lords.byID, order, hostname);
        && View() == Rebind(old(View()), from, to)
        && moved == if from == "" || from == to then 0 else |OnLord(old(View()).table, from)|
    {
      ghost var c := View();
      RebindSelf(c, to);
      FirstNamedIs(lords.byID, order, hostname);
      hide OutboxesOk, Rebind, OnLord, FirstNamed;
      moved := 0;
      if hostname != "" {
        var from := lords.FindByHostname(hostname, order);
        if from != "" && from != to { moved := processes.UpdateLordForHostname(from, to); }
      }
    }

    /** The end of a session: its outbox is gone, its lord unusable; recovery comes next. */
    method Disconnect(lord: LordId)
      requires Valid()
      modifies this`sessions, lords
      ensures Valid() && sessions == old(sessions) - {lord} && !Usable(lords.byID, lord)
      ensures lords.byID.Keys == old(lords.byID.Keys)
      ensures View() == old(View())
    {
      sessions := sessions - {lord};
      lords.MarkUnhealthy(lord);
    }

    /** The send loop takes the oldest request that it has not yet taken: what is left in the
        outbox are the latest ones. */
    method TakeNext(lord: LordId) returns (req: SpawnRequest)
      requires Valid() && lord in sessions && sessions[lord] != []
      modifies this`sessions
      ensures Valid() && sessions.Keys == old(sessions.Keys)
      ensures forall k | k in sessions && k != lord :: sessions[k] == old(sessions)[k]
      ensures var all := SentTo(sent, lord);
        && |sessions[lord]| < |all| && req == all[|all| - |sessions[lord]| - 1]
        && sessions[lord] == Last(|sessions[lord]|, all)
    {
      TakeKeepsOutboxes(sessions, sent, lord);
      req := sessions[lord][0];
      sessions := sessions[lord := sessions[lord][1..]];
    }

    method GetSession(lord: LordId) returns (ok: bool)
      ensures ok <==> lord in sessions
    {
      ok := lord in sessions;
    }

    /** A request joins the end of its lord's outbox, if that lord has a session and its
        outbox has room in time; otherwise nothing changes. Other outboxes never do. */
    method SendSpawn(lord: LordId, req: SpawnRequest, room: bool) returns (ok: bool)
      requires Valid()
      modifies this`sessions, this`sent
      ensures Valid() && sessions.Keys == old(sessions.Keys)
      ensures lord !in sessions ==> !ok
      ensures ok == old(Takes(lord, room))
      ensures sent == if ok then old(sent) + [Protocol.Send(lord, req)] else old(sent)
      ensures forall k | k in sessions ::
        sessions[k] == if ok && k == lord then old(sessions)[k] + [req] else old(sessions)[k]
    {
      ok := GetSession(lord);
      if ok && room {
        PutKeepsOutboxes(sessions, sent, Protocol.Send(lord, req));
        sessions := sessions[lord := sessions[lord] + [req]];
        sent := sent + [Protocol.Send(lord, req)];
      } else {
        ok := false;
      }
    }

    // -------------------------------------------------------------------------
    // Spawn, Started and Exit
    // -------------------------------------------------------------------------

    /** STOPPED with a scheduler-made exit code. */
    method Finalize(entry: ProcessEntry, code: int)
      requires Valid() && entry.Member() && entry.table == processes
      modifies entry, processes`core, processes.wal
      ensures Valid() && entry.Member() && entry.info.id == old(entry.info.id)
      ensures View() == Journal.Finalize(old(View()), old(entry.info.id), code)
    {
      entry.UpdateState(Stopped, "", 0);
      entry.UpdateResult(code, 0);
    }

    /** What comes of a valid spawn call for which this lord was picked. */
    twostate predicate SpawnedOn(id: ProcId, req: SpawnRequest, lord: LordId, room: bool, r: SpawnResult)
      reads this, processes`core
    {
      if lord !in old(sessions) then
        r == NotConnected && View() == old(View()) && sent == old(sent)
      else if !room then
        r == NotSent && View() == Lifecycle.Spawn(old(View()), id, lord, req, false) && sent == old(sent)
      else
        var info := InfoFromRequest(id, lord, req);
        && r == Spawned(info) && View() == Lifecycle.Spawn(old(View()), id, lord, req, true)
        && sent == old(sent) + [Protocol.Send(lord, BuildSpawnRequest(info, req))]
    }

    /** A tenant's spawn call. A rejected one leaves no trace; one whose request cannot be
        queued leaves a STOPPED process; any other is READY and its request queued. */
    method Spawn(id: ProcId, req: SpawnRequest, prefer: LordId, room: bool) returns (r: SpawnResult, ghost lord: LordId)
      requires Valid() && id !in processes.byID
      modifies processes, processes.wal, this`sessions, this`sent
      ensures Valid() && sessions.Keys == old(sessions.Keys)
      ensures r.InvalidArgument? <==> !ValidRequest(req)
      ensures !r.InvalidArgument? <==>
        && req.tenant != "" && req.execPath != ""
        && (req.resources.Some? ==>
              var x := req.resources.value;
              && 0 <= x.cpuShares <= 10000 && 0 <= x.cpuQuotaPct <= 100 && 0 <= x.memLimit
              && 0 <= x.ioWeight <= 10000 && 0 <= x.pidsLimit <= 1000000)
      ensures r.NoLord? <==> ValidRequest(req) && !AnyUsable(lords.byID)
      ensures r.InvalidArgument? || r.NoLord? || r.NotConnected? ==> View() == old(View()) && sent == old(sent)
      ensures ValidRequest(req) && AnyUsable(lords.byID) ==>
        && MayPick(lords.byID, lords.weighted, prefer, lord) && SpawnedOn(id, req, lord, room, r)
        && (r.NotConnected? <==> lord !in old(sessions)) && (r.Spawned? <==> lord in old(sessions) && room)
      ensures r.NotSent? || r.Spawned? ==>
        var t, t' := old(View()).table, View().table;
        && t'.Keys == t.Keys + {id} && (forall k | k in t :: t'[k] == t[k])
        && t'[id].info == Info(id, ProgramOf(req), if r.Spawned? then Ready else Stopped, lord, 0,
                               if r.Spawned? then 0 else -1, 0, 0)
        && (r.Spawned? ==> r.info == t'[id].info)
      ensures r.NotSent? ==> sent == old(sent)
      ensures r.Spawned? ==> exists x ::
        && sent == old(sent) + [Protocol.Send(lord, x)]
        && CarriesProgram(x, id, req) && x.stdinInitial == req.stdinInitial
    {
      lord := "";
      if req.tenant == "" { return InvalidArgument, lord; }
      if req.execPath == "" { return InvalidArgument, lord; }
      if !ValidResources(req.resources) { return InvalidArgument, lord; }
      var pick := lords.Pick(prefer);
      if pick.None? { return NoLord, lord; }
      var picked := pick.value.id;
      lord := picked;
      var connected := GetSession(picked);
      if !connected { return NotConnected, lord; }
      r := SpawnAt(id, req, picked, room);
      SpawnTells(old(View()), id, picked, req, room);
      SpawnCarries(id, picked, req);
      hide Lifecycle.Spawn, BuildSpawnRequest, CarriesProgram, OutboxesOk;
    }

    method SpawnAt(id: ProcId, req: SpawnRequest, lord: LordId, room: bool) returns (r: SpawnResult)
      requires Valid() && id !in processes.byID && lord in sessions
      modifies processes, processes.wal, this`sessions, this`sent
      ensures Valid() && sessions.Keys == old(sessions.Keys) && SpawnedOn(id, req, lord, room, r)
    {
      var info := InfoFromRequest(id, lord, req);
      var entry := processes.Create(info);
      var ok := SendSpawn(lord, BuildSpawnRequest(info, req), room);
      if !ok {
        Finalize(entry, SEND_FAILED);
        return NotSent;
      }
      return Spawned(info);
    }

    /** A lord's Started message makes its process RUNNING there, with the pid it names. */
    method HandleStarted(lord: LordId, id: ProcId, localPid: int)
      requires Valid()
      modifies processes.entries, processes`core, processes.wal
      ensures Valid() && View() == Started(old(View()), id, lord, localPid)
      ensures OnlyAt(old(View()).table, View().table, id)
      ensures id in old(View()).table ==>
        var was := old(View()).table[id].info;
        View().table[id].info == was.(
          state := Running, lord := if lord == "" then was.lord else lord,
          localPid := if localPid == 0 then was.localPid else localPid)
    {
      ghost var c := View();
      if id in processes.byID { processes.byID[id].UpdateState(Running, lord, localPid); }
      assert View() == Started(c, id, lord, localPid);
      StartedTells(c, id, lord, localPid);
      hide Started;
    }

    /** A lord's Exit message makes its process STOPPED if a signal ended it, else EXITED. */
    method HandleProcessExit(id: ProcId, code: int, signal: int)
      requires Valid()
      modifies processes.entries, processes`core, processes.wal
      ensures Valid() && View() == Exit(old(View()), id, code, signal)
      ensures OnlyAt(old(View()).table, View().table, id)
      ensures id in old(View()).table ==>
        var was, i := old(View()).table[id].info, View().table[id].info;
        && (i.state == Stopped <==> signal != 0) && (i.state == Exited <==> signal == 0)
        && i == was.(state := i.state, exitCode := code, exitSignal := signal)
    {
      ghost var c := View();
      hide Journal.UpdateState, Journal.UpdateResult, OutboxesOk;
      ExitTells(c, id, code, signal);
      if id in processes.byID {
        var entry := processes.byID[id];
        if signal != 0 {
          entry.UpdateState(Stopped, "", 0);
        } else {
          entry.UpdateState(Exited, "", 0);
        }
        entry.UpdateResult(code, signal);
      }
    }

    // -------------------------------------------------------------------------
    // Respawn
    // -------------------------------------------------------------------------

    /** Mark and queue the request, or give up. */
    method MarkAndSend(entry: ProcessEntry, lord: LordId, room: bool) returns (ok: bool)
      requires Valid() && entry.Member() && entry.table == processes
      modifies entry, processes`core, processes.wal, this`sessions, this`sent
      ensures Valid() && entry.Member() && entry.info.id == old(entry.info.id)
      ensures ok == old(Takes(lord, room)) && sessions.Keys == old(sessions.Keys)
      ensures var c := MarkRestarting(old(View()), entry.info.id, lord);
        View() == if ok then c else Journal.Finalize(c, entry.info.id, RESPAWN_SEND_FAILED)
      ensures sent == if ok
        then old(sent) + [Protocol.Send(lord, RespawnRequest(View().table[entry.info.id].info))] else old(sent)
    {
      entry.Mark(lord);
      ok := SendSpawn(lord, RespawnRequest(entry.info), room);
      if !ok { Finalize(entry, RESPAWN_SEND_FAILED); }
    }

    /** Mark, queue the request and arm its timer, or give up. */
    method MarkSendAndArm(entry: ProcessEntry, lord: LordId, room: bool, now: Time)
      returns (ok: bool, ghost r: Respawned)
      requires Valid() && entry.Member() && entry.table == processes
      modifies entry, processes`core, processes.wal, this`sessions, this`sent, this`timers
      ensures Valid() && entry.Member() && entry.info.id == old(entry.info.id)
      ensures ok == old(Takes(lord, room)) && sessions.Keys == old(sessions.Keys)
      ensures var c := MarkRestarting(old(View()), entry.info.id, lord);
        && r == (if ok then Sent(RespawnRequest(c.table[entry.info.id].info)) else SendFailed)
        && View() == if ok then c else Journal.Finalize(c, entry.info.id, RESPAWN_SEND_FAILED)
      ensures sent == old(sent) + Queued(lord, r) && timers == old(timers) + Armed(Queued(lord, r), now)
    {
      hide Journal.Finalize, MarkRestarting, Armed, OutboxesOk;
      ArmedNone(now);
      ok := MarkAndSend(entry, lord, room);
      r := SendFailed;
      if ok {
        r := Sent(RespawnRequest(View().table[entry.info.id].info));
        assert View().table[entry.info.id] == entry.View();
        ArmedOne(Protocol.Send(lord, r.req), now);
        timers := timers + {Protocol.Timer(entry.info.id, now + Protocol.ACK_TIMEOUT)};
      }
    }

    /** Send an existing process to a lord: recovery and migration alike. */
    method RespawnProcessOnLord(entry: ProcessEntry, lord: LordId, room: bool, now: Time)
      returns (ok: bool, ghost r: Respawned)
      requires Valid() && entry.Member() && entry.table == processes
      modifies entry, processes`core, processes.wal, this`sessions, this`sent, this`timers
      ensures Valid() && entry.Member() && entry.info.id == old(entry.info.id)
      ensures (View(), r) == Respawn(old(View()), old(entry.info.id), lord, old(Takes(lord, room)))
      ensures ok == r.Ok() && sent == old(sent) + Queued(lord, r) && sessions.Keys == old(sessions.Keys)
      ensures timers == old(timers) + Armed(Queued(lord, r), now)
    {
      hide Journal.Finalize, MarkRestarting, RespawnRequest, Armed, OutboxesOk;
      ArmedNone(now);
      assert View().table[entry.info.id] == entry.View();
      var state, max := entry.info.state, entry.info.program.maxRestarts;
      if state == Exited || state == Stopped {
        ok, r := true, AlreadyFinal;
      } else if max >= 0 && entry.info.restarts >= max {
        Finalize(entry, BUDGET_SPENT);
        ok, r := false, OverBudget;
      } else {
        ok, r := MarkSendAndArm(entry, lord, room, now);
      }
    }

    /** The end of an ack timer. */
    method AckTimeout(timer: Protocol.Timer)
      requires Valid() && timer in timers && timer.id in processes.byID
      modifies processes.entries, processes`core, processes.wal, this`timers
      ensures Valid() && timers == old(timers) - {timer}
      ensures View() == GiveUp(old(View()), timer.id, ACK_TIMED_OUT)
      ensures OnlyAt(old(View()).table, View().table, timer.id)
      ensures var was, i := old(View()).table[timer.id].info, View().table[timer.id].info;
        i == if was.state != Restarting then was else was.(state := Stopped, exitCode := -3, exitSignal := 0)
    {
      GiveUpTells(View(), timer.id, ACK_TIMED_OUT);
      timers := timers - {timer};
      var entry := processes.byID[timer.id];
      assert View().table[timer.id] == entry.View();
      if entry.info.state == Restarting { Finalize(entry, ACK_TIMED_OUT); }
    }

    /** Table, requests and timers after a respawn of one process on one lord. */
    twostate predicate RespawnedOn(id: ProcId, lord: LordId, room: bool, now: Time)
      requires id in old(View()).table
      reads this, processes`core
    {
      var (c, r) := Respawn(old(View()), id, lord, old(Takes(lord, room)));
      View() == c && sent == old(sent) + Queued(lord, r) && timers == old(timers) + Armed(Queued(lord, r), now)
    }

    twostate predicate Untouched()
      reads this, processes`core
    {
      View() == old(View()) && sent == old(sent) && timers == old(timers)
    }

    // -------------------------------------------------------------------------
    // Migration
    // -------------------------------------------------------------------------

    /** Migration is a respawn on another lord. An automatic one, or one without a target,
        goes to the best-scoring usable lord other than the current one, whatever target the
        caller names. */
    method Migrate(id: ProcId, target: LordId, auto: bool, room: bool, now: Time)
      returns (r: MigrateResult, ghost lord: LordId)
      requires Valid()
      modifies processes.entries, processes`core, processes.wal, this`sessions, this`sent, this`timers
      ensures Valid() && sessions.Keys == old(sessions.Keys)
      ensures r.NotFound? <==> id !in old(View()).table
      ensures r.NotFound? || r.NoAlternative? || r.SameLord? ==> Untouched()
      ensures id in old(View()).table ==>
        var current := old(View()).table[id].info.lord;
        var free := auto || target == "";
        && (r.NoAlternative? <==> free && forall k | k in lords.byID && k != current :: !Usable(lords.byID, k))
        && (r.SameLord? <==> !free && target == current)
        && (r.Acknowledged? || r.RespawnFailed? ==>
              && (if free then IsBest(lords.byID, current, lord) else lord == target != current)
              && RespawnedOn(id, lord, room, now)
              && (r == Acknowledged(lord) <==> Respawn(old(View()), id, lord, old(Takes(lord, room))).1.Ok()))
    {
      lord := target;
      if id !in processes.byID { return NotFound, lord; }
      var entry := processes.byID[id];
      assert View().table[id] == entry.View();
      var to := target;
      if auto || target == "" {
        to := lords.PickDifferent(entry.info.lord);
        if to == "" { return NoAlternative, lord; }
      }
      if to == entry.info.lord { return SameLord(to), lord; }
      hide Respawn, Armed;
      lord := to;
      var ok, r' := RespawnProcessOnLord(entry, to, room, now);
      if !ok { return RespawnFailed, lord; }
      return Acknowledged(to), lord;
    }

    /** The process on a lord that entered its state last, in whatever state that is. */
    method PickColdestProcessOnLord(lord: LordId, age: ProcId -> nat) returns (best: ProcId)
      requires Valid() && "" !in View().table
      ensures best == "" ==>
        forall id | id in View().table && View().table[id].info.lord == lord :: age(id) >= 0xffff_ffff_ffff_ffff
      ensures best != "" ==> IsYoungest(View().table, lord, age, best)
    {
      best := "";
      var bestAge := MAX_AGE;
      var todo := processes.byID.Keys;
      while todo != {}
        invariant todo <= processes.byID.Keys
        invariant if best == "" then bestAge == MAX_AGE
          else best in OnLord(View().table, lord) && bestAge == age(best) < MAX_AGE
        invariant forall id | id in OnLord(View().table, lord) && id !in todo :: bestAge <= age(id)
        decreases todo
      {
        var id :| id in todo;
        todo := todo - {id};
        assert View().table[id] == processes.byID[id].View();
        if processes.byID[id].info.lord != lord { continue; }
        if age(id) < bestAge {
          bestAge := age(id);
          best := id;
        }
      }
    }

    /** Carry out a decision. A move takes the youngest process off the lord it names and
        respawns it on a best-scoring usable lord other than that one: where the planner
        wanted it plays no part. Nothing happens exactly when there is no such process or no
        such lord, or the decision is a blacklisting. */
    method ApplyDecision(d: Autoscale.Decision, age: ProcId -> nat, room: bool, now: Time)
      returns (ghost id: ProcId, ghost lord: LordId)
      requires Valid() && "" !in View().table
      modifies processes.entries, processes`core, processes.wal, this`sessions, this`sent, this`timers
      ensures Valid() && sessions.Keys == old(sessions.Keys)
      ensures !CanMove(lords.byID, old(View()).table, age, d) ==> Untouched()
      ensures CanMove(lords.byID, old(View()).table, age, d) ==>
        && IsYoungest(old(View()).table, d.from, age, id) && IsBest(lords.byID, d.from, lord)
        && RespawnedOn(id, lord, room, now)
    {
      id, lord := "", "";
      if d.Move?() {
        var pid := PickColdestProcessOnLord(d.from, age);
        if pid != "" {
          hide Respawn, Armed;
          id := pid;
          var r;
          r, lord := Migrate(pid, d.to, true, room, now);
        }
      }
    }

    // -------------------------------------------------------------------------
    // Recovery
    // -------------------------------------------------------------------------

    /** Sessions come and go while a recovery sleeps; those that stay keep their outboxes. */
    method Sleep(open: set<LordId>)
      requires Valid()
      modifies this`sessions
      ensures Valid() && sessions.Keys == open
      ensures forall k | k in open :: sessions[k] == if k in old(sessions) then old(sessions)[k] else []
    {
      sessions := map k | k in open :: if k in sessions then sessions[k] else [];
    }

    /** Table, requests and timers are what a recovery of these processes comes to, with the
        sessions that its attempts met, the last of which are left. */
    twostate predicate Recovered(ids: seq<ProcId>, w: World, attempts: nat)
      requires AllIn(ids, old(View()).table)
      reads this, processes`core
    {
      var e := Recover(old(View()), ids, Through(w, old(sessions.Keys)));
      && View() == e.core && attempts == e.attempts
      && sent == old(sent) + e.sent && timers == old(timers) + e.armed
      && sessions.Keys == OpenAfter(w, old(sessions.Keys), attempts)
    }

    /** What happens to the processes of a lord that disconnected: nothing if a recovery of it
        ran, or was asked for, less than ten seconds ago. */
    method RecoverFromLordDisconnect(dead: LordId, now: Time, w: World) returns (attempts: nat, ghost ids: seq<ProcId>)
      requires Valid()
      modifies processes.entries, processes`core, processes.wal, this
      ensures Valid() && lastRecoveryAt == old(lastRecoveryAt)[dead := now]
      ensures if dead in old(lastRecoveryAt) && now - old(lastRecoveryAt)[dead] < 10 * SECOND then ids == []
              else TakesUp(ids, old(View()).table, dead)
      ensures AllIn(ids, old(View()).table) && Recovered(ids, w, attempts)
    {
      var debounced := dead in lastRecoveryAt && now - lastRecoveryAt[dead] < DEBOUNCE;
      lastRecoveryAt := lastRecoveryAt[dead := now];
      RecoverNobody(View(), Through(w, sessions.Keys));
      hide OutboxesOk, Recover, Through;
      if debounced { return 0, []; }
      attempts, ids := RecoverProcesses(dead, w);
    }

    method RecoverProcesses(dead: LordId, w: World) returns (attempts: nat, ghost ids: seq<ProcId>)
      requires Valid()
      modifies processes.entries, processes`core, processes.wal, this`sessions, this`sent, this`timers
      ensures Valid()
      ensures TakesUp(ids, old(View()).table, dead) && AllIn(ids, old(View()).table) && Recovered(ids, w, attempts)
    {
      hide OutboxesOk, Ahead, Recover, Through, GiveUpAll, OpenAt, RespawnAll;
      var candidates: seq<ProcessEntry>;
      candidates, ids := processes.ListByLord(dead);
      if |candidates| == 0 {
        RecoverNobody(View(), Through(w, sessions.Keys));
        return 0, ids;
      }
      ghost var c0, v := View(), Through(w, sessions.Keys);
      ghost var e := Ahead(c0, ids, v, 0, [], {}, 0);
      attempts := Retry(candidates, ids, w, v, e, sessions.Keys);
      CleanUp(candidates, ids);
      RecoverIs(c0, ids, v, e, View());
    }

    /** The retry loop; `v` is what it meets, seen through the sessions open then. */
    method Retry(candidates: seq<ProcessEntry>, ghost ids: seq<ProcId>, w: World, ghost v: World, ghost e: Effect,
                 ghost open: set<LordId>)
      returns (attempts: nat)
      requires Valid() && processes.Holds(candidates, ids) && AllIn(ids, View().table)
      requires open == sessions.Keys && v == Through(w, open) && e == Ahead(View(), ids, v, 0, [], {}, 0)
      modifies processes.entries, processes`core, processes.wal, this`sessions, this`sent, this`timers
      ensures Valid() && processes.Holds(candidates, ids)
      ensures sessions.Keys == OpenAfter(w, open, attempts)
      ensures View() == e.core && attempts == e.attempts
      ensures sent == old(sent) + e.sent && timers == old(timers) + e.armed
    {
      hide Ahead, Through, OutboxesOk;
      attempts := 0;
      ghost var sent0, timers0 := sent, timers;
      ghost var more: seq<Protocol.Send> := [];
      ghost var armed: set<Protocol.Timer> := {};
      var succeeded := 0;
      while attempts < MAX_ATTEMPTS && succeeded == 0
        invariant attempts <= MAX_ATTEMPTS && sessions.Keys == OpenAfter(w, open, attempts)
        invariant Valid() && processes.Holds(candidates, ids) && AllIn(ids, View().table)
        invariant sent == sent0 + more && timers == timers0 + armed
        invariant e == Ahead(View(), ids, v, attempts, more, armed, succeeded)
        decreases MAX_ATTEMPTS - attempts
      {
        if attempts > 0 { Sleep(w.open(attempts)); }
        assert sessions.Keys == OpenAt(w, open, attempts);
        succeeded, more, armed := Attempt(candidates, ids, w, v, attempts, open, sent0, more, timers0, armed);
        attempts := attempts + 1;
      }
      AheadDone(View(), ids, v, attempts, more, armed, succeeded);
    }

    /** One attempt, a pass if a lord is found, after what earlier ones sent and armed. */
    method Attempt(candidates: seq<ProcessEntry>, ghost ids: seq<ProcId>, w: World, ghost v: World, i: nat,
                   ghost open: set<LordId>, ghost sent0: seq<Protocol.Send>, ghost more: seq<Protocol.Send>,
                   ghost timers0: set<Protocol.Timer>, ghost armed: set<Protocol.Timer>)
      returns (succeeded: nat, ghost more': seq<Protocol.Send>, ghost armed': set<Protocol.Timer>)
      requires Valid() && processes.Holds(candidates, ids) && AllIn(ids, View().table) && i < MAX_ATTEMPTS
      requires v == Through(w, open) && sessions.Keys == OpenAt(w, open, i)
      requires sent == sent0 + more && timers == timers0 + armed
      modifies processes.entries, processes`core, processes.wal, this`sessions, this`sent, this`timers
      ensures Valid() && AllIn(ids, View().table) && sessions.Keys == old(sessions.Keys)
      ensures sent == sent0 + more' && timers == timers0 + armed'
      ensures Ahead(old(View()), ids, v, i, more, armed, 0) == Ahead(View(), ids, v, i + 1, more', armed', succeeded)
    {
      var target := w.picks(i);
      ghost var c, p := View(), Sweep(View(), [], 0);
      succeeded := 0;
      ArmedNone(w.at(i));
      hide OutboxesOk;
      if target.Some? {
        succeeded, p := RespawnPass(candidates, ids, target.value, AcceptsAt(w, i), AcceptsAt(v, i), w.at(i));
      }
      AheadNext(c, ids, v, i, more, armed, p);
      more', armed' := more + p.sent, armed + Armed(p.sent, w.at(i));
      Assoc(sent0, more, p.sent);
      assert timers0 + armed + Armed(p.sent, w.at(i)) == timers0 + armed';
    }

    /** One pass of the retry loop; `accepts` is `room` behind the open sessions. */
    method RespawnPass(candidates: seq<ProcessEntry>, ghost ids: seq<ProcId>, lord: LordId,
                       room: ProcId -> bool, ghost accepts: ProcId -> bool, now: Time)
      returns (succeeded: nat, ghost p: Sweep)
      requires Valid() && processes.Holds(candidates, ids) && AllIn(ids, View().table)
      requires forall id :: accepts(id) == Takes(lord, room(id))
      modifies processes.entries, processes`core, processes.wal, this`sessions, this`sent, this`timers
      ensures Valid() && sessions.Keys == old(sessions.Keys)
      ensures p == RespawnAll(old(View()), ids, lord, accepts)
      ensures View() == p.core && succeeded == p.ok
      ensures sent == old(sent) + p.sent && timers == old(timers) + Armed(p.sent, now)
    {
      RespawnNobody(View(), lord, accepts);
      hide Respawn, RespawnAll, Queued, Armed, OutboxesOk;
      ArmedNone(now);
      succeeded := 0;
      ghost var c0, sent0 := View(), sent;
      p := Sweep(c0, [], 0);
      for i := 0 to |candidates|
        invariant Valid() && p == RespawnAll(c0, ids[..i], lord, accepts) && sessions.Keys == old(sessions.Keys)
        invariant View() == p.core && succeeded == p.ok
        invariant sent == sent0 + p.sent && timers == old(timers) + Armed(p.sent, now)
      {
        var entry := candidates[i];
        assert processes.byID[ids[i]] == entry;
        var ok, r := RespawnProcessOnLord(entry, lord, room(entry.info.id), now);
        if ok { succeeded := succeeded + 1; }
        RespawnAllNext(c0, ids, i, lord, accepts, View(), r);
        Assoc(sent0, p.sent, Queued(lord, r));
        ArmedAppend(p.sent, Queued(lord, r), now);
        p := Sweep(View(), p.sent + Queued(lord, r), succeeded);
      }
      assert ids[..|ids|] == ids;
    }

    /** After the retry loop: whoever is still RESTARTING is given up. */
    method CleanUp(candidates: seq<ProcessEntry>, ghost ids: seq<ProcId>)
      requires Valid() && processes.Holds(candidates, ids)
      modifies processes.entries, processes`core, processes.wal
      ensures Valid() && View() == GiveUpAll(old(View()), ids)
    {
      for i := 0 to |candidates|
        invariant Valid() && View() == GiveUpAll(old(View()), ids[..i])
      {
        GiveUpAllNext(old(View()), ids, i);
        var entry := candidates[i];
        assert processes.byID[ids[i]] == entry;
        if entry.info.state == Restarting { Finalize(entry, NO_LORD_LEFT); }
      }
      assert ids[..|ids|] == ids;
    }
  }

  /** A process on this lord, young enough to be seen, that none on it is younger than. */
  ghost predicate IsYoungest(t: Table, lord: LordId, age: ProcId -> nat, id: ProcId) {
    && id in t && t[id].info.lord == lord && age(id) < 0xffff_ffff_ffff_ffff
    && forall k | k in t && t[k].info.lord == lord :: age(id) <= age(k)
  }

  /** There is a process to move and a lord to move it to. */
  ghost predicate CanMove(lords: Lords, t: Table, age: ProcId -> nat, d: Autoscale.Decision) {
    && d.Move?()
    && (exists id | id in t && t[id].info.lord == d.from :: age(id) < 0xffff_ffff_ffff_ffff)
    && (exists lord | lord in lords :: lord != d.from && Usable(lords, lord))
  }
}
