/** The scheduler, its lords and the links between them as one transition system.

    A lord process is an agent; each of its connections gets a session, named by a lord id.
    Spawn requests are numbered in the order they were queued; the number of a request also
    names the OS process started for it. Requests may be handled in any order or lost; an
    agent's messages arrive in the order it sent them, but may be lost too. */
module Protocol {
  import opened Process
  import opened Clock
  import opened Journal
  import opened Lifecycle

  type Agent = nat

  const ACK_TIMEOUT: Time := 30 * SECOND

  datatype Msg =
    | StartedMsg(run: nat, localPid: int)
    | ExitMsg(run: nat, code: int, signal: int)

  datatype Send = Send(lord: LordId, req: SpawnRequest)

  datatype Timer = Timer(id: ProcId, due: Time)

  datatype Sys = Sys(
    core: Core,
    now: Time,
    owner: map<LordId, Agent>,      // every session ever opened, and whose it is
    connected: set<LordId>,         // sessions the scheduler holds open
    sent: seq<Send>,                // every spawn request ever queued
    inflight: set<nat>,             // requests neither handled nor lost
    started: set<nat>,              // requests for which an OS process was started
    live: map<nat, Agent>,          // OS processes still running, and where
    up: map<Agent, seq<Msg>>,       // each agent's outbox
    timers: set<Timer>,             // armed ack timers
    // history
    lives: nat,                     // scheduler lifetimes that ended
    base: nat,                      // requests queued before this scheduler lifetime
    earlier: set<nat>,              // OS processes started before this lifetime
    carried: set<nat>,              // requests still pending when this lifetime began
    born: set<ProcId>,              // processes created in this lifetime
    lastSend: map<ProcId, Time>,    // latest successful respawn in this lifetime
    respawned: set<ProcId>,         // processes ever respawned
    unlogged: set<ProcId>           // processes whose last lord change was not logged
  )

  function Init(now: Time): Sys {
    Sys(Core(map[], []), now, map[], {}, [], {}, {}, map[], map[], {}, 0, 0, {}, {}, {}, map[], {}, {})
  }

  /** How many requests for a process were queued since number `base`. */
  function SendsOf(sent: seq<Send>, base: nat, id: ProcId): nat {
    if |sent| <= base then 0
    else SendsOf(sent[..|sent| - 1], base, id) + if sent[|sent| - 1].req.processId == id then 1 else 0
  }

  lemma SendsOfSnoc(sent: seq<Send>, base: nat, id: ProcId, x: Send)
    requires base <= |sent|
    ensures SendsOf(sent + [x], base, id) == SendsOf(sent, base, id) + if x.req.processId == id then 1 else 0
  {
    assert (sent + [x])[..|sent|] == sent;
  }

  function Outbox(up: map<Agent, seq<Msg>>, a: Agent): seq<Msg> {
    if a in up then up[a] else []
  }

  function IdOf(sent: seq<Send>, run: nat): ProcId {
    if run < |sent| then sent[run].req.processId else ""
  }

  // ---------------------------------------------------------------------------
  // Steps
  // ---------------------------------------------------------------------------

  datatype Outcome =
    | Refused                   // draining, or the program could not be started
    | Silent                    // failed before anything was started or said
    | Up(localPid: int)

  datatype Action =
    | SpawnCall(id: ProcId, lord: LordId, req: SpawnRequest, accepted: bool)
    | Handle(run: nat, outcome: Outcome)
    | LoseRequest(run: nat)
    | Finish(run: nat, code: int, signal: int)
    | Deliver(agent: Agent, lord: LordId)
    | LoseMessage(agent: Agent, i: nat)
    | Connect(lord: LordId, agent: Agent)
    | RebindTo(from: LordId, to: LordId)
    | Disconnect(lord: LordId)
    | RespawnOn(id: ProcId, lord: LordId, accepted: bool)   // recovery pass or Migrate
    | CleanUp(id: ProcId)                                   // after the recovery loop
    | TimerFires(timer: Timer)
    | Pass(until: Time)
    | Restart                                               // of the scheduler

  predicate Enabled(s: Sys, a: Action) {
    match a
    case SpawnCall(id, lord, req, accepted) =>
      id !in s.core.table && ValidRequest(req) && lord in s.connected
    case Handle(run, _) => run in s.inflight && run < |s.sent| && s.sent[run].lord in s.owner
    case LoseRequest(run) => run in s.inflight
    case Finish(run, _, _) => run in s.live
    case Deliver(agent, lord) =>
      lord in s.connected && lord in s.owner && s.owner[lord] == agent && Outbox(s.up, agent) != []
    case LoseMessage(agent, i) => i < |Outbox(s.up, agent)|
    case Connect(lord, _) => lord != "" && lord !in s.owner
    case RebindTo(from, to) => to in s.connected
    case Disconnect(lord) => lord in s.connected
    case RespawnOn(id, lord, accepted) => id in s.core.table && (accepted ==> lord in s.connected)
    case CleanUp(id) => id in s.core.table
    case TimerFires(timer) => timer in s.timers && timer.due <= s.now
    case Pass(until) => s.now <= until && forall t | t in s.timers :: until <= t.due
    case Restart => true
  }

  function Push(up: map<Agent, seq<Msg>>, a: Agent, m: Msg): map<Agent, seq<Msg>> {
    up[a := Outbox(up, a) + [m]]
  }

  function Remove(up: map<Agent, seq<Msg>>, a: Agent, i: nat): map<Agent, seq<Msg>>
    requires i < |Outbox(up, a)|
  {
    up[a := up[a][..i] + up[a][i + 1..]]
  }

  /** One message reaches the scheduler through the session of `lord`. */
  function Receive(c: Core, sent: seq<Send>, m: Msg, lord: LordId): Core {
    match m
    case StartedMsg(run, localPid) => Started(c, IdOf(sent, run), lord, localPid)
    case ExitMsg(run, code, signal) => Exit(c, IdOf(sent, run), code, signal)
  }

  function Queue(s: Sys, lord: LordId, req: SpawnRequest): Sys {
    s.(sent := s.sent + [Send(lord, req)], inflight := s.inflight + {|s.sent|})
  }

  function SpawnStep(s: Sys, id: ProcId, lord: LordId, req: SpawnRequest, accepted: bool): Sys {
    var s1 := s.(core := Spawn(s.core, id, lord, req, accepted), born := s.born + {id});
    if accepted then Queue(s1, lord, BuildSpawnRequest(InfoFromRequest(id, lord, req), req)) else s1
  }

  function HandleStep(s: Sys, run: nat, outcome: Outcome): Sys
    requires Enabled(s, Handle(run, outcome))
  {
    var agent := s.owner[s.sent[run].lord];
    var s1 := s.(inflight := s.inflight - {run});
    match outcome
    case Refused => s1.(up := Push(s.up, agent, ExitMsg(run, -1, 0)))
    case Silent => s1
    case Up(localPid) =>
      s1.(started := s.started + {run}, live := s.live[run := agent],
          up := Push(s.up, agent, StartedMsg(run, localPid)))
  }

  function RespawnStep(s: Sys, id: ProcId, lord: LordId, accepted: bool): Sys
    requires id in s.core.table
  {
    var (c, r) := Respawn(s.core, id, lord, accepted);
    Respawning(s, id, lord, c, r)
  }

  function Respawning(s: Sys, id: ProcId, lord: LordId, c: Core, r: Respawned): Sys {
    match r
    case AlreadyFinal => s
    case OverBudget => s.(core := c, respawned := s.respawned + {id})
    case SendFailed =>
      s.(core := c, respawned := s.respawned + {id}, unlogged := s.unlogged + {id})
    case Sent(req) =>
      Queue(s, lord, req).(
        core := c, respawned := s.respawned + {id}, unlogged := s.unlogged + {id},
        timers := s.timers + {Timer(id, s.now + ACK_TIMEOUT)}, lastSend := s.lastSend[id := s.now])
  }

  /** The processes that a re-bind moves off the log. */
  function Unlogged(c: Core, from: LordId, to: LordId): set<ProcId> {
    if from == "" || from == to then {} else set id | id in c.table && c.table[id].info.lord == from
  }

  function Next(s: Sys, a: Action): Sys
    requires Enabled(s, a)
  {
    match a
    case SpawnCall(id, lord, req, accepted) => SpawnStep(s, id, lord, req, accepted)
    case Handle(run, outcome) => HandleStep(s, run, outcome)
    case LoseRequest(run) => s.(inflight := s.inflight - {run})
    case Finish(run, code, signal) =>
      s.(live := s.live - {run}, up := Push(s.up, s.live[run], ExitMsg(run, code, signal)))
    case Deliver(agent, lord) =>
      var m := s.up[agent][0];
      s.(core := Receive(s.core, s.sent, m, lord), up := Remove(s.up, agent, 0),
         unlogged := if m.StartedMsg? && lord != "" then s.unlogged - {IdOf(s.sent, m.run)} else s.unlogged)
    case LoseMessage(agent, i) => s.(up := Remove(s.up, agent, i))
    case Connect(lord, agent) => s.(owner := s.owner[lord := agent], connected := s.connected + {lord})
    case RebindTo(from, to) =>
      s.(core := Rebind(s.core, from, to),
         unlogged := s.unlogged + Unlogged(s.core, from, to))
    case Disconnect(lord) => s.(connected := s.connected - {lord})
    case RespawnOn(id, lord, accepted) => RespawnStep(s, id, lord, accepted)
    case CleanUp(id) => s.(core := GiveUp(s.core, id, NO_LORD_LEFT))
    case TimerFires(timer) =>
      s.(timers := s.timers - {timer}, core := GiveUp(s.core, timer.id, ACK_TIMED_OUT))
    case Pass(until) => s.(now := until)
    case Restart =>
      s.(core := Core(Replay(s.core.log), s.core.log), connected := {}, timers := {},
         lives := s.lives + 1, base := |s.sent|, earlier := s.started, carried := s.inflight,
         born := {}, lastSend := map[], unlogged := {})
  }

  /** What a step makes of table and log. */
  function NextCore(s: Sys, a: Action): Core
    requires Enabled(s, a)
  {
    match a
    case SpawnCall(id, lord, req, accepted) => Spawn(s.core, id, lord, req, accepted)
    case Deliver(agent, lord) => Receive(s.core, s.sent, s.up[agent][0], lord)
    case RebindTo(from, to) => Rebind(s.core, from, to)
    case RespawnOn(id, lord, accepted) => Respawn(s.core, id, lord, accepted).0
    case CleanUp(id) => GiveUp(s.core, id, NO_LORD_LEFT)
    case TimerFires(timer) => GiveUp(s.core, timer.id, ACK_TIMED_OUT)
    case Restart => Core(Replay(s.core.log), s.core.log)
    case _ => s.core
  }

  lemma NextCoreIs(s: Sys, a: Action)
    requires Enabled(s, a)
    ensures Next(s, a).core == NextCore(s, a)
  {
    hide Replay, Spawn, Rebind, GiveUp, Receive, Push, Outbox, BuildSpawnRequest, InfoFromRequest, Remove;
    if a.RespawnOn? {
      var (c, r) := Respawn(s.core, a.id, a.lord, a.accepted);
      RespawnCore(s, a.id, a.lord, a.accepted);
      hide Respawn;
      assert Next(s, a) == Respawning(s, a.id, a.lord, c, r);
    }
  }

  lemma RespawnCore(s: Sys, id: ProcId, lord: LordId, accepted: bool)
    requires id in s.core.table
    ensures var (c, r) := Respawn(s.core, id, lord, accepted); Respawning(s, id, lord, c, r).core == c
  {
  }

  /** Steps of lords, links and the clock. */
  predicate OnLinks(a: Action) {
    a.Handle? || a.LoseRequest? || a.Finish? || a.LoseMessage? || a.Connect? || a.Disconnect? || a.Pass?
  }

  lemma HandleFrame(s: Sys, run: nat, outcome: Outcome)
    requires Enabled(s, Handle(run, outcome))
    ensures var s' := HandleStep(s, run, outcome);
      s' == s.(inflight := s'.inflight, started := s'.started, live := s'.live, up := s'.up)
  {
    hide Push, Outbox;
  }

  lemma OnLinksFrame(s: Sys, a: Action)
    requires Enabled(s, a) && OnLinks(a)
    ensures var s' := Next(s, a);
      && s'.core == s.core && s'.sent == s.sent && s'.timers == s.timers
      && s'.now == (if a.Pass? then a.until else s.now)
      && s'.lives == s.lives && s'.base == s.base && s'.earlier == s.earlier && s'.carried == s.carried
      && s'.born == s.born && s'.lastSend == s.lastSend
      && s'.respawned == s.respawned && s'.unlogged == s.unlogged
  {
    if a.Handle? { HandleFrame(s, a.run, a.outcome); }
    hide Replay, Respawn, Spawn, Rebind, GiveUp, Receive, Push, Outbox, HandleStep, SpawnStep, RespawnStep;
  }

  // ---------------------------------------------------------------------------
  // Runs
  // ---------------------------------------------------------------------------

  ghost predicate IsRun(now: Time, run: seq<Action>)
    decreases |run|, 0
  {
    run == [] ||
    (IsRun(now, run[..|run| - 1]) && Enabled(After(now, run[..|run| - 1]), run[|run| - 1]))
  }

  ghost function After(now: Time, run: seq<Action>): Sys
    requires IsRun(now, run)
    decreases |run|, 1
  {
    if run == [] then Init(now) else Next(After(now, run[..|run| - 1]), run[|run| - 1])
  }

  ghost predicate Reachable(s: Sys) {
    exists now, run :: IsRun(now, run) && After(now, run) == s
  }
}
