/** Invariants of the transition system about requests, OS processes and messages, and the
    life of a process that is never respawned. */
module LinkInvariants {
  import opened Process
  import opened Clock
  import opened Journal
  import opened Lifecycle
  import opened Protocol
  import opened TableInvariants

  // ---------------------------------------------------------------------------
  // Messages in order
  // ---------------------------------------------------------------------------

  datatype Links = Links(up: map<Agent, seq<Msg>>, live: map<nat, Agent>, inflight: set<nat>, started: set<nat>, n: nat)

  function LinksOf(s: Sys): Links {
    Links(s.up, s.live, s.inflight, s.started, |s.sent|)
  }

  /** Messages about one OS process: a Started, an Exit, or the two in this order. */
  ghost predicate InOrder(up: map<Agent, seq<Msg>>) {
    forall a, i, j | a in up && 0 <= i < j < |up[a]| && up[a][i].run == up[a][j].run ::
      up[a][i].StartedMsg? && up[a][j].ExitMsg?
  }

  /** They are all at one agent. */
  ghost predicate AtOneAgent(up: map<Agent, seq<Msg>>) {
    forall a, i, b, j | a in up && 0 <= i < |up[a]| && b in up && 0 <= j < |up[b]| && up[a][i].run == up[b][j].run ::
      a == b
  }

  predicate MsgOk(k: Links, a: Agent, m: Msg) {
    && m.run < k.n && m.run !in k.inflight
    && (m.ExitMsg? ==> m.run !in k.live)
    && (m.run in k.live ==> k.live[m.run] == a)
  }

  ghost predicate MsgsOk(k: Links) {
    forall a, i | a in k.up && 0 <= i < |k.up[a]| :: MsgOk(k, a, k.up[a][i])
  }

  /** A request is waiting, or handled; only a handled one has messages and a process.
      A running process has sent no Exit. */
  ghost predicate LinksOk(k: Links) {
    && (forall r | r in k.inflight :: r < k.n)
    && (forall r | r in k.started :: r < k.n && r !in k.inflight)
    && (forall r | r in k.live :: r in k.started)
    && MsgsOk(k) && InOrder(k.up) && AtOneAgent(k.up)
  }

  lemma RemoveAt(up: map<Agent, seq<Msg>>, a: Agent, i: nat, j: nat)
    requires i < |Outbox(up, a)| && j < |Outbox(up, a)| - 1
    ensures Remove(up, a, i)[a][j] == up[a][if j < i then j else j + 1]
  {
  }

  lemma RemoveKeepsOrder(up: map<Agent, seq<Msg>>, a: Agent, i: nat)
    requires InOrder(up) && AtOneAgent(up) && i < |Outbox(up, a)|
    ensures InOrder(Remove(up, a, i)) && AtOneAgent(Remove(up, a, i))
  {
    forall j | 0 <= j < |Outbox(up, a)| - 1
      ensures Remove(up, a, i)[a][j] == up[a][if j < i then j else j + 1] { RemoveAt(up, a, i, j); }
  }

  lemma RemoveKeepsLinks(k: Links, a: Agent, i: nat)
    requires LinksOk(k) && i < |Outbox(k.up, a)|
    ensures LinksOk(k.(up := Remove(k.up, a, i)))
  {
    RemoveKeepsOrder(k.up, a, i);
    forall j | 0 <= j < |Outbox(k.up, a)| - 1
      ensures Remove(k.up, a, i)[a][j] == k.up[a][if j < i then j else j + 1] { RemoveAt(k.up, a, i, j); }
  }

  /** No message about `m.run`, or only its Started, and that at `a` with `m` its Exit. */
  ghost predicate MayFollow(up: map<Agent, seq<Msg>>, a: Agent, m: Msg) {
    forall b, i | b in up && 0 <= i < |up[b]| && up[b][i].run == m.run :: b == a && up[b][i].StartedMsg? && m.ExitMsg?
  }

  lemma PushKeepsInOrder(up: map<Agent, seq<Msg>>, a: Agent, m: Msg)
    requires InOrder(up) && MayFollow(up, a, m)
    ensures InOrder(Push(up, a, m))
  {
    assert forall j | 0 <= j < |Outbox(up, a)| :: Push(up, a, m)[a][j] == up[a][j];
  }

  lemma PushKeepsAtOneAgent(up: map<Agent, seq<Msg>>, a: Agent, m: Msg)
    requires AtOneAgent(up) && MayFollow(up, a, m)
    ensures AtOneAgent(Push(up, a, m))
  {
    var up' := Push(up, a, m);
    forall b, i | b in up' && 0 <= i < |up'[b]|
      ensures (b == a && up'[b][i] == m) || (b in up && i < |up[b]| && up'[b][i] == up[b][i])
    {
    }
  }

  lemma PushKeepsMsgs(k: Links, a: Agent, m: Msg)
    requires MsgsOk(k) && MsgOk(k, a, m)
    ensures MsgsOk(k.(up := Push(k.up, a, m)))
  {
    assert forall j | 0 <= j < |Outbox(k.up, a)| :: Push(k.up, a, m)[a][j] == k.up[a][j];
  }

  /** Queue a message of `run` behind at most its own Started at the same agent. */
  lemma PushKeepsLinks(k: Links, a: Agent, m: Msg)
    requires LinksOk(k) && m.run < k.n && m.run !in k.inflight && m.run !in k.live && MayFollow(k.up, a, m)
    ensures LinksOk(k.(up := Push(k.up, a, m)))
  {
    PushKeepsInOrder(k.up, a, m);
    PushKeepsAtOneAgent(k.up, a, m);
    PushKeepsMsgs(k, a, m);
  }

  /** The process of a request whose only message, if any, is its Started at `a`. */
  lemma StartKeepsLinks(k: Links, run: nat, a: Agent)
    requires LinksOk(k) && run < k.n && run !in k.inflight
    requires forall b, i | b in k.up && 0 <= i < |k.up[b]| && k.up[b][i].run == run :: b == a && k.up[b][i].StartedMsg?
    ensures LinksOk(k.(live := k.live[run := a], started := k.started + {run}))
  {
  }

  /** A request leaves the link and its first message is queued. */
  lemma HandleKeepsLinks(k: Links, run: nat, a: Agent, m: Msg)
    requires LinksOk(k) && run in k.inflight && m.run == run
    ensures var k1 := k.(inflight := k.inflight - {run}, up := Push(k.up, a, m));
      LinksOk(if m.StartedMsg? then k1.(live := k.live[run := a], started := k.started + {run}) else k1)
  {
    var k0 := k.(inflight := k.inflight - {run});
    assert forall b, i | b in k.up && 0 <= i < |k.up[b]| :: k.up[b][i].run != run;
    PushKeepsLinks(k0, a, m);
    var k1 := k0.(up := Push(k.up, a, m));
    if m.StartedMsg? { StartKeepsLinks(k1, run, a); }
  }

  lemma FinishKeepsLinks(k: Links, run: nat, code: int, signal: int)
    requires LinksOk(k) && run in k.live
    ensures LinksOk(k.(up := Push(k.up, k.live[run], ExitMsg(run, code, signal)), live := k.live - {run}))
  {
    var k0 := k.(live := k.live - {run});
    assert LinksOk(k0);
    PushKeepsLinks(k0, k.live[run], ExitMsg(run, code, signal));
  }

  lemma QueueKeepsLinks(k: Links)
    requires LinksOk(k)
    ensures LinksOk(k.(inflight := k.inflight + {k.n}, n := k.n + 1))
  {
  }

  lemma LinksHandle(s: Sys, run: nat, outcome: Outcome)
    requires LinksOk(LinksOf(s)) && Enabled(s, Handle(run, outcome))
    ensures LinksOk(LinksOf(HandleStep(s, run, outcome)))
  {
    var k, agent := LinksOf(s), s.owner[s.sent[run].lord];
    match outcome
    case Refused => HandleKeepsLinks(k, run, agent, ExitMsg(run, -1, 0));
    case Silent => assert MsgsOk(k.(inflight := k.inflight - {run}));
    case Up(localPid) => HandleKeepsLinks(k, run, agent, StartedMsg(run, localPid));
  }

  lemma LinksRespawn(s: Sys, id: ProcId, lord: LordId, accepted: bool)
    requires LinksOk(LinksOf(s)) && id in s.core.table
    ensures LinksOk(LinksOf(RespawnStep(s, id, lord, accepted)))
  {
    var (c, r) := Respawn(s.core, id, lord, accepted);
    RespawningKeepsLinks(s, id, lord, c, r);
  }

  lemma RespawningKeepsLinks(s: Sys, id: ProcId, lord: LordId, c: Core, r: Respawned)
    requires LinksOk(LinksOf(s))
    ensures LinksOk(LinksOf(Respawning(s, id, lord, c, r)))
  {
    hide LinksOk;
    QueueKeepsLinks(LinksOf(s));
  }

  lemma LinksStep(s: Sys, a: Action)
    requires LinksOk(LinksOf(s)) && Enabled(s, a)
    ensures LinksOk(LinksOf(Next(s, a)))
  {
    var k := LinksOf(s);
    match a
    case Handle(run, outcome) => LinksHandle(s, run, outcome);
    case Finish(run, code, signal) => FinishKeepsLinks(k, run, code, signal);
    case Deliver(agent, lord) => RemoveKeepsLinks(k, agent, 0);
    case LoseMessage(agent, i) => RemoveKeepsLinks(k, agent, i);
    case SpawnCall(id, lord, req, accepted) => QueueKeepsLinks(k);
    case RespawnOn(id, lord, accepted) => LinksRespawn(s, id, lord, accepted);
    case _ =>
  }

  // ---------------------------------------------------------------------------
  // The life of a process that is never respawned
  // ---------------------------------------------------------------------------

  predicate Early(hist: seq<PState>) {
    hist == [Ready] || hist == [Ready, Running]
  }

  predicate Over(hist: seq<PState>) {
    |hist| > 0 && Early(hist[..|hist| - 1]) && Final(hist[|hist| - 1])
  }

  datatype Lives = Lives(k: Links, sent: seq<Send>, hists: map<ProcId, seq<PState>>, respawned: set<ProcId>)

  ghost function Hists(t: Table): map<ProcId, seq<PState>> {
    map id | id in t :: t[id].hist
  }

  ghost function LivesOf(s: Sys): Lives {
    Lives(LinksOf(s), s.sent, Hists(s.core.table), s.respawned)
  }

  ghost predicate Waiting(v: Lives, id: ProcId) { id in v.hists && v.hists[id] == [Ready] }

  ghost predicate Going(v: Lives, id: ProcId) { id in v.hists && Early(v.hists[id]) }

  /** It has one request. Until that is answered the process is READY; while its OS process
      runs or its Exit is on the way it is READY or RUNNING; its history is always one of
      the two, or one of them followed by a final state. */
  ghost predicate LivesOk(v: Lives) {
    && |v.sent| == v.k.n
    && (forall id | id in v.hists && id !in v.respawned :: Early(v.hists[id]) || Over(v.hists[id]))
    && (forall i, j | 0 <= i < |v.sent| && 0 <= j < |v.sent| && v.sent[i].req.processId == v.sent[j].req.processId
          && v.sent[i].req.processId !in v.respawned :: i == j)
    && (forall r | 0 <= r < |v.sent| && v.sent[r].req.processId !in v.respawned ::
          && (r in v.k.inflight ==> Waiting(v, v.sent[r].req.processId))
          && (r in v.k.live ==> Going(v, v.sent[r].req.processId)))
    && (forall a, i | a in v.k.up && 0 <= i < |v.k.up[a]| ::
          var m := v.k.up[a][i];
          var id := IdOf(v.sent, m.run);
          id !in v.respawned ==> if m.StartedMsg? then Waiting(v, id) else Going(v, id))
  }

  lemma LivesRemove(v: Lives, a: Agent, i: nat)
    requires LivesOk(v) && i < |Outbox(v.k.up, a)|
    ensures LivesOk(v.(k := v.k.(up := Remove(v.k.up, a, i))))
  {
    var up' := Remove(v.k.up, a, i);
    assert forall j | 0 <= j < |up'[a]| :: up'[a][j] == v.k.up[a][if j < i then j else j + 1];
  }

  lemma LivesHandle(v: Lives, run: nat, a: Agent, m: Msg)
    requires LivesOk(v) && LinksOk(v.k) && run in v.k.inflight && m.run == run
    ensures var k1 := v.k.(inflight := v.k.inflight - {run}, up := Push(v.k.up, a, m));
      LivesOk(v.(k := if m.StartedMsg? then k1.(live := v.k.live[run := a], started := v.k.started + {run}) else k1))
  {
    var up' := Push(v.k.up, a, m);
    assert forall j | 0 <= j < |Outbox(v.k.up, a)| :: up'[a][j] == v.k.up[a][j];
    assert run < |v.sent|;
    hide LinksOk, Push, Outbox, Early, Over;
  }

  lemma LivesFinish(v: Lives, run: nat, code: int, signal: int)
    requires LivesOk(v) && LinksOk(v.k) && run in v.k.live
    ensures var up' := Push(v.k.up, v.k.live[run], ExitMsg(run, code, signal));
      LivesOk(v.(k := v.k.(up := up', live := v.k.live - {run})))
  {
    var a := v.k.live[run];
    var up' := Push(v.k.up, a, ExitMsg(run, code, signal));
    assert forall j | 0 <= j < |Outbox(v.k.up, a)| :: up'[a][j] == v.k.up[a][j];
  }

  /** The head message is received: the history of its process grows by one state. */
  lemma LivesDeliver(v: Lives, a: Agent, st: PState)
    requires LivesOk(v) && LinksOk(v.k) && Outbox(v.k.up, a) != []
    requires if v.k.up[a][0].StartedMsg? then st == Running else Final(st)
    ensures var id := IdOf(v.sent, v.k.up[a][0].run);
      id in v.hists ==>
        LivesOk(v.(k := v.k.(up := Remove(v.k.up, a, 0)), hists := v.hists[id := v.hists[id] + [st]]))
  {
    var m := v.k.up[a][0];
    var id := IdOf(v.sent, m.run);
    if id in v.hists {
      var up' := Remove(v.k.up, a, 0);
      assert forall j | 0 <= j < |up'[a]| :: up'[a][j] == v.k.up[a][j + 1];
      var h := v.hists[id];
      assert (h + [st])[..|h|] == h;
      forall b, j | b in up' && 0 <= j < |up'[b]| && IdOf(v.sent, up'[b][j].run) == id && id !in v.respawned
        ensures up'[b][j].run == m.run && m.StartedMsg? && up'[b][j].ExitMsg?
      {
        assert v.sent[m.run].req.processId == id == v.sent[up'[b][j].run].req.processId;
      }
    }
  }

  /** Histories of processes that were not respawned before nor since are as they were. */
  lemma LivesFrame(v: Lives, hists: map<ProcId, seq<PState>>, respawned: set<ProcId>)
    requires LivesOk(v) && v.respawned <= respawned && v.hists.Keys == hists.Keys
    requires forall id | id in hists && id !in respawned :: hists[id] == v.hists[id]
    ensures LivesOk(v.(hists := hists, respawned := respawned))
  {
  }

  /** A request is queued for a process without one, or for a respawned one. */
  lemma LivesQueue(v: Lives, x: Send)
    requires LivesOk(v) && LinksOk(v.k)
    requires x.req.processId in v.respawned ||
      (Waiting(v, x.req.processId) && forall r | 0 <= r < |v.sent| :: v.sent[r].req.processId != x.req.processId)
    ensures LivesOk(v.(sent := v.sent + [x], k := v.k.(inflight := v.k.inflight + {v.k.n}, n := v.k.n + 1)))
  {
  }

  lemma LivesNew(v: Lives, id: ProcId, hist: seq<PState>)
    requires LivesOk(v) && id !in v.hists && (Early(hist) || Over(hist))
    requires forall r | 0 <= r < |v.sent| :: v.sent[r].req.processId in v.hists
    ensures LivesOk(v.(hists := v.hists[id := hist]))
  {
  }

  ghost predicate LinkInv(s: Sys) {
    LinksOk(LinksOf(s)) && LivesOk(LivesOf(s))
  }

  lemma SpawnHists(c: Core, id: ProcId, lord: LordId, req: SpawnRequest, accepted: bool)
    requires id !in c.table
    ensures Hists(Spawn(c, id, lord, req, accepted).table) ==
      Hists(c.table)[id := if accepted then [Ready] else [Ready, Stopped]]
  {
    assert [Ready] + [Stopped] == [Ready, Stopped];
  }

  lemma LivesSpawn(s: Sys, id: ProcId, lord: LordId, req: SpawnRequest, accepted: bool)
    requires LinkInv(s) && SendInv(s) && Enabled(s, SpawnCall(id, lord, req, accepted))
    ensures LivesOk(LivesOf(SpawnStep(s, id, lord, req, accepted)))
  {
    var v := LivesOf(s);
    var hist := if accepted then [Ready] else [Ready, Stopped];
    assert [Ready, Stopped][..1] == [Ready];
    SpawnHists(s.core, id, lord, req, accepted);
    LivesNew(v, id, hist);
    if accepted {
      LivesQueue(v.(hists := v.hists[id := hist]), Send(lord, BuildSpawnRequest(InfoFromRequest(id, lord, req), req)));
    }
  }

  lemma LivesRespawn(s: Sys, id: ProcId, lord: LordId, accepted: bool, c: Core, r: Respawned)
    requires LinkInv(s) && TouchesOne(s.core, c, id, accepted, r) && s.core.table[id].info.id == id
    ensures LivesOk(LivesOf(Respawning(s, id, lord, c, r)))
  {
    if !r.AlreadyFinal? {
      var v := LivesOf(s);
      LivesFrame(v, Hists(c.table), s.respawned + {id});
      var v1 := v.(hists := Hists(c.table), respawned := s.respawned + {id});
      if r.Sent? { LivesQueue(v1, Send(lord, r.req)); }
    }
  }

  /** RESTARTING processes were respawned, so giving one up changes nothing here. */
  lemma LivesGiveUp(s: Sys, id: ProcId, code: int, timers: set<Timer>)
    requires LinkInv(s) && TimerInv(s)
    ensures LivesOk(LivesOf(s.(core := GiveUp(s.core, id, code), timers := timers)))
  {
    LivesFrame(LivesOf(s), Hists(GiveUp(s.core, id, code).table), s.respawned);
  }

  lemma LivesReceive(s: Sys, agent: Agent, lord: LordId)
    requires LinkInv(s) && Enabled(s, Deliver(agent, lord))
    ensures LivesOk(LivesOf(Next(s, Deliver(agent, lord))))
  {
    var s' := Next(s, Deliver(agent, lord));
    var v := LivesOf(s);
    var m := s.up[agent][0];
    var id := IdOf(s.sent, m.run);
    var st := match m case StartedMsg(_, _) => Running case ExitMsg(_, _, signal) => ExitState(signal);
    LivesDeliver(v, agent, st);
    if id in s.core.table {
      assert Hists(s'.core.table) == v.hists[id := v.hists[id] + [st]];
    } else {
      LivesRemove(v, agent, 0);
      assert Hists(s'.core.table) == v.hists;
    }
  }

  lemma LivesHandleStep(s: Sys, run: nat, outcome: Outcome)
    requires LinkInv(s) && Enabled(s, Handle(run, outcome))
    ensures LivesOk(LivesOf(HandleStep(s, run, outcome)))
  {
    var v, agent := LivesOf(s), s.owner[s.sent[run].lord];
    match outcome
    case Refused => LivesHandle(v, run, agent, ExitMsg(run, -1, 0));
    case Silent =>
    case Up(localPid) => LivesHandle(v, run, agent, StartedMsg(run, localPid));
  }

  lemma LivesLinkStep(s: Sys, a: Action)
    requires LinkInv(s) && Enabled(s, a) && OnLinks(a)
    ensures LivesOk(LivesOf(Next(s, a)))
  {
    var v := LivesOf(s);
    match a
    case Handle(run, outcome) => LivesHandleStep(s, run, outcome);
    case Finish(run, code, signal) => LivesFinish(v, run, code, signal);
    case LoseMessage(agent, i) => LivesRemove(v, agent, i);
    case _ =>
  }

  lemma LivesTableStep(s: Sys, a: Action)
    requires LinkInv(s) && TableInv(s) && Enabled(s, a) && !OnLinks(a)
    ensures LivesOk(LivesOf(Next(s, a)))
  {
    hide Tallied, NoRestarts, Faithful, Budgeted, TimersOk, LivesOk;
    match a
    case SpawnCall(id, lord, req, accepted) => LivesSpawn(s, id, lord, req, accepted);
    case Deliver(agent, lord) => LivesReceive(s, agent, lord);
    case RebindTo(from, to) => LivesFrame(LivesOf(s), Hists(Rebind(s.core, from, to).table), s.respawned);
    case RespawnOn(id, lord, accepted) =>
      RespawnTouchesOne(s.core, id, lord, accepted);
      var (c, r) := Respawn(s.core, id, lord, accepted);
      LivesRespawn(s, id, lord, accepted, c, r);
    case CleanUp(id) => LivesGiveUp(s, id, NO_LORD_LEFT, s.timers);
    case TimerFires(timer) => LivesGiveUp(s, timer.id, ACK_TIMED_OUT, s.timers - {timer});
    case Restart => LivesFrame(LivesOf(s), Hists(Replay(s.core.log)), s.respawned);
    case _ =>
  }

  lemma {:induction false} RunKeepsLinkInv(now: Time, run: seq<Action>)
    requires IsRun(now, run)
    ensures LinkInv(After(now, run))
  {
    if run != [] {
      var s, a := After(now, run[..|run| - 1]), run[|run| - 1];
      RunKeepsLinkInv(now, run[..|run| - 1]);
      RunKeepsTableInv(now, run[..|run| - 1]);
      LinksStep(s, a);
      if OnLinks(a) { LivesLinkStep(s, a); } else { LivesTableStep(s, a); }
    }
  }
}
