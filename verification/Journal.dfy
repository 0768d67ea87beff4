/** What the scheduler appends to its log, what a replay of the log rebuilds, and the
    table updates that log themselves. */
module Journal {
  import opened Process

  type Table = map<ProcId, Entry>

  /** One log record, with the fields of the log's JSON object. */
  datatype Record = Record(
    kind: string, info: Option<Info>, processId: ProcId, stateName: string,
    lord: LordId, localPid: int, exitCode: int, exitSignal: int)

  function StateName(s: PState): string {
    match s
    case Unspecified => "PROCESS_STATE_UNSPECIFIED"
    case New => "PROCESS_STATE_NEW"
    case Ready => "PROCESS_STATE_READY"
    case Running => "PROCESS_STATE_RUNNING"
    case Paused => "PROCESS_STATE_PAUSED"
    case Migrating => "PROCESS_STATE_MIGRATING"
    case Exited => "PROCESS_STATE_EXITED"
    case Stopped => "PROCESS_STATE_STOPPED"
    case Restarting => "PROCESS_STATE_RESTARTING"
  }

  function StateByName(name: string): Option<PState> {
    if name == "PROCESS_STATE_UNSPECIFIED" then Some(Unspecified)
    else if name == "PROCESS_STATE_NEW" then Some(New)
    else if name == "PROCESS_STATE_READY" then Some(Ready)
    else if name == "PROCESS_STATE_RUNNING" then Some(Running)
    else if name == "PROCESS_STATE_PAUSED" then Some(Paused)
    else if name == "PROCESS_STATE_MIGRATING" then Some(Migrating)
    else if name == "PROCESS_STATE_EXITED" then Some(Exited)
    else if name == "PROCESS_STATE_STOPPED" then Some(Stopped)
    else if name == "PROCESS_STATE_RESTARTING" then Some(Restarting)
    else None
  }

  lemma StateNames(s: PState, name: string)
    ensures StateByName(name) == Some(s) <==> name == StateName(s)
  {
    var n := |name|;
    assert |StateName(s)| == match s
      case Unspecified => 25 case New => 17 case Ready => 19 case Running => 21 case Paused => 20
      case Migrating => 23 case Exited => 20 case Stopped => 21 case Restarting => 24;
    assert "PROCESS_STATE_PAUSED"[14] != "PROCESS_STATE_EXITED"[14];
    assert "PROCESS_STATE_RUNNING"[14] != "PROCESS_STATE_STOPPED"[14];
  }

  function CreateRecord(info: Info): Record {
    Record("create", Some(info), "", "", "", 0, 0, 0)
  }

  function StateRecord(id: ProcId, st: PState, lord: LordId, localPid: int): Record {
    Record("state", None, id, StateName(st), lord, localPid, 0, 0)
  }

  function ResultRecord(id: ProcId, code: int, signal: int): Record {
    Record("result", None, id, "", "", 0, code, signal)
  }

  // ---------------------------------------------------------------------------
  // Replay
  // ---------------------------------------------------------------------------

  datatype Counts = Counts(creates: nat, states: nat, results: nat)

  /** One replayed record. Records without an info, for an unknown process, with an unknown
      state name or of an unknown kind change nothing. */
  function Apply(t: Table, r: Record): Table {
    if r.kind == "create" then
      if r.info.Some? then t[r.info.value.id := NewEntry(r.info.value)] else t
    else if r.kind == "state" then
      if r.processId in t && StateByName(r.stateName).Some? then
        t[r.processId := SetState(t[r.processId], StateByName(r.stateName).value, r.lord, r.localPid)]
      else t
    else if r.kind == "result" then
      if r.processId in t then t[r.processId := SetResult(t[r.processId], r.exitCode, r.exitSignal)] else t
    else t
  }

  function Tally(t: Table, r: Record, n: Counts): Counts {
    if r.kind == "create" then
      if r.info.Some? then n.(creates := n.creates + 1) else n
    else if r.kind == "state" then
      if r.processId in t && StateByName(r.stateName).Some? then n.(states := n.states + 1) else n
    else if r.kind == "result" then
      if r.processId in t then n.(results := n.results + 1) else n
    else n
  }

  function ReplayOnto(t: Table, log: seq<Record>): Table {
    if log == [] then t else Apply(ReplayOnto(t, log[..|log| - 1]), log[|log| - 1])
  }

  function TallyAll(t: Table, log: seq<Record>): Counts {
    if log == [] then Counts(0, 0, 0)
    else Tally(ReplayOnto(t, log[..|log| - 1]), log[|log| - 1], TallyAll(t, log[..|log| - 1]))
  }

  function Replay(log: seq<Record>): Table {
    ReplayOnto(map[], log)
  }

  /** A record without an info, about an unknown process, with a state name that no state has,
      or of a kind that is none of the three, changes nothing on replay and is not counted;
      any other is, once. */
  lemma UnusableIsSkipped(t: Table, r: Record, n: Counts)
    ensures
      var unusable :=
        || r.kind !in {"create", "state", "result"}
        || (r.kind == "create" && r.info.None?)
        || (r.kind != "create" && r.processId !in t)
        || (r.kind == "state" && forall s :: StateName(s) != r.stateName);
      var n' := Tally(t, r, n);
      && (unusable ==> Apply(t, r) == t && n' == n)
      && (!unusable ==> n'.creates + n'.states + n'.results == n.creates + n.states + n.results + 1)
  {
    if r.kind == "state" {
      forall s ensures StateByName(r.stateName) == Some(s) <==> StateName(s) == r.stateName {
        StateNames(s, r.stateName);
      }
      hide StateName, StateByName;
    }
  }

  lemma ReplaySnoc(t: Table, log: seq<Record>, r: Record)
    ensures ReplayOnto(t, log + [r]) == Apply(ReplayOnto(t, log), r)
    ensures TallyAll(t, log + [r]) == Tally(ReplayOnto(t, log), r, TallyAll(t, log))
  {
    assert (log + [r])[..|log|] == log;
  }

  // ---------------------------------------------------------------------------
  // Live updates
  // ---------------------------------------------------------------------------

  /** The live table together with the records logged so far. */
  datatype Core = Core(table: Table, log: seq<Record>)

  function Create(c: Core, info: Info): Core {
    Core(c.table[info.id := NewEntry(info)], c.log + [CreateRecord(info)])
  }

  function UpdateState(c: Core, id: ProcId, st: PState, lord: LordId, localPid: int): Core
    requires id in c.table
  {
    Core(c.table[id := SetState(c.table[id], st, lord, localPid)],
         c.log + [StateRecord(id, st, lord, localPid)])
  }

  function UpdateResult(c: Core, id: ProcId, code: int, signal: int): Core
    requires id in c.table
  {
    Core(c.table[id := SetResult(c.table[id], code, signal)], c.log + [ResultRecord(id, code, signal)])
  }

  /** Give a process up: STOPPED, with a scheduler-made exit code. */
  function Finalize(c: Core, id: ProcId, code: int): Core
    requires id in c.table
  {
    UpdateResult(UpdateState(c, id, Stopped, "", 0), id, code, 0)
  }

  /** A lord change that leaves no record in the log. */
  function Reassign(c: Core, id: ProcId, lord: LordId, restarts: nat): Core
    requires id in c.table
  {
    var e := c.table[id];
    c.(table := c.table[id := e.(info := e.info.(lord := lord, restarts := restarts))])
  }

  /** Every process on one lord now counts as on another; nothing is logged. */
  function Rebind(c: Core, from: LordId, to: LordId): Core {
    if from == "" || to == "" || from == to then c
    else c.(table := map id | id in c.table ::
      var e := c.table[id];
      if e.info.lord == from then e.(info := e.info.(lord := to)) else e)
  }

  // ---------------------------------------------------------------------------
  // Agreement of the replayed table with the live one
  // ---------------------------------------------------------------------------

  /** Equal up to the two fields whose changes are not always logged. */
  ghost predicate SameLogged(replayed: Entry, live: Entry) {
    && replayed.closes == live.closes
    && replayed.hist == live.hist
    && replayed.info.(lord := live.info.lord, restarts := live.info.restarts) == live.info
  }

  ghost predicate Agree(replayed: Table, live: Table, unlogged: set<ProcId>) {
    && replayed.Keys == live.Keys
    && forall id {:trigger live[id]} | id in live ::
         && id in replayed && SameLogged(replayed[id], live[id])
         && (id !in unlogged ==> replayed[id].info.lord == live[id].info.lord)
  }

  ghost predicate CoreAgrees(c: Core, unlogged: set<ProcId>) {
    Agree(Replay(c.log), c.table, unlogged)
  }

  lemma CreateAgrees(c: Core, info: Info, unlogged: set<ProcId>)
    requires CoreAgrees(c, unlogged)
    ensures CoreAgrees(Create(c, info), unlogged)
  {
    ReplaySnoc(map[], c.log, CreateRecord(info));
  }

  lemma UpdateStateAgrees(c: Core, id: ProcId, st: PState, lord: LordId, localPid: int, unlogged: set<ProcId>)
    requires CoreAgrees(c, unlogged) && id in c.table
    ensures CoreAgrees(UpdateState(c, id, st, lord, localPid), if lord == "" then unlogged else unlogged - {id})
  {
    ReplaySnoc(map[], c.log, StateRecord(id, st, lord, localPid));
    StateNames(st, StateName(st));
  }

  lemma UpdateResultAgrees(c: Core, id: ProcId, code: int, signal: int, unlogged: set<ProcId>)
    requires CoreAgrees(c, unlogged) && id in c.table
    ensures CoreAgrees(UpdateResult(c, id, code, signal), unlogged)
  {
    ReplaySnoc(map[], c.log, ResultRecord(id, code, signal));
  }

  /** Replay never restores a restart count: a replayed one is the one at creation. */
  ghost predicate NoRestarts(t: Table) {
    forall id | id in t :: t[id].info.restarts == 0
  }
}
