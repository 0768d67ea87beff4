/** Processes as the scheduler records them, and the updates it makes to one record. */
module Process {

  type ProcId = string
  type LordId = string
  type Env = map<string, string>

  datatype Option<+T> = None | Some(value: T)

  datatype PState =
    | Unspecified | New | Ready | Running | Paused | Migrating | Exited | Stopped | Restarting

  predicate Final(s: PState) { s == Exited || s == Stopped }

  datatype Resources = Resources(cpuShares: int, cpuQuotaPct: int, memLimit: int, ioWeight: int, pidsLimit: int)

  /** The part of a process record that no step after its creation touches. */
  datatype Program = Program(
    tenant: string, execPath: string, argv: seq<string>, env: Env, workingDir: string,
    resources: Option<Resources>, stateDumpPath: string, maxRestarts: int)

  datatype Info = Info(
    id: ProcId, program: Program, state: PState, lord: LordId, localPid: int,
    exitCode: int, exitSignal: int, restarts: nat)

  /** A table entry: the record, how often its `exited` channel has been closed, and every
      state the record has had. */
  datatype Entry = Entry(info: Info, closes: nat, hist: seq<PState>)

  function NewEntry(info: Info): Entry { Entry(info, 0, [info.state]) }

  /** An empty lord id or a zero pid keeps the recorded one. */
  function SetState(e: Entry, st: PState, lord: LordId, localPid: int): Entry {
    Entry(
      e.info.(state := st,
              lord := if lord != "" then lord else e.info.lord,
              localPid := if localPid != 0 then localPid else e.info.localPid),
      if Final(st) && e.closes == 0 then 1 else e.closes,
      e.hist + [st])
  }

  function SetResult(e: Entry, code: int, signal: int): Entry {
    e.(info := e.info.(exitCode := code, exitSignal := signal))
  }

  // ---------------------------------------------------------------------------
  // Spawn requests
  // ---------------------------------------------------------------------------

  datatype SpawnRequest = SpawnRequest(
    processId: ProcId, tenant: string, execPath: string, argv: seq<string>, env: Env,
    workingDir: string, resources: Option<Resources>, stdinInitial: seq<int>,
    stateDumpPath: string, maxRestarts: int)

  const STATE_DUMP := "ETRONIUM_STATE_DUMP"
  const DEFAULT_MAX_RESTARTS := 10

  /** The request sent to a lord: identity, tenant, dump path and restart limit come from
      the record, the rest from the request that is passed in. */
  function BuildSpawnRequest(info: Info, req: SpawnRequest): SpawnRequest {
    var dump := info.program.stateDumpPath;
    SpawnRequest(
      info.id, info.program.tenant, req.execPath, req.argv,
      if dump != "" then req.env[STATE_DUMP := dump] else req.env,
      req.workingDir, req.resources, req.stdinInitial, dump, info.program.maxRestarts)
  }

  /** The request a respawn rebuilds from the record alone. */
  function RespawnRequest(info: Info): SpawnRequest {
    var p := info.program;
    BuildSpawnRequest(info, SpawnRequest("", p.tenant, p.execPath, p.argv, p.env, p.workingDir, p.resources, [], "", 0))
  }

  function ProgramOf(req: SpawnRequest): Program {
    var limit := if req.maxRestarts == 0 then DEFAULT_MAX_RESTARTS else req.maxRestarts;
    Program(req.tenant, req.execPath, req.argv, req.env, req.workingDir, req.resources, req.stateDumpPath, limit)
  }

  function InfoFromRequest(id: ProcId, lord: LordId, req: SpawnRequest): Info {
    Info(id, ProgramOf(req), Ready, lord, 0, 0, 0, 0)
  }

  predicate ValidResources(r: Option<Resources>) {
    r.None? ||
    (&& 0 <= r.value.cpuShares <= 10000
     && 0 <= r.value.cpuQuotaPct <= 100
     && 0 <= r.value.memLimit
     && 0 <= r.value.ioWeight <= 10000
     && 0 <= r.value.pidsLimit <= 1000000)
  }

  /** What the Spawn call accepts before it looks for a lord. */
  predicate ValidRequest(req: SpawnRequest) {
    req.tenant != "" && req.execPath != "" && ValidResources(req.resources)
  }

  /** A request for this process carries what its caller asked for: the fields as they were,
      a restart limit of 10 for none, and in the environment the dump path, if there is one. */
  ghost predicate CarriesProgram(x: SpawnRequest, id: ProcId, req: SpawnRequest) {
    && x.processId == id && x.tenant == req.tenant && x.execPath == req.execPath && x.argv == req.argv
    && x.workingDir == req.workingDir && x.resources == req.resources && x.stateDumpPath == req.stateDumpPath
    && x.maxRestarts == (if req.maxRestarts == 0 then 10 else req.maxRestarts)
    && (forall k | k != "ETRONIUM_STATE_DUMP" :: k in x.env <==> k in req.env)
    && (forall k | k in req.env && k != "ETRONIUM_STATE_DUMP" :: x.env[k] == req.env[k])
    && (if req.stateDumpPath == "" then x.env == req.env
        else "ETRONIUM_STATE_DUMP" in x.env && x.env["ETRONIUM_STATE_DUMP"] == req.stateDumpPath)
  }

  lemma SpawnCarries(id: ProcId, lord: LordId, req: SpawnRequest)
    ensures var x := BuildSpawnRequest(InfoFromRequest(id, lord, req), req);
      CarriesProgram(x, id, req) && x.stdinInitial == req.stdinInitial
  {
    assert STATE_DUMP == "ETRONIUM_STATE_DUMP";
  }

  lemma RespawnCarries(info: Info, req: SpawnRequest)
    requires info.program == ProgramOf(req)
    ensures CarriesProgram(RespawnRequest(info), info.id, req) && RespawnRequest(info).stdinInitial == []
  {
    assert STATE_DUMP == "ETRONIUM_STATE_DUMP";
  }

  /** The first request and every respawn differ only in the initial stdin. */
  lemma FirstSpawnIsRespawn(id: ProcId, lord: LordId, req: SpawnRequest)
    ensures var info := InfoFromRequest(id, lord, req);
      BuildSpawnRequest(info, req) == RespawnRequest(info).(stdinInitial := req.stdinInitial)
  {
  }
}
