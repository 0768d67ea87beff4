/** The autoscale planner: sampled scores, and decisions held back by cooldowns, a blacklist
    and a sliding-window rate log. Time 0 is the zero time. */
module Autoscale {
  import opened Process
  import opened Clock
  import opened Sequences

  const LOG_CAP: nat := 64

  datatype Config = Config(
    cooldown: Time, maxPerMin: int,
    cpuWeight: real, memWeight: real, taskWeight: real, rejectWeight: real,
    overloadCpu: real, rebalanceDelta: real, blacklistReject: real, blacklistFor: Time)

  datatype Score = Score(
    cpu: real, mem: real, tasks: real, reject: real, combined: real,
    blacklistUntil: Time, lastMigration: Time)

  type Scores = map<LordId, Score>

  /** What one lord's counters say: all of it input to the planner. */
  datatype Reading = Reading(cpu: real, mem: real, active: int, cpuShares: int, cores: int, reject: real)

  datatype Decision =
    | Blacklist(from: LordId)
    | Migrate(from: LordId, to: LordId)
    | Rebalance(from: LordId, to: LordId)
  {
    predicate Move?() { Migrate? || Rebalance? }
  }

  datatype Planner = Planner(lords: Scores, migrations: seq<Time>, log: seq<Decision>)

  // ---------------------------------------------------------------------------
  // Sample
  // ---------------------------------------------------------------------------

  function TaskRatio(r: Reading): real {
    var cap := if r.cpuShares > 0 then r.cpuShares else if r.cores > 0 then r.cores else 1;
    var ratio := r.active as real / cap as real;
    if ratio > 1.0 then 1.0 else ratio
  }

  function RejectRate(prev: Option<Score>, r: Reading): real {
    if prev.Some? && prev.value.reject > 0.0 then 0.7 * r.reject + 0.3 * prev.value.reject else r.reject
  }

  function Combined(cfg: Config, cpu: real, mem: real, tasks: real, reject: real): real {
    cfg.cpuWeight * cpu + cfg.memWeight * mem + cfg.taskWeight * tasks + cfg.rejectWeight * reject
  }

  /** The blacklist and the last migration survive a sample; all else is measured anew. */
  function SampleOne(prev: Option<Score>, r: Reading, cfg: Config): Score {
    var tasks, reject := TaskRatio(r), RejectRate(prev, r);
    var combined := Combined(cfg, r.cpu, r.mem, tasks, reject);
    match prev
    case None => Score(r.cpu, r.mem, tasks, reject, combined, 0, 0)
    case Some(p) => Score(r.cpu, r.mem, tasks, reject, combined, p.blacklistUntil, p.lastMigration)
  }

  lemma Quotient(a: real, c: real)
    requires c > 0.0
    ensures (a / c) * c == a && (a / c > 1.0 <==> a > c)
  {
  }

  /** What a sample measures, figure by figure: active processes per share, per core when no
      shares are set, at most one; seven tenths of the new reject rate and three of a non-zero
      old one; the weighted sum of the four. Ban and last move are carried over. */
  lemma SampleTells(prev: Option<Score>, r: Reading, cfg: Config)
    ensures var s := SampleOne(prev, r, cfg);
      var cap := if r.cpuShares <= 0 < r.cores then r.cores else if r.cpuShares <= 0 then 1 else r.cpuShares;
      && s.cpu == r.cpu && s.mem == r.mem
      && (if r.active <= cap then s.tasks * cap as real == r.active as real else s.tasks == 1.0)
      && (if prev.Some? && prev.value.reject > 0.0
          then 7.0 * (r.reject - s.reject) == 3.0 * (s.reject - prev.value.reject)
          else s.reject == r.reject)
      && s.combined == cfg.cpuWeight * s.cpu + cfg.memWeight * s.mem + cfg.taskWeight * s.tasks
                       + cfg.rejectWeight * s.reject
      && s.blacklistUntil == (if prev.Some? then prev.value.blacklistUntil else 0)
      && s.lastMigration == (if prev.Some? then prev.value.lastMigration else 0)
  {
    var cap := if r.cpuShares > 0 then r.cpuShares else if r.cores > 0 then r.cores else 1;
    Quotient(r.active as real, cap as real);
  }

  function Lookup(lords: Scores, id: LordId): Option<Score> {
    if id in lords then Some(lords[id]) else None
  }

  function SampleAll(lords: Scores, readings: map<LordId, Reading>, cfg: Config): Scores {
    map id | id in readings :: SampleOne(Lookup(lords, id), readings[id], cfg)
  }

  // ---------------------------------------------------------------------------
  // Decide
  // ---------------------------------------------------------------------------

  /** The lords, each once, by rising score. Ties may fall either way. */
  ghost predicate IsOrder(lords: Scores, order: seq<LordId>) {
    && Distinct(order)
    && (forall id :: id in order <==> id in lords)
    && forall i, j | 0 <= i < j < |order| :: lords[order[i]].combined <= lords[order[j]].combined
  }

  predicate ToBan(s: Score, now: Time, cfg: Config) {
    s.reject > cfg.blacklistReject && s.blacklistUntil < now
  }

  predicate Banned(s: Score, now: Time) { s.blacklistUntil > now }

  predicate Cooling(s: Score, now: Time, cfg: Config) {
    s.lastMigration != 0 && now - s.lastMigration < cfg.cooldown
  }

  /** After the blacklist pass has seen `ids`. */
  function BanAll(lords: Scores, ids: seq<LordId>, now: Time, cfg: Config): Scores {
    map id | id in lords ::
      if id in ids && ToBan(lords[id], now, cfg) then lords[id].(blacklistUntil := now + cfg.blacklistFor)
      else lords[id]
  }

  function Bans(lords: Scores, ids: seq<LordId>, now: Time, cfg: Config): seq<Decision> {
    if ids == [] then []
    else
      var id := ids[|ids| - 1];
      Bans(lords, ids[..|ids| - 1], now, cfg) +
        if id in lords && ToBan(lords[id], now, cfg) then [Blacklist(id)] else []
  }

  predicate MayTake(lords: Scores, id: LordId, from: LordId, now: Time) {
    id != from && id in lords && !Banned(lords[id], now)
  }

  /** The first lord of the order that may take a process from another one, "" for none. */
  function Coldest(lords: Scores, order: seq<LordId>, from: LordId, now: Time): LordId {
    if order == [] then ""
    else if MayTake(lords, order[0], from, now) then order[0]
    else Coldest(lords, order[1..], from, now)
  }

  predicate ToRelieve(lords: Scores, order: seq<LordId>, id: LordId, now: Time, cfg: Config) {
    && id in lords
    && lords[id].cpu >= cfg.overloadCpu
    && !Cooling(lords[id], now, cfg)
    && Coldest(lords, order, id, now) != ""
  }

  /** After the overload pass has seen `ids`. */
  function RelieveAll(lords: Scores, order: seq<LordId>, ids: seq<LordId>, now: Time, cfg: Config): Scores {
    map id | id in lords ::
      if id in ids && ToRelieve(lords, order, id, now, cfg) then lords[id].(lastMigration := now) else lords[id]
  }

  function Reliefs(lords: Scores, order: seq<LordId>, ids: seq<LordId>, now: Time, cfg: Config): seq<Decision> {
    if ids == [] then []
    else
      var id := ids[|ids| - 1];
      Reliefs(lords, order, ids[..|ids| - 1], now, cfg) +
        if ToRelieve(lords, order, id, now, cfg) then [Migrate(id, Coldest(lords, order, id, now))] else []
  }

  predicate ToRebalance(lords: Scores, order: seq<LordId>, limited: bool, now: Time, cfg: Config) {
    && |order| >= 2
    && var hot, cold := order[|order| - 1], order[0];
    && hot in lords && cold in lords
    && lords[hot].combined - lords[cold].combined > cfg.rebalanceDelta
    && !Cooling(lords[hot], now, cfg)
    && !limited
  }

  function Recent(ts: seq<Time>, cutoff: Time): seq<Time> {
    if ts == [] then []
    else Recent(ts[..|ts| - 1], cutoff) + if ts[|ts| - 1] > cutoff then [ts[|ts| - 1]] else []
  }

  /** One entry of the rate log per move decided. */
  function Stamps(ds: seq<Decision>, now: Time): seq<Time> {
    if ds == [] then []
    else Stamps(ds[..|ds| - 1], now) + if ds[|ds| - 1].Move?() then [now] else []
  }

  function Limited(migrations: seq<Time>, now: Time, cfg: Config): bool {
    |Recent(migrations, now - MINUTE)| >= cfg.maxPerMin
  }

  datatype Plan = Plan(lords: Scores, decisions: seq<Decision>)

  /** The three passes. The rate limit holds back only the third, which ignores the
      blacklist. */
  function PlanFor(lords: Scores, order: seq<LordId>, limited: bool, now: Time, cfg: Config): Plan {
    var banned := BanAll(lords, order, now, cfg);
    var relieved := RelieveAll(banned, order, order, now, cfg);
    var ds := Bans(lords, order, now, cfg) + Reliefs(banned, order, order, now, cfg);
    if ToRebalance(relieved, order, limited, now, cfg) then
      var hot := order[|order| - 1];
      Plan(relieved[hot := relieved[hot].(lastMigration := now)], ds + [Rebalance(hot, order[0])])
    else Plan(relieved, ds)
  }

  /** One Decide, for one of the possible orders. */
  function DecideStep(p: Planner, order: seq<LordId>, now: Time, cfg: Config): (Planner, seq<Decision>) {
    var plan := PlanFor(p.lords, order, Limited(p.migrations, now, cfg), now, cfg);
    (Planner(plan.lords, Recent(p.migrations, now - MINUTE) + Stamps(plan.decisions, now),
             Last(LOG_CAP, p.log + plan.decisions)),
     plan.decisions)
  }

  // ---------------------------------------------------------------------------
  // The target of a migration
  // ---------------------------------------------------------------------------

  /** The first of an order is a least one, and one is found whenever there is one. */
  lemma {:induction false} ColdestIsLeast(lords: Scores, order: seq<LordId>, from: LordId, now: Time)
    requires "" !in order
    requires forall id | id in order :: id in lords
    requires forall i, j | 0 <= i < j < |order| :: lords[order[i]].combined <= lords[order[j]].combined
    ensures var to := Coldest(lords, order, from, now);
      && (to == "" <==> forall id | id in order :: !MayTake(lords, id, from, now))
      && (to != "" ==> to in order && MayTake(lords, to, from, now))
      && (to != "" ==> forall id | id in order && MayTake(lords, id, from, now) ::
            lords[to].combined <= lords[id].combined)
  {
    if order != [] {
      assert order == [order[0]] + order[1..];
      if !MayTake(lords, order[0], from, now) { ColdestIsLeast(lords, order[1..], from, now); }
    }
  }

  lemma {:induction false} BansAre(lords: Scores, ids: seq<LordId>, now: Time, cfg: Config, d: Decision)
    ensures d in Bans(lords, ids, now, cfg) <==>
      d.Blacklist? && d.from in ids && d.from in lords && ToBan(lords[d.from], now, cfg)
  {
    if ids != [] {
      BansAre(lords, ids[..|ids| - 1], now, cfg, d);
      assert ids == ids[..|ids| - 1] + [ids[|ids| - 1]];
    }
  }

  lemma {:induction false} ReliefsAre(lords: Scores, order: seq<LordId>, ids: seq<LordId>, now: Time, cfg: Config,
                                      d: Decision)
    ensures d in Reliefs(lords, order, ids, now, cfg) <==>
      && d.Migrate? && d.from in ids && ToRelieve(lords, order, d.from, now, cfg)
      && d.to == Coldest(lords, order, d.from, now)
  {
    if ids != [] {
      ReliefsAre(lords, order, ids[..|ids| - 1], now, cfg, d);
      assert ids == ids[..|ids| - 1] + [ids[|ids| - 1]];
    }
  }

  lemma MigrationsAre(p: Planner, order: seq<LordId>, now: Time, cfg: Config, from: LordId, to: LordId)
    ensures
      var lords := BanAll(p.lords, order, now, cfg);
      Migrate(from, to) in DecideStep(p, order, now, cfg).1 <==>
        from in order && ToRelieve(lords, order, from, now, cfg) && to == Coldest(lords, order, from, now)
  {
    var d := Migrate(from, to);
    BansAre(p.lords, order, now, cfg, d);
    ReliefsAre(BanAll(p.lords, order, now, cfg), order, order, now, cfg, d);
  }

  /** A migration leaves an overloaded lord whose last move is a cooldown old, and goes to
      another one, of least score among the other lords whose bans are over once this Decide
      has banned whom it bans. With a positive ban length its reject rate is within the
      threshold, or its ban ends exactly now. */
  lemma MigrateTarget(p: Planner, order: seq<LordId>, now: Time, cfg: Config, from: LordId, to: LordId)
    requires IsOrder(p.lords, order) && "" !in p.lords
    requires Migrate(from, to) in DecideStep(p, order, now, cfg).1
    ensures
      var lords := DecideStep(p, order, now, cfg).0.lords;
      && lords.Keys == p.lords.Keys
      && from in p.lords && p.lords[from].cpu >= cfg.overloadCpu
      && (p.lords[from].lastMigration == 0 || now - p.lords[from].lastMigration >= cfg.cooldown)
      && to in p.lords && to != from && lords[to].blacklistUntil <= now
      && (forall k | k in p.lords && k != from && lords[k].blacklistUntil <= now ::
            p.lords[to].combined <= p.lords[k].combined)
      && (cfg.blacklistFor > 0 ==> p.lords[to].reject <= cfg.blacklistReject || p.lords[to].blacklistUntil == now)
  {
    var banned := BanAll(p.lords, order, now, cfg);
    MigrationsAre(p, order, now, cfg, from, to);
    ColdestIsLeast(banned, order, from, now);
    DecideKeepsBans(p, order, now, cfg);
    hide DecideStep, Coldest;
    assert MayTake(banned, to, from, now);
    forall k | k in p.lords && k != from && banned[k].blacklistUntil <= now
      ensures p.lords[to].combined <= p.lords[k].combined
    {
      assert k in order && MayTake(banned, k, from, now);
    }
  }

  /** Once the bans are made, the rest of a Decide leaves them alone. */
  lemma DecideKeepsBans(p: Planner, order: seq<LordId>, now: Time, cfg: Config)
    ensures var lords, banned := DecideStep(p, order, now, cfg).0.lords, BanAll(p.lords, order, now, cfg);
      lords.Keys == p.lords.Keys == banned.Keys
      && forall k | k in lords :: lords[k].blacklistUntil == banned[k].blacklistUntil
  {
    hide Bans, Reliefs, Recent, Stamps, Coldest, Limited, Cooling, ToBan;
  }

  /** A lord is relieved exactly when it is overloaded, its last move is a cooldown old and the
      ban of some other lord is over once this Decide has banned whom it bans, whatever the
      rate log says. */
  lemma OverloadIsRelieved(p: Planner, order: seq<LordId>, now: Time, cfg: Config, from: LordId)
    requires IsOrder(p.lords, order) && "" !in p.lords
    ensures
      var (p', ds) := DecideStep(p, order, now, cfg);
      (exists to :: Migrate(from, to) in ds) <==>
        && from in p.lords && p.lords[from].cpu >= cfg.overloadCpu
        && (p.lords[from].lastMigration == 0 || now - p.lords[from].lastMigration >= cfg.cooldown)
        && (exists k | k in p'.lords :: k != from && p'.lords[k].blacklistUntil <= now)
  {
    var (p', ds) := DecideStep(p, order, now, cfg);
    var banned := BanAll(p.lords, order, now, cfg);
    var to := Coldest(banned, order, from, now);
    ColdestIsLeast(banned, order, from, now);
    MigrationsAre(p, order, now, cfg, from, to);
    DecideKeepsBans(p, order, now, cfg);
    hide DecideStep, Coldest;
    if k :| k in p'.lords && k != from && p'.lords[k].blacklistUntil <= now { assert MayTake(banned, k, from, now); }
    if other :| Migrate(from, other) in ds {
      MigrationsAre(p, order, now, cfg, from, other);
      assert MayTake(banned, to, from, now);
    }
  }

  lemma RebalancesAre(p: Planner, order: seq<LordId>, now: Time, cfg: Config, from: LordId, to: LordId)
    ensures
      var relieved := RelieveAll(BanAll(p.lords, order, now, cfg), order, order, now, cfg);
      Rebalance(from, to) in DecideStep(p, order, now, cfg).1 <==>
        && ToRebalance(relieved, order, Limited(p.migrations, now, cfg), now, cfg)
        && from == order[|order| - 1] && to == order[0]
  {
    var d := Rebalance(from, to);
    BansAre(p.lords, order, now, cfg, d);
    ReliefsAre(BanAll(p.lords, order, now, cfg), order, order, now, cfg, d);
  }

  lemma RelievedIs(p: Planner, order: seq<LordId>, now: Time, cfg: Config, from: LordId)
    ensures (exists k :: Migrate(from, k) in DecideStep(p, order, now, cfg).1) <==>
      from in order && ToRelieve(BanAll(p.lords, order, now, cfg), order, from, now, cfg)
  {
    var banned := BanAll(p.lords, order, now, cfg);
    MigrationsAre(p, order, now, cfg, from, Coldest(banned, order, from, now));
    hide DecideStep, ToRelieve, Coldest;
    if k :| Migrate(from, k) in DecideStep(p, order, now, cfg).1 { MigrationsAre(p, order, now, cfg, from, k); }
  }

  /** A rebalance is decided exactly when the last and the first lord of the order are more
      than the threshold apart, the last move from the last one is a cooldown old and this
      Decide does not relieve it too (unless there is no cooldown), and the rate log is short
      enough: bans play no part in the choice of its target. */
  lemma RebalanceTarget(p: Planner, order: seq<LordId>, now: Time, cfg: Config, from: LordId, to: LordId)
    requires IsOrder(p.lords, order) && now > 0
    ensures var ds := DecideStep(p, order, now, cfg).1;
      Rebalance(from, to) in ds <==>
        && |order| >= 2 && from == order[|order| - 1] && to == order[0]
        && from in p.lords && to in p.lords
        && p.lords[from].combined - p.lords[to].combined > cfg.rebalanceDelta
        && (p.lords[from].lastMigration == 0 || now - p.lords[from].lastMigration >= cfg.cooldown)
        && (cfg.cooldown <= 0 || forall k :: Migrate(from, k) !in ds)
        && |Recent(p.migrations, now - 60 * SECOND)| < cfg.maxPerMin
    ensures Rebalance(from, to) in DecideStep(p, order, now, cfg).1 ==>
      forall k | k in p.lords :: p.lords[to].combined <= p.lords[k].combined <= p.lords[from].combined
  {
    var ds, banned := DecideStep(p, order, now, cfg).1, BanAll(p.lords, order, now, cfg);
    RebalancesAre(p, order, now, cfg, from, to);
    RelievedIs(p, order, now, cfg, from);
    hide DecideStep, Coldest, Recent;
    if |order| >= 2 {
      assert order[0] in order && order[|order| - 1] in order;
    }
  }

  // ---------------------------------------------------------------------------
  // Runs
  // ---------------------------------------------------------------------------

  datatype Event = Sampled(readings: map<LordId, Reading>) | Decided(now: Time, order: seq<LordId>)

  datatype Made = Made(at: Time, what: Decision)

  /** A planner, the time of its last Decide, and every decision it ever made. */
  datatype Trace = Trace(p: Planner, clock: Time, made: seq<Made>)

  const START: Trace := Trace(Planner(map[], [], []), 0, [])

  /** The registry forgets no lord, and the clock does not go back. */
  ghost predicate Possible(t: Trace, e: Event) {
    match e
    case Sampled(readings) => "" !in readings && t.p.lords.Keys <= readings.Keys
    case Decided(now, order) => 0 < now && t.clock <= now && IsOrder(t.p.lords, order)
  }

  function Dated(ds: seq<Decision>, now: Time): (r: seq<Made>) {
    seq(|ds|, i requires 0 <= i < |ds| => Made(now, ds[i]))
  }

  function Advance(t: Trace, e: Event, cfg: Config): Trace {
    match e
    case Sampled(readings) => t.(p := t.p.(lords := SampleAll(t.p.lords, readings, cfg)))
    case Decided(now, order) =>
      var (p, ds) := DecideStep(t.p, order, now, cfg);
      Trace(p, now, t.made + Dated(ds, now))
  }

  ghost predicate IsRun(cfg: Config, run: seq<Event>)
    decreases |run|, 0
  {
    run == [] || (IsRun(cfg, run[..|run| - 1]) && Possible(After(cfg, run[..|run| - 1]), run[|run| - 1]))
  }

  ghost function After(cfg: Config, run: seq<Event>): Trace
    requires IsRun(cfg, run)
    decreases |run|, 1
  {
    if run == [] then START else Advance(After(cfg, run[..|run| - 1]), run[|run| - 1], cfg)
  }

  // ---------------------------------------------------------------------------
  // Cooldown
  // ---------------------------------------------------------------------------

  predicate MovesFrom(m: Made, lord: LordId) { m.what.Move?() && m.what.from == lord }

  /** A lord remembers its last move, and moves from one lord are a cooldown apart. */
  ghost predicate Spaced(made: seq<Made>, lords: Scores, cooldown: Time) {
    && (forall i | 0 <= i < |made| && made[i].what.Move?() ::
          made[i].what.from in lords && 0 < made[i].at <= lords[made[i].what.from].lastMigration)
    && (forall i, j | 0 <= i < j < |made| && made[j].what.Move?() && MovesFrom(made[i], made[j].what.from) ::
          made[j].at - made[i].at >= cooldown)
  }

  lemma MoveKeepsSpaced(made: seq<Made>, lords: Scores, cfg: Config, now: Time, d: Decision)
    requires Spaced(made, lords, cfg.cooldown) && 0 < now
    requires forall m | m in made :: m.at <= now
    requires d.Move?() && d.from in lords && !Cooling(lords[d.from], now, cfg)
    ensures Spaced(made + [Made(now, d)], lords[d.from := lords[d.from].(lastMigration := now)], cfg.cooldown)
  {
    var made' := made + [Made(now, d)];
    forall i | 0 <= i < |made| ensures made'[i] == made[i] && made[i].at <= now { assert made[i] in made; }
  }

  lemma BanKeepsSpaced(made: seq<Made>, lords: Scores, cooldown: Time, now: Time, id: LordId)
    requires Spaced(made, lords, cooldown)
    ensures Spaced(made + [Made(now, Blacklist(id))], lords, cooldown)
  {
    forall i | 0 <= i < |made| ensures (made + [Made(now, Blacklist(id))])[i] == made[i] {}
  }

  lemma DatedSnoc(ds: seq<Decision>, now: Time, d: Decision)
    ensures Dated(ds + [d], now) == Dated(ds, now) + [Made(now, d)]
  {
  }

  lemma DatedAppend(ds: seq<Decision>, more: seq<Decision>, now: Time)
    ensures Dated(ds + more, now) == Dated(ds, now) + Dated(more, now)
  {
  }

  /** Nothing but the last migrations matters. */
  lemma SpacedFrame(made: seq<Made>, lords: Scores, lords': Scores, cooldown: Time)
    requires Spaced(made, lords, cooldown) && lords.Keys <= lords'.Keys
    requires forall id | id in lords :: lords'[id].lastMigration == lords[id].lastMigration
    ensures Spaced(made, lords', cooldown)
  {
  }

  lemma {:induction false} BansKeepSpaced(made: seq<Made>, lords: Scores, cfg: Config, ids: seq<LordId>, now: Time,
                                          from: Scores)
    requires Spaced(made, lords, cfg.cooldown)
    ensures Spaced(made + Dated(Bans(from, ids, now, cfg), now), lords, cfg.cooldown)
  {
    if ids == [] {
      assert made + Dated([], now) == made;
    } else {
      var id, before := ids[|ids| - 1], Bans(from, ids[..|ids| - 1], now, cfg);
      BansKeepSpaced(made, lords, cfg, ids[..|ids| - 1], now, from);
      if id in from && ToBan(from[id], now, cfg) {
        DatedSnoc(before, now, Blacklist(id));
        BanKeepsSpaced(made + Dated(before, now), lords, cfg.cooldown, now, id);
        var m := Made(now, Blacklist(id));
        assert made + (Dated(before, now) + [m]) == made + Dated(before, now) + [m];
      } else {
        assert before + [] == before;
      }
    }
  }

  lemma BanNext(lords: Scores, ids: seq<LordId>, id: LordId, now: Time, cfg: Config)
    requires id !in ids && id in lords
    ensures
      var before := BanAll(lords, ids, now, cfg);
      && before[id] == lords[id]
      && BanAll(lords, ids + [id], now, cfg) ==
          if ToBan(lords[id], now, cfg) then before[id := before[id].(blacklistUntil := now + cfg.blacklistFor)]
          else before
  {
  }

  lemma RelieveNext(lords: Scores, order: seq<LordId>, ids: seq<LordId>, id: LordId, now: Time, cfg: Config)
    requires id !in ids && id in lords
    ensures
      var before := RelieveAll(lords, order, ids, now, cfg);
      && before[id] == lords[id]
      && RelieveAll(lords, order, ids + [id], now, cfg) ==
          if ToRelieve(lords, order, id, now, cfg) then before[id := before[id].(lastMigration := now)] else before
  {
  }

  lemma {:induction false} ReliefsKeepSpaced(made: seq<Made>, lords: Scores, order: seq<LordId>, cfg: Config,
                                             ids: seq<LordId>, now: Time)
    requires Spaced(made, lords, cfg.cooldown) && 0 < now && Distinct(ids)
    requires forall m | m in made :: m.at <= now
    requires forall id | id in ids :: id in lords
    ensures Spaced(made + Dated(Reliefs(lords, order, ids, now, cfg), now),
                   RelieveAll(lords, order, ids, now, cfg), cfg.cooldown)
  {
    if ids == [] {
      assert made + Dated([], now) == made;
      assert RelieveAll(lords, order, [], now, cfg) == lords;
    } else {
      var rest, id := ids[..|ids| - 1], ids[|ids| - 1];
      var ds, seen := Reliefs(lords, order, rest, now, cfg), RelieveAll(lords, order, rest, now, cfg);
      ReliefsKeepSpaced(made, lords, order, cfg, rest, now);
      assert ids == rest + [id];
      RelieveNext(lords, order, rest, id, now, cfg);
      if ToRelieve(lords, order, id, now, cfg) {
        var d := Migrate(id, Coldest(lords, order, id, now));
        DatedSnoc(ds, now, d);
        MoveKeepsSpaced(made + Dated(ds, now), seen, cfg, now, d);
        assert made + (Dated(ds, now) + [Made(now, d)]) == made + Dated(ds, now) + [Made(now, d)];
      } else {
        assert ds + [] == ds;
      }
    }
  }

  lemma PlanKeepsSpaced(made: seq<Made>, lords: Scores, order: seq<LordId>, limited: bool, now: Time, cfg: Config)
    requires Spaced(made, lords, cfg.cooldown) && 0 < now && IsOrder(lords, order)
    requires forall m | m in made :: m.at <= now
    ensures var plan := PlanFor(lords, order, limited, now, cfg);
      Spaced(made + Dated(plan.decisions, now), plan.lords, cfg.cooldown)
  {
    var banned, bans := BanAll(lords, order, now, cfg), Bans(lords, order, now, cfg);
    var relieved, reliefs := RelieveAll(banned, order, order, now, cfg), Reliefs(banned, order, order, now, cfg);
    var made1 := made + Dated(bans, now);
    BansKeepSpaced(made, lords, cfg, order, now, lords);
    SpacedFrame(made1, lords, banned, cfg.cooldown);
    ReliefsKeepSpaced(made1, banned, order, cfg, order, now);
    DatedAppend(bans, reliefs, now);
    var made2 := made + Dated(bans + reliefs, now);
    assert made2 == made1 + Dated(reliefs, now);
    if ToRebalance(relieved, order, limited, now, cfg) {
      var d := Rebalance(order[|order| - 1], order[0]);
      MoveKeepsSpaced(made2, relieved, cfg, now, d);
      DatedSnoc(bans + reliefs, now, d);
      assert made + (Dated(bans + reliefs, now) + [Made(now, d)]) == made2 + [Made(now, d)];
    }
  }

  ghost predicate CooldownInv(t: Trace, cfg: Config) {
    && 0 <= t.clock
    && (forall m | m in t.made :: m.at <= t.clock)
    && "" !in t.p.lords
    && Spaced(t.made, t.p.lords, cfg.cooldown)
  }

  lemma CooldownStep(t: Trace, e: Event, cfg: Config)
    requires CooldownInv(t, cfg) && Possible(t, e)
    ensures CooldownInv(Advance(t, e, cfg), cfg)
  {
    match e
    case Sampled(readings) => SpacedFrame(t.made, t.p.lords, SampleAll(t.p.lords, readings, cfg), cfg.cooldown);
    case Decided(now, order) => PlanKeepsSpaced(t.made, t.p.lords, order, Limited(t.p.migrations, now, cfg), now, cfg);
  }

  lemma {:induction false} RunKeepsCooldown(cfg: Config, run: seq<Event>)
    requires IsRun(cfg, run)
    ensures CooldownInv(After(cfg, run), cfg)
  {
    if run != [] {
      RunKeepsCooldown(cfg, run[..|run| - 1]);
      CooldownStep(After(cfg, run[..|run| - 1]), run[|run| - 1], cfg);
    }
  }

  /** Any two moves decided from one lord, over any run, are at least a cooldown apart. */
  lemma Cooldown(cfg: Config, run: seq<Event>, i: nat, j: nat)
    requires IsRun(cfg, run)
    requires i < j < |After(cfg, run).made|
    requires var m, m' := After(cfg, run).made[i], After(cfg, run).made[j];
      m'.what.Move?() && MovesFrom(m, m'.what.from)
    ensures After(cfg, run).made[j].at - After(cfg, run).made[i].at >= cfg.cooldown
  {
    RunKeepsCooldown(cfg, run);
  }

  /** So a half-open window of that length holds at most one of them. */
  lemma OneMovePerCooldown(cfg: Config, run: seq<Event>, lord: LordId, start: Time, i: nat, j: nat)
    requires IsRun(cfg, run)
    requires i < |After(cfg, run).made| && j < |After(cfg, run).made|
    requires var m, m' := After(cfg, run).made[i], After(cfg, run).made[j];
      && MovesFrom(m, lord) && MovesFrom(m', lord)
      && start <= m.at < start + cfg.cooldown && start <= m'.at < start + cfg.cooldown
    ensures i == j
  {
    if i < j { Cooldown(cfg, run, i, j); }
    if j < i { Cooldown(cfg, run, j, i); }
  }

  // ---------------------------------------------------------------------------
  // Blacklist
  // ---------------------------------------------------------------------------

  predicate Bars(m: Made, lord: LordId) { m.what == Blacklist(lord) }

  /** A lord remembers its bans, and no migration goes to it before they end. */
  ghost predicate Barred(made: seq<Made>, lords: Scores, ban: Time) {
    && (forall i | 0 <= i < |made| && made[i].what.Blacklist? ::
          made[i].what.from in lords && made[i].at + ban <= lords[made[i].what.from].blacklistUntil)
    && (forall i, j | 0 <= i < j < |made| && made[j].what.Migrate? && Bars(made[i], made[j].what.to) ::
          made[j].at >= made[i].at + ban)
  }

  lemma BanKeepsBarred(made: seq<Made>, lords: Scores, ban: Time, now: Time, id: LordId)
    requires Barred(made, lords, ban) && id in lords
    requires forall m | m in made :: m.at <= now
    ensures Barred(made + [Made(now, Blacklist(id))], lords[id := lords[id].(blacklistUntil := now + ban)], ban)
  {
    forall i | 0 <= i < |made| ensures (made + [Made(now, Blacklist(id))])[i] == made[i] && made[i].at <= now {
      assert made[i] in made;
    }
  }

  lemma MoveKeepsBarred(made: seq<Made>, lords: Scores, ban: Time, now: Time, d: Decision)
    requires Barred(made, lords, ban) && d.Move?()
    requires d.Migrate? ==> d.to in lords && !Banned(lords[d.to], now)
    ensures Barred(made + [Made(now, d)], lords, ban)
  {
    forall i | 0 <= i < |made| ensures (made + [Made(now, d)])[i] == made[i] {}
  }

  lemma {:induction false} BansKeepBarred(made: seq<Made>, lords: Scores, cfg: Config, ids: seq<LordId>, now: Time)
    requires Barred(made, lords, cfg.blacklistFor) && Distinct(ids)
    requires forall m | m in made :: m.at <= now
    requires forall id | id in ids :: id in lords
    ensures Barred(made + Dated(Bans(lords, ids, now, cfg), now), BanAll(lords, ids, now, cfg), cfg.blacklistFor)
  {
    if ids == [] {
      assert made + Dated([], now) == made;
      assert BanAll(lords, [], now, cfg) == lords;
    } else {
      var rest, id := ids[..|ids| - 1], ids[|ids| - 1];
      var ds, seen := Bans(lords, rest, now, cfg), BanAll(lords, rest, now, cfg);
      BansKeepBarred(made, lords, cfg, rest, now);
      assert ids == rest + [id];
      BanNext(lords, rest, id, now, cfg);
      if ToBan(lords[id], now, cfg) {
        DatedSnoc(ds, now, Blacklist(id));
        BanKeepsBarred(made + Dated(ds, now), seen, cfg.blacklistFor, now, id);
        var m := Made(now, Blacklist(id));
        assert made + (Dated(ds, now) + [m]) == made + Dated(ds, now) + [m];
      } else {
        assert ds + [] == ds;
      }
    }
  }

  lemma {:induction false} ReliefsKeepBarred(made: seq<Made>, lords: Scores, order: seq<LordId>, cfg: Config,
                                             ids: seq<LordId>, now: Time)
    requires Barred(made, lords, cfg.blacklistFor) && IsOrder(lords, order) && "" !in lords
    ensures Barred(made + Dated(Reliefs(lords, order, ids, now, cfg), now), lords, cfg.blacklistFor)
  {
    if ids == [] {
      assert made + Dated([], now) == made;
    } else {
      var rest, id := ids[..|ids| - 1], ids[|ids| - 1];
      var ds := Reliefs(lords, order, rest, now, cfg);
      ReliefsKeepBarred(made, lords, order, cfg, rest, now);
      if ToRelieve(lords, order, id, now, cfg) {
        var d := Migrate(id, Coldest(lords, order, id, now));
        ColdestIsLeast(lords, order, id, now);
        DatedSnoc(ds, now, d);
        MoveKeepsBarred(made + Dated(ds, now), lords, cfg.blacklistFor, now, d);
        assert made + (Dated(ds, now) + [Made(now, d)]) == made + Dated(ds, now) + [Made(now, d)];
      } else {
        assert ds + [] == ds;
      }
    }
  }

  /** Nothing but the bans matters. */
  lemma BarredFrame(made: seq<Made>, lords: Scores, lords': Scores, ban: Time)
    requires Barred(made, lords, ban) && lords.Keys <= lords'.Keys
    requires forall id | id in lords :: lords'[id].blacklistUntil == lords[id].blacklistUntil
    ensures Barred(made, lords', ban)
  {
  }

  lemma PlanKeepsBarred(made: seq<Made>, lords: Scores, order: seq<LordId>, limited: bool, now: Time, cfg: Config)
    requires Barred(made, lords, cfg.blacklistFor) && IsOrder(lords, order) && "" !in lords
    requires forall m | m in made :: m.at <= now
    ensures var plan := PlanFor(lords, order, limited, now, cfg);
      Barred(made + Dated(plan.decisions, now), plan.lords, cfg.blacklistFor)
  {
    var banned, bans := BanAll(lords, order, now, cfg), Bans(lords, order, now, cfg);
    var relieved, reliefs := RelieveAll(banned, order, order, now, cfg), Reliefs(banned, order, order, now, cfg);
    hide Bans, Reliefs, Dated, Barred, Coldest;
    BansKeepBarred(made, lords, cfg, order, now);
    ReliefsKeepBarred(made + Dated(bans, now), banned, order, cfg, order, now);
    DatedAppend(bans, reliefs, now);
    var made2 := made + Dated(bans + reliefs, now);
    assert made2 == made + Dated(bans, now) + Dated(reliefs, now);
    var plan := PlanFor(lords, order, limited, now, cfg);
    BarredFrame(made2, banned, plan.lords, cfg.blacklistFor);
    if ToRebalance(relieved, order, limited, now, cfg) {
      var d := Rebalance(order[|order| - 1], order[0]);
      MoveKeepsBarred(made2, plan.lords, cfg.blacklistFor, now, d);
      DatedSnoc(bans + reliefs, now, d);
      assert made + (Dated(bans + reliefs, now) + [Made(now, d)]) == made2 + [Made(now, d)];
    }
  }

  lemma {:induction false} RunKeepsBarred(cfg: Config, run: seq<Event>)
    requires IsRun(cfg, run)
    ensures Barred(After(cfg, run).made, After(cfg, run).p.lords, cfg.blacklistFor)
  {
    if run != [] {
      var t, e := After(cfg, run[..|run| - 1]), run[|run| - 1];
      RunKeepsBarred(cfg, run[..|run| - 1]);
      RunKeepsCooldown(cfg, run[..|run| - 1]);
      match e
      case Sampled(readings) => BarredFrame(t.made, t.p.lords, SampleAll(t.p.lords, readings, cfg), cfg.blacklistFor);
      case Decided(now, order) =>
        PlanKeepsBarred(t.made, t.p.lords, order, Limited(t.p.migrations, now, cfg), now, cfg);
    }
  }

  /** Over any run, once a lord is blacklisted no migration goes to it for as long as the ban
      lasts, through all samples and decisions in between. */
  lemma BanHolds(cfg: Config, run: seq<Event>, i: nat, j: nat)
    requires IsRun(cfg, run)
    requires i < j < |After(cfg, run).made|
    requires var m, m' := After(cfg, run).made[i], After(cfg, run).made[j];
      m'.what.Migrate? && Bars(m, m'.what.to)
    ensures After(cfg, run).made[j].at >= After(cfg, run).made[i].at + cfg.blacklistFor
  {
    RunKeepsBarred(cfg, run);
  }

  const EXAMPLE: Config := Config(MINUTE, 5, 1.0, 0.0, 0.0, 0.0, 0.8, 0.3, 0.05, MINUTE)

  const READINGS: map<LordId, Reading> :=
    map["hot" := Reading(0.7, 0.0, 0, 1, 1, 0.0), "cold" := Reading(0.1, 0.0, 0, 1, 1, 0.5)]

  const SCORES: Scores :=
    map["hot" := Score(0.7, 0.0, 0.0, 0.0, 0.7, 0, 0), "cold" := Score(0.1, 0.0, 0.0, 0.5, 0.1, 0, 0)]

  lemma FirstSample()
    ensures SampleAll(map[], READINGS, EXAMPLE) == SCORES
  {
  }

  /** A rebalance may go to a lord banned in the very same Decide. */
  lemma RebalanceToBanned() returns (run: seq<Event>)
    ensures EXAMPLE.blacklistFor > 0 && IsRun(EXAMPLE, run)
    ensures After(EXAMPLE, run).made == [Made(1, Blacklist("cold")), Made(1, Rebalance("hot", "cold"))]
  {
    var first, order := Sampled(READINGS), ["cold", "hot"];
    run := [first, Decided(1, order)];
    FirstSample();
    TwoLords(SCORES, order, EXAMPLE);
    hide SampleAll, DecideStep;
    assert IsRun(EXAMPLE, []) && After(EXAMPLE, []) == START;
    assert [first][..0] == [];
    assert IsRun(EXAMPLE, [first]) && After(EXAMPLE, [first]) == Trace(Planner(SCORES, [], []), 0, []);
    assert run[..1] == [first];
    assert After(EXAMPLE, run).made == [] + Dated([Blacklist("cold"), Rebalance("hot", "cold")], 1);
  }

  lemma TwoLords(lords: Scores, order: seq<LordId>, cfg: Config)
    requires lords == SCORES && cfg == EXAMPLE && order == ["cold", "hot"]
    ensures IsOrder(lords, order)
    ensures DecideStep(Planner(lords, [], []), order, 1, cfg).1 == [Blacklist("cold"), Rebalance("hot", "cold")]
  {
    assert order[..1] == ["cold"] && ["cold"][..0] == [];
    assert Bans(lords, [], 1, cfg) == [] && Bans(lords, ["cold"], 1, cfg) == [Blacklist("cold")];
    assert Bans(lords, order, 1, cfg) == [Blacklist("cold")];
    var banned := BanAll(lords, order, 1, cfg);
    assert Reliefs(banned, order, [], 1, cfg) == [] && Reliefs(banned, order, ["cold"], 1, cfg) == [];
    assert Reliefs(banned, order, order, 1, cfg) == [];
    assert Recent([], 1 - MINUTE) == [];
    assert [Blacklist("cold")] + [] + [Rebalance("hot", "cold")] == [Blacklist("cold"), Rebalance("hot", "cold")];
  }

  // ---------------------------------------------------------------------------
  // Rate limit
  // ---------------------------------------------------------------------------

  /** The times, in order, of the moves decided after `cutoff`. */
  function MovesSince(made: seq<Made>, cutoff: Time): seq<Time> {
    if made == [] then []
    else
      var m := made[|made| - 1];
      MovesSince(made[..|made| - 1], cutoff) + if m.what.Move?() && m.at > cutoff then [m.at] else []
  }

  lemma RecentSnoc(ts: seq<Time>, t: Time, cutoff: Time)
    ensures Recent(ts + [t], cutoff) == Recent(ts, cutoff) + if t > cutoff then [t] else []
  {
    assert (ts + [t])[..|ts|] == ts;
  }

  lemma {:induction false} RecentMoves(made: seq<Made>, cutoff: Time, cutoff': Time)
    requires cutoff <= cutoff'
    ensures Recent(MovesSince(made, cutoff), cutoff') == MovesSince(made, cutoff')
  {
    if made != [] {
      var rest, m := made[..|made| - 1], made[|made| - 1];
      RecentMoves(rest, cutoff, cutoff');
      if m.what.Move?() && m.at > cutoff {
        RecentSnoc(MovesSince(rest, cutoff), m.at, cutoff');
      } else {
        assert MovesSince(made, cutoff) == MovesSince(rest, cutoff);
        assert MovesSince(made, cutoff') == MovesSince(rest, cutoff');
      }
    }
  }

  lemma MovesSnoc(made: seq<Made>, m: Made, cutoff: Time)
    ensures MovesSince(made + [m], cutoff) ==
      MovesSince(made, cutoff) + if m.what.Move?() && m.at > cutoff then [m.at] else []
  {
    assert (made + [m])[..|made|] == made;
  }

  lemma DatedLast(made: seq<Made>, ds: seq<Decision>, now: Time)
    requires ds != []
    ensures made + Dated(ds, now) == made + Dated(ds[..|ds| - 1], now) + [Made(now, ds[|ds| - 1])]
  {
  }

  lemma {:induction false} DatedMoves(made: seq<Made>, ds: seq<Decision>, now: Time, cutoff: Time)
    requires now > cutoff
    ensures MovesSince(made + Dated(ds, now), cutoff) == MovesSince(made, cutoff) + Stamps(ds, now)
  {
    if ds == [] {
      assert made + Dated(ds, now) == made;
    } else {
      var rest, d := ds[..|ds| - 1], ds[|ds| - 1];
      DatedMoves(made, rest, now, cutoff);
      DatedLast(made, ds, now);
      MovesSnoc(made + Dated(rest, now), Made(now, d), cutoff);
    }
  }

  ghost predicate RateInv(t: Trace) {
    t.p.migrations == MovesSince(t.made, t.clock - MINUTE)
  }

  lemma RateStep(t: Trace, e: Event, cfg: Config)
    requires RateInv(t) && Possible(t, e)
    ensures RateInv(Advance(t, e, cfg))
  {
    hide PlanFor, Recent, MovesSince, Stamps, IsOrder;
    if e.Decided? {
      var plan := PlanFor(t.p.lords, e.order, Limited(t.p.migrations, e.now, cfg), e.now, cfg);
      RecentMoves(t.made, t.clock - MINUTE, e.now - MINUTE);
      DatedMoves(t.made, plan.decisions, e.now, e.now - MINUTE);
    }
  }

  lemma {:induction false} RunKeepsRate(cfg: Config, run: seq<Event>)
    requires IsRun(cfg, run)
    ensures RateInv(After(cfg, run))
  {
    if run != [] {
      RunKeepsRate(cfg, run[..|run| - 1]);
      RateStep(After(cfg, run[..|run| - 1]), run[|run| - 1], cfg);
    }
  }

  /** What a prune leaves, at any moment of any run, are the times of the moves decided in
      the last minute, each once and in order. */
  lemma RateLogIsExact(cfg: Config, run: seq<Event>, now: Time)
    requires IsRun(cfg, run) && After(cfg, run).clock <= now
    ensures
      Recent(After(cfg, run).p.migrations, now - 60 * SECOND) == MovesSince(After(cfg, run).made, now - 60 * SECOND)
  {
    hide IsRun, After, Recent, MovesSince;
    RunKeepsRate(cfg, run);
    var t := After(cfg, run);
    RecentMoves(t.made, t.clock - MINUTE, now - MINUTE);
  }

  predicate RebalanceIn(m: Made, from: Time, to: Time) { m.what.Rebalance? && from <= m.at < to }

  /** How many rebalances fall into a half-open window. */
  function RebalancesIn(made: seq<Made>, from: Time, to: Time): nat {
    if made == [] then 0
    else RebalancesIn(made[..|made| - 1], from, to) + if RebalanceIn(made[|made| - 1], from, to) then 1 else 0
  }

  /** At each rebalance, fewer than the limit were decided in the minute before. */
  ghost predicate RebalancesOk(made: seq<Made>, max: int) {
    forall i | 0 <= i < |made| && made[i].what.Rebalance? ::
      RebalancesIn(made[..i], made[i].at - MINUTE + 1, made[i].at + 1) < max
  }

  lemma {:induction false} RebalancesAreMoves(made: seq<Made>, cutoff: Time, to: Time)
    ensures RebalancesIn(made, cutoff + 1, to) <= |MovesSince(made, cutoff)|
  {
    if made != [] { RebalancesAreMoves(made[..|made| - 1], cutoff, to); }
  }

  lemma RebalancesSnoc(made: seq<Made>, m: Made, from: Time, to: Time)
    ensures RebalancesIn(made + [m], from, to) ==
            RebalancesIn(made, from, to) + if RebalanceIn(m, from, to) then 1 else 0
  {
    assert (made + [m])[..|made|] == made;
  }

  lemma {:induction false} QuietDecisions(made: seq<Made>, ds: seq<Decision>, now: Time, from: Time, to: Time)
    requires forall d | d in ds :: !d.Rebalance?
    ensures RebalancesIn(made + Dated(ds, now), from, to) == RebalancesIn(made, from, to)
  {
    if ds == [] {
      assert made + Dated(ds, now) == made;
    } else {
      var rest, d := ds[..|ds| - 1], ds[|ds| - 1];
      assert d in ds;
      QuietDecisions(made, rest, now, from, to);
      DatedLast(made, ds, now);
      RebalancesSnoc(made + Dated(rest, now), Made(now, d), from, to);
    }
  }

  lemma QuietKeepsRebalances(made: seq<Made>, ds: seq<Decision>, now: Time, max: int)
    requires RebalancesOk(made, max) && forall d | d in ds :: !d.Rebalance?
    ensures RebalancesOk(made + Dated(ds, now), max)
  {
    var made' := made + Dated(ds, now);
    forall i | |made| <= i < |made'| ensures !made'[i].what.Rebalance? {
      assert made'[i].what == ds[i - |made|] && ds[i - |made|] in ds;
    }
    forall i | 0 <= i < |made'| && made'[i].what.Rebalance?
      ensures RebalancesIn(made'[..i], made'[i].at - MINUTE + 1, made'[i].at + 1) < max
    {
      assert made'[..i] == made[..i];
    }
  }

  lemma SnocRebalance(made: seq<Made>, now: Time, d: Decision, max: int)
    requires RebalancesOk(made, max) && RebalancesIn(made, now - MINUTE + 1, now + 1) < max
    ensures RebalancesOk(made + [Made(now, d)], max)
  {
    var made' := made + [Made(now, d)];
    forall i | 0 <= i < |made'| && made'[i].what.Rebalance?
      ensures RebalancesIn(made'[..i], made'[i].at - MINUTE + 1, made'[i].at + 1) < max
    {
      assert made'[..i] == made[..i];
    }
  }

  lemma PlanKeepsRebalances(made: seq<Made>, lords: Scores, order: seq<LordId>, limited: bool, now: Time, cfg: Config)
    requires RebalancesOk(made, cfg.maxPerMin)
    requires limited <==> |MovesSince(made, now - MINUTE)| >= cfg.maxPerMin
    ensures RebalancesOk(made + Dated(PlanFor(lords, order, limited, now, cfg).decisions, now), cfg.maxPerMin)
  {
    var banned := BanAll(lords, order, now, cfg);
    var ds := Bans(lords, order, now, cfg) + Reliefs(banned, order, order, now, cfg);
    forall d | d in ds ensures !d.Rebalance? {
      BansAre(lords, order, now, cfg, d);
      ReliefsAre(banned, order, order, now, cfg, d);
    }
    QuietKeepsRebalances(made, ds, now, cfg.maxPerMin);
    if ToRebalance(RelieveAll(banned, order, order, now, cfg), order, limited, now, cfg) {
      var d := Rebalance(order[|order| - 1], order[0]);
      RebalancesAreMoves(made, now - MINUTE, now + 1);
      QuietDecisions(made, ds, now, now - MINUTE + 1, now + 1);
      SnocRebalance(made + Dated(ds, now), now, d, cfg.maxPerMin);
      DatedSnoc(ds, now, d);
      assert made + (Dated(ds, now) + [Made(now, d)]) == made + Dated(ds, now) + [Made(now, d)];
    }
  }

  lemma LimitedIs(t: Trace, now: Time, cfg: Config)
    requires RateInv(t) && t.clock <= now
    ensures Limited(t.p.migrations, now, cfg) <==> |MovesSince(t.made, now - MINUTE)| >= cfg.maxPerMin
  {
    RecentMoves(t.made, t.clock - MINUTE, now - MINUTE);
    hide Recent, MovesSince;
  }

  lemma DecidedMade(t: Trace, now: Time, order: seq<LordId>, cfg: Config)
    ensures Advance(t, Decided(now, order), cfg).made ==
      t.made + Dated(PlanFor(t.p.lords, order, Limited(t.p.migrations, now, cfg), now, cfg).decisions, now)
  {
    hide PlanFor, Limited, Recent, Stamps, Last, Dated;
  }

  lemma RebalanceStep(t: Trace, e: Event, cfg: Config)
    requires RateInv(t) && RebalancesOk(t.made, cfg.maxPerMin) && Possible(t, e)
    ensures RebalancesOk(Advance(t, e, cfg).made, cfg.maxPerMin)
  {
    if e.Decided? {
      var now, limited := e.now, Limited(t.p.migrations, e.now, cfg);
      LimitedIs(t, now, cfg);
      hide *;
      DecidedMade(t, now, e.order, cfg);
      PlanKeepsRebalances(t.made, t.p.lords, e.order, limited, now, cfg);
    }
  }

  lemma {:induction false} RunKeepsRebalances(cfg: Config, run: seq<Event>)
    requires IsRun(cfg, run)
    ensures RebalancesOk(After(cfg, run).made, cfg.maxPerMin)
  {
    if run != [] {
      RunKeepsRebalances(cfg, run[..|run| - 1]);
      RunKeepsRate(cfg, run[..|run| - 1]);
      RebalanceStep(After(cfg, run[..|run| - 1]), run[|run| - 1], cfg);
    }
  }

  lemma {:induction false} WiderWindow(made: seq<Made>, from: Time, to: Time, from': Time, to': Time)
    requires from' <= from && forall m | m in made && m.at < to :: m.at < to'
    ensures RebalancesIn(made, from, to) <= RebalancesIn(made, from', to')
  {
    if made != [] {
      assert made[|made| - 1] in made;
      WiderWindow(made[..|made| - 1], from, to, from', to');
    }
  }

  ghost predicate InOrder(made: seq<Made>) {
    forall i, j | 0 <= i < j < |made| :: made[i].at <= made[j].at
  }

  lemma InOrderAppend(made: seq<Made>, ds: seq<Decision>, now: Time)
    requires InOrder(made) && forall m | m in made :: m.at <= now
    ensures InOrder(made + Dated(ds, now))
  {
    forall i | 0 <= i < |made| ensures made[i].at <= now { assert made[i] in made; }
  }

  lemma {:induction false} WindowBound(made: seq<Made>, from: Time, max: int)
    requires RebalancesOk(made, max)
    requires InOrder(made)
    ensures RebalancesIn(made, from, from + MINUTE) <= if max > 0 then max else 0
  {
    if made != [] {
      var rest, m := made[..|made| - 1], made[|made| - 1];
      if RebalanceIn(m, from, from + MINUTE) {
        WiderWindow(rest, from, from + MINUTE, m.at - MINUTE + 1, m.at + 1);
      } else {
        forall i | 0 <= i < |rest| ensures made[..i] == rest[..i] {}
        WindowBound(rest, from, max);
      }
    }
  }

  lemma {:induction false} MadeInOrder(cfg: Config, run: seq<Event>)
    requires IsRun(cfg, run)
    ensures InOrder(After(cfg, run).made)
  {
    if run != [] {
      var t, e := After(cfg, run[..|run| - 1]), run[|run| - 1];
      MadeInOrder(cfg, run[..|run| - 1]);
      RunKeepsCooldown(cfg, run[..|run| - 1]);
      if e.Decided? { InOrderAppend(t.made, DecideStep(t.p, e.order, e.now, cfg).1, e.now); }
    }
  }

  /** Over any run, any half-open minute holds at most `maxPerMin` rebalances. */
  lemma RebalanceLimit(cfg: Config, run: seq<Event>, from: Time)
    requires IsRun(cfg, run)
    ensures
      RebalancesIn(After(cfg, run).made, from, from + 60 * SECOND) <= if cfg.maxPerMin > 0 then cfg.maxPerMin else 0
  {
    RunKeepsRebalances(cfg, run);
    MadeInOrder(cfg, run);
    WindowBound(After(cfg, run).made, from, cfg.maxPerMin);
  }

  // ---------------------------------------------------------------------------
  // When a Decide moves something
  // ---------------------------------------------------------------------------

  /** A lord whose last move is recorded has one, at that time, among the decisions made. */
  ghost predicate Remembered(made: seq<Made>, lords: Scores) {
    forall id {:trigger lords[id]} | id in lords ::
      lords[id].lastMigration == 0 || MovedAt(made, id, lords[id].lastMigration)
  }

  ghost predicate MovedAt(made: seq<Made>, id: LordId, at: Time) {
    exists m | m in made :: m.what.Move?() && m.what.from == id && m.at == at
  }

  /** Something moves from this lord: it is relieved, or rebalanced. */
  predicate Stamped(p: Planner, order: seq<LordId>, now: Time, cfg: Config, id: LordId) {
    var banned := BanAll(p.lords, order, now, cfg);
    || (id in order && ToRelieve(banned, order, id, now, cfg))
    || (&& ToRebalance(RelieveAll(banned, order, order, now, cfg), order, Limited(p.migrations, now, cfg), now, cfg)
        && id == order[|order| - 1])
  }

  lemma StampedIs(p: Planner, order: seq<LordId>, now: Time, cfg: Config, id: LordId)
    ensures Stamped(p, order, now, cfg, id) <==>
      exists d | d in DecideStep(p, order, now, cfg).1 :: d.Move?() && d.from == id
  {
    var ds := DecideStep(p, order, now, cfg).1;
    var to := Coldest(BanAll(p.lords, order, now, cfg), order, id, now);
    MigrationsAre(p, order, now, cfg, id, to);
    if |order| >= 2 { RebalancesAre(p, order, now, cfg, id, order[0]); }
    hide DecideStep, Coldest, ToRelieve, BanAll, RelieveAll, Limited;
    if d :| d in ds && d.Move?() && d.from == id {
      MigrationsAre(p, order, now, cfg, id, d.to);
      RebalancesAre(p, order, now, cfg, id, d.to);
    }
  }

  lemma StampedEntry(p: Planner, order: seq<LordId>, now: Time, cfg: Config, id: LordId)
    requires IsOrder(p.lords, order) && id in p.lords
    ensures
      var lords, s := DecideStep(p, order, now, cfg).0.lords, p.lords[id];
      && id in lords
      && lords[id] == s.(
           blacklistUntil := if ToBan(s, now, cfg) then now + cfg.blacklistFor else s.blacklistUntil,
           lastMigration := if Stamped(p, order, now, cfg, id) then now else s.lastMigration)
  {
    hide Bans, Reliefs, Recent, Stamps, Coldest, Limited, Cooling, ToBan;
  }

  lemma BannedIs(p: Planner, order: seq<LordId>, now: Time, cfg: Config, id: LordId)
    requires IsOrder(p.lords, order) && id in p.lords
    ensures Blacklist(id) in DecideStep(p, order, now, cfg).1 <==> ToBan(p.lords[id], now, cfg)
  {
    BansAre(p.lords, order, now, cfg, Blacklist(id));
    ReliefsAre(BanAll(p.lords, order, now, cfg), order, order, now, cfg, Blacklist(id));
    hide Bans, Reliefs, Recent, Stamps, Coldest, Limited, ToBan, ToRebalance, ToRelieve;
  }

  /** What one Decide makes of one lord: it is banned exactly when its reject rate exceeds the
      threshold and its last ban is over, stamped exactly when something moves from it, and
      keeps its figures. */
  lemma DecideEffects(p: Planner, order: seq<LordId>, now: Time, cfg: Config, id: LordId)
    requires IsOrder(p.lords, order) && id in p.lords
    ensures
      var (p', ds) := DecideStep(p, order, now, cfg);
      && id in p'.lords
      && var s, s' := p.lords[id], p'.lords[id];
      var bans := s.reject > cfg.blacklistReject && s.blacklistUntil < now;
      && (Blacklist(id) in ds <==> bans)
      && s'.blacklistUntil == (if bans then now + cfg.blacklistFor else s.blacklistUntil)
      && s'.lastMigration == (if exists d | d in ds :: d.Move?() && d.from == id then now else s.lastMigration)
      && s' == s.(blacklistUntil := s'.blacklistUntil, lastMigration := s'.lastMigration)
  {
    StampedEntry(p, order, now, cfg, id);
    StampedIs(p, order, now, cfg, id);
    BannedIs(p, order, now, cfg, id);
    hide DecideStep, Stamped, IsOrder;
  }

  lemma DatedHas(ds: seq<Decision>, now: Time, d: Decision)
    requires d in ds
    ensures Made(now, d) in Dated(ds, now)
  {
    var i :| 0 <= i < |ds| && ds[i] == d;
    assert Dated(ds, now)[i] == Made(now, d);
  }

  lemma DecideRemembers(t: Trace, order: seq<LordId>, now: Time, cfg: Config)
    requires Remembered(t.made, t.p.lords) && IsOrder(t.p.lords, order)
    ensures var t' := Advance(t, Decided(now, order), cfg); Remembered(t'.made, t'.p.lords)
  {
    var (p', ds) := DecideStep(t.p, order, now, cfg);
    DecideKeepsBans(t.p, order, now, cfg);
    hide DecideStep, Dated, IsOrder;
    forall id | id in p'.lords && p'.lords[id].lastMigration != 0
      ensures MovedAt(t.made + Dated(ds, now), id, p'.lords[id].lastMigration)
    {
      DecideEffects(t.p, order, now, cfg, id);
      if d :| d in ds && d.Move?() && d.from == id {
        DatedHas(ds, now, d);
        assert Made(now, d) in t.made + Dated(ds, now);
      } else {
        var m :| m in t.made && m.what.Move?() && m.what.from == id && m.at == t.p.lords[id].lastMigration;
        assert m in t.made + Dated(ds, now);
      }
    }
  }

  lemma {:induction false} RunRemembers(cfg: Config, run: seq<Event>)
    requires IsRun(cfg, run)
    ensures Remembered(After(cfg, run).made, After(cfg, run).p.lords)
  {
    if run != [] {
      var t, e := After(cfg, run[..|run| - 1]), run[|run| - 1];
      RunRemembers(cfg, run[..|run| - 1]);
      if e.Decided? { DecideRemembers(t, e.order, e.now, cfg); }
    }
  }

  /** A lord cools down for exactly as long as some move from it is less than a cooldown ago. */
  lemma CoolingIs(made: seq<Made>, lords: Scores, cfg: Config, id: LordId, now: Time)
    requires Remembered(made, lords) && Spaced(made, lords, cfg.cooldown) && id in lords
    ensures Cooling(lords[id], now, cfg) <==>
      exists m | m in made :: m.what.Move?() && m.what.from == id && now - m.at < cfg.cooldown
  {
    var last := lords[id].lastMigration;
    if m :| m in made && m.what.Move?() && m.what.from == id && now - m.at < cfg.cooldown {
      assert 0 < m.at <= last;
    }
    if last != 0 { assert MovedAt(made, id, last); }
  }

  /** The cooldown ends. In any run, a Decide relieves a lord exactly when it is overloaded,
      every move from it so far is a cooldown old and the ban of some other lord is over once
      this Decide has banned whom it bans. */
  lemma CooldownEnds(cfg: Config, run: seq<Event>, now: Time, order: seq<LordId>, from: LordId)
    requires IsRun(cfg, run) && Possible(After(cfg, run), Decided(now, order))
    ensures
      var t := After(cfg, run);
      var (p', ds) := DecideStep(t.p, order, now, cfg);
      (exists to :: Migrate(from, to) in ds) <==>
        && from in t.p.lords && t.p.lords[from].cpu >= cfg.overloadCpu
        && (forall m | m in t.made && m.what.Move?() && m.what.from == from :: now - m.at >= cfg.cooldown)
        && (exists k | k in p'.lords :: k != from && p'.lords[k].blacklistUntil <= now)
  {
    var t := After(cfg, run);
    RunKeepsCooldown(cfg, run);
    RunRemembers(cfg, run);
    if from in t.p.lords { CoolingIs(t.made, t.p.lords, cfg, from, now); }
    OverloadIsRelieved(t.p, order, now, cfg, from);
    hide DecideStep, IsRun, After, Spaced, Remembered;
  }

  /** In any run, a Decide rebalances exactly when a highest- and a least-scoring lord are more
      than the threshold apart, every move from the former so far is a cooldown old, this
      Decide does not relieve it too (unless there is no cooldown), and fewer than the limit
      were moved in the last minute. Bans play no part. */
  lemma RebalanceWhenDue(cfg: Config, run: seq<Event>, now: Time, order: seq<LordId>, from: LordId, to: LordId)
    requires IsRun(cfg, run) && Possible(After(cfg, run), Decided(now, order))
    ensures
      var t := After(cfg, run);
      var ds := DecideStep(t.p, order, now, cfg).1;
      Rebalance(from, to) in ds <==>
        && |order| >= 2 && from == order[|order| - 1] && to == order[0]
        && from in t.p.lords && to in t.p.lords
        && t.p.lords[from].combined - t.p.lords[to].combined > cfg.rebalanceDelta
        && (forall m | m in t.made && m.what.Move?() && m.what.from == from :: now - m.at >= cfg.cooldown)
        && (cfg.cooldown <= 0 || forall k :: Migrate(from, k) !in ds)
        && |MovesSince(t.made, now - 60 * SECOND)| < cfg.maxPerMin
  {
    var t := After(cfg, run);
    RunKeepsCooldown(cfg, run);
    RunRemembers(cfg, run);
    RunKeepsRate(cfg, run);
    LimitedIs(t, now, cfg);
    if from in t.p.lords { CoolingIs(t.made, t.p.lords, cfg, from, now); }
    RebalanceTarget(t.p, order, now, cfg, from, to);
    hide DecideStep, IsRun, After, Spaced, Remembered, MovesSince, Recent, RateInv;
  }

  // ---------------------------------------------------------------------------
  // The decision log
  // ---------------------------------------------------------------------------

  function Whats(made: seq<Made>): seq<Decision> { seq(|made|, i requires 0 <= i < |made| => made[i].what) }

  /** The log holds the last 64 decisions of the run. */
  lemma {:induction false} LogIsLastDecisions(cfg: Config, run: seq<Event>)
    requires IsRun(cfg, run)
    ensures After(cfg, run).p.log == Last(64, Whats(After(cfg, run).made))
  {
    if run != [] {
      var t, e := After(cfg, run[..|run| - 1]), run[|run| - 1];
      LogIsLastDecisions(cfg, run[..|run| - 1]);
      if e.Decided? {
        var ds := DecideStep(t.p, e.order, e.now, cfg).1;
        LastAppend(LOG_CAP, Whats(t.made), ds);
        assert Whats(t.made + Dated(ds, e.now)) == Whats(t.made) + ds;
      }
    }
  }

  // ---------------------------------------------------------------------------
  // The planner
  // ---------------------------------------------------------------------------

  lemma PruneNext(was: seq<Time>, ts: seq<Time>, keep: nat, i: nat, cutoff: Time)
    requires i < |was| == |ts| && keep <= i
    requires ts[..keep] == Recent(was[..i], cutoff) && ts[i..] == was[i..]
    ensures ts[i] == was[i] && ts[i + 1..] == was[i + 1..] == ts[keep := ts[i]][i + 1..]
    ensures Recent(was[..i + 1], cutoff) == if ts[i] > cutoff then ts[keep := ts[i]][..keep + 1] else ts[..keep]
  {
    assert ts[i] == ts[i..][0] == was[i];
    assert was[..i + 1] == was[..i] + [was[i]];
    RecentSnoc(was[..i], was[i], cutoff);
  }

  ghost predicate Sorted(lords: Scores, order: seq<LordId>) {
    && (forall id | id in order :: id in lords)
    && forall i, j | 0 <= i < j < |order| :: lords[order[i]].combined <= lords[order[j]].combined
  }

  lemma AppendKeepsSorted(lords: Scores, order: seq<LordId>, id: LordId)
    requires Sorted(lords, order) && Distinct(order) && id in lords && id !in order
    requires forall x | x in order :: lords[x].combined <= lords[id].combined
    ensures Sorted(lords, order + [id]) && Distinct(order + [id])
  {
    forall i | 0 <= i < |order| ensures (order + [id])[i] == order[i] && order[i] in order {}
  }

  class AutoscaleState {
    var lords: Scores
    var migrations: seq<Time>
    var migrationLog: seq<Decision>

    ghost function View(): Planner
      reads this
    {
      Planner(lords, migrations, migrationLog)
    }

    constructor ()
      ensures View() == START.p
    {
      lords, migrations, migrationLog := map[], [], [];
    }

    method Sample(readings: map<LordId, Reading>, cfg: Config)
      modifies this
      ensures View() == old(View()).(lords := SampleAll(old(lords), readings, cfg))
    {
      hide Combined, TaskRatio;
      var live: Scores := map[];
      var todo := readings.Keys;
      while todo != {}
        invariant todo <= readings.Keys && live.Keys == readings.Keys - todo
        invariant forall id | id in live :: live[id] == SampleOne(Lookup(lords, id), readings[id], cfg)
        decreases todo
      {
        var id :| id in todo;
        todo := todo - {id};
        var r := readings[id];
        var reject := r.reject;
        var blacklistUntil, lastMigration := 0, 0;
        if id in lords {
          if lords[id].reject > 0.0 { reject := 0.7 * reject + 0.3 * lords[id].reject; }
          blacklistUntil, lastMigration := lords[id].blacklistUntil, lords[id].lastMigration;
        }
        var tasks := TaskRatio(r);
        var combined := Combined(cfg, r.cpu, r.mem, tasks, reject);
        live := live[id := Score(r.cpu, r.mem, tasks, reject, combined, blacklistUntil, lastMigration)];
      }
      lords := live;
    }

    /** Drop from the rate log, in place, what is not after `cutoff`. */
    method Prune(cutoff: Time)
      modifies this`migrations
      ensures migrations == Recent(old(migrations), cutoff)
    {
      ghost var was := migrations;
      var keep := 0;
      for i := 0 to |migrations|
        invariant |migrations| == |was| && keep <= i
        invariant migrations[..keep] == Recent(was[..i], cutoff) && migrations[i..] == was[i..]
      {
        PruneNext(was, migrations, keep, i, cutoff);
        if migrations[i] > cutoff {
          migrations := migrations[keep := migrations[i]];
          keep := keep + 1;
        }
      }
      assert was[..|was|] == was;
      migrations := migrations[..keep];
    }

    method SortByScore() returns (order: seq<LordId>)
      ensures IsOrder(lords, order)
    {
      order := [];
      var todo := lords.Keys;
      while todo != {}
        invariant todo <= lords.Keys && Distinct(order) && Sorted(lords, order)
        invariant forall id :: id in order <==> id in lords && id !in todo
        invariant forall x, id | x in order && id in todo :: lords[x].combined <= lords[id].combined
        decreases todo
      {
        var id := LeastOf(todo);
        AppendKeepsSorted(lords, order, id);
        order := order + [id];
        todo := todo - {id};
      }
    }

    method LeastOf(ids: set<LordId>) returns (least: LordId)
      requires ids != {} && ids <= lords.Keys
      ensures least in ids && forall id | id in ids :: lords[least].combined <= lords[id].combined
    {
      least :| least in ids;
      var todo := ids - {least};
      while todo != {}
        invariant todo <= ids && least in ids
        invariant forall id | id in ids - todo :: lords[least].combined <= lords[id].combined
        decreases todo
      {
        var id :| id in todo;
        todo := todo - {id};
        if lords[id].combined < lords[least].combined { least := id; }
      }
    }

    method PickColdest(order: seq<LordId>, from: LordId, now: Time) returns (r: LordId)
      requires forall id | id in order :: id in lords
      ensures r == Coldest(lords, order, from, now)
    {
      for i := 0 to |order|
        invariant Coldest(lords, order, from, now) == Coldest(lords, order[i..], from, now)
      {
        var id := order[i];
        assert order[i..][0] == id && order[i..][1..] == order[i + 1..];
        if id == from { continue; }
        if lords[id].blacklistUntil > now { continue; }
        return id;
      }
      assert order[|order|..] == [];
      return "";
    }

    method BlacklistPass(order: seq<LordId>, now: Time, cfg: Config) returns (ds: seq<Decision>)
      requires Distinct(order) && forall id | id in order :: id in lords
      modifies this`lords
      ensures lords == BanAll(old(lords), order, now, cfg) && ds == Bans(old(lords), order, now, cfg)
    {
      ds := [];
      ghost var was := lords;
      for i := 0 to |order|
        invariant lords == BanAll(was, order[..i], now, cfg) && ds == Bans(was, order[..i], now, cfg)
      {
        var id := order[i];
        assert order[..i + 1] == order[..i] + [id] && id !in order[..i];
        BanNext(was, order[..i], id, now, cfg);
        if lords[id].reject > cfg.blacklistReject && lords[id].blacklistUntil < now {
          lords := lords[id := lords[id].(blacklistUntil := now + cfg.blacklistFor)];
          ds := ds + [Blacklist(id)];
        }
      }
      assert order[..|order|] == order;
    }

    method OverloadPass(order: seq<LordId>, now: Time, cfg: Config) returns (ds: seq<Decision>)
      requires Distinct(order) && forall id | id in order :: id in lords
      modifies this`lords
      ensures lords == RelieveAll(old(lords), order, order, now, cfg)
      ensures ds == Reliefs(old(lords), order, order, now, cfg)
    {
      ds := [];
      ghost var was := lords;
      for i := 0 to |order|
        invariant lords == RelieveAll(was, order, order[..i], now, cfg)
        invariant ds == Reliefs(was, order, order[..i], now, cfg)
      {
        var id := order[i];
        assert order[..i + 1] == order[..i] + [id] && id !in order[..i];
        RelieveNext(was, order, order[..i], id, now, cfg);
        if lords[id].cpu < cfg.overloadCpu { continue; }
        if lords[id].lastMigration != 0 && now - lords[id].lastMigration < cfg.cooldown { continue; }
        var target := PickColdest(order, id, now);
        ColdestFrame(was, lords, order, id, now);
        if target == "" { continue; }
        ds := ds + [Migrate(id, target)];
        lords := lords[id := lords[id].(lastMigration := now)];
      }
      assert order[..|order|] == order;
    }

    method RebalancePass(order: seq<LordId>, limited: bool, now: Time, cfg: Config) returns (ds: seq<Decision>)
      requires forall id | id in order :: id in lords
      modifies this`lords
      ensures !ToRebalance(old(lords), order, limited, now, cfg) ==> ds == [] && lords == old(lords)
      ensures ToRebalance(old(lords), order, limited, now, cfg) ==>
        var hot := order[|order| - 1];
        ds == [Rebalance(hot, order[0])] && lords == old(lords)[hot := old(lords)[hot].(lastMigration := now)]
    {
      ds := [];
      if |order| >= 2 {
        var hot, cold := order[|order| - 1], order[0];
        if lords[hot].combined - lords[cold].combined > cfg.rebalanceDelta {
          if lords[hot].lastMigration != 0 && now - lords[hot].lastMigration < cfg.cooldown {
          } else if !limited {
            ds := [Rebalance(hot, cold)];
            lords := lords[hot := lords[hot].(lastMigration := now)];
          }
        }
      }
    }

    method Decide(now: Time, cfg: Config) returns (decisions: seq<Decision>, ghost order: seq<LordId>)
      modifies this
      ensures IsOrder(old(lords), order)
      ensures (View(), decisions) == DecideStep(old(View()), order, now, cfg)
    {
      hide Bans, Reliefs, Recent, Stamps, ToRebalance, ToBan, ToRelieve;
      Prune(now - MINUTE);
      var rateLimited := |migrations| >= cfg.maxPerMin;
      var byScore := SortByScore();
      order := byScore;
      decisions := BlacklistPass(byScore, now, cfg);
      var reliefs := OverloadPass(byScore, now, cfg);
      decisions := decisions + reliefs;
      var move := RebalancePass(byScore, rateLimited, now, cfg);
      assert decisions + [] == decisions;
      decisions := decisions + move;
      LogDecisions(decisions, now);
    }

    method LogDecisions(ds: seq<Decision>, now: Time)
      modifies this`migrations, this`migrationLog
      ensures migrations == old(migrations) + Stamps(ds, now)
      ensures migrationLog == Last(LOG_CAP, old(migrationLog) + ds)
    {
      for i := 0 to |ds|
        invariant migrations == old(migrations) + Stamps(ds[..i], now) && migrationLog == old(migrationLog)
      {
        assert ds[..i + 1] == ds[..i] + [ds[i]];
        if ds[i].Migrate? || ds[i].Rebalance? { migrations := migrations + [now]; }
      }
      assert ds[..|ds|] == ds;
      migrationLog := migrationLog + ds;
      if |migrationLog| > LOG_CAP { migrationLog := migrationLog[|migrationLog| - LOG_CAP..]; }
    }
  }

  /** Only the blacklist decides who may take a process. */
  lemma {:induction false} ColdestFrame(lords: Scores, lords': Scores, order: seq<LordId>, from: LordId, now: Time)
    requires lords.Keys == lords'.Keys
    requires forall id | id in lords :: lords'[id].blacklistUntil == lords[id].blacklistUntil
    ensures Coldest(lords', order, from, now) == Coldest(lords, order, from, now)
  {
    if order != [] { ColdestFrame(lords, lords', order[1..], from, now); }
  }
}
