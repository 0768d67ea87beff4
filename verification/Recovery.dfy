/** Recovery of the processes of a lord that disconnected: up to ten attempts to find a lord
    and respawn them there, then a clean-up. */
module Recovery {
  import opened Process
  import opened Clock
  import opened Sequences
  import opened Journal
  import opened Lifecycle
  import opened Protocol

  const MAX_ATTEMPTS := 10
  const DEBOUNCE: Time := 10 * SECOND

  /** What the attempts meet: the lord each one picks, if any, which of its sends are accepted
      by that lord's session, when it is made, and which sessions are open after the sleep
      before it. */
  datatype World = World(
    picks: nat -> Option<LordId>, accepts: (nat, ProcId) -> bool, at: nat -> Time, open: nat -> set<LordId>)

  /** The sessions an attempt meets; there is no sleep before the first one. */
  function OpenAt(w: World, open: set<LordId>, i: nat): set<LordId> {
    if i == 0 then open else w.open(i)
  }

  /** Those that so many attempts leave. */
  function OpenAfter(w: World, open: set<LordId>, attempts: nat): set<LordId> {
    if attempts == 0 then open else OpenAt(w, open, attempts - 1)
  }

  /** Only a session open at the attempt accepts anything. */
  function Through(w: World, open: set<LordId>): World {
    w.(accepts := (i: nat, id: ProcId) =>
      w.picks(i).Some? && w.picks(i).value in OpenAt(w, open, i) && w.accepts(i, id))
  }

  function AcceptsAt(w: World, i: nat): ProcId -> bool {
    id => w.accepts(i, id)
  }

  datatype Sweep = Sweep(core: Core, sent: seq<Send>, ok: nat)

  datatype Effect = Effect(core: Core, sent: seq<Send>, armed: set<Timer>, attempts: nat)

  function Before(sent: seq<Send>, armed: set<Timer>, e: Effect): Effect {
    e.(sent := sent + e.sent, armed := armed + e.armed)
  }

  ghost predicate AllIn(ids: seq<ProcId>, t: Table) {
    forall id | id in ids :: id in t
  }

  /** Every process a recovery of this lord takes up, once. */
  ghost predicate TakesUp(ids: seq<ProcId>, t: Table, dead: LordId) {
    && Distinct(ids)
    && forall id :: id in ids <==>
         id in t && t[id].info.lord == dead && t[id].info.state in {Running, Ready, Paused, Migrating}
  }

  function Queued(lord: LordId, r: Respawned): seq<Send> {
    if r.Sent? then [Send(lord, r.req)] else []
  }

  /** The ack timers armed for these requests. */
  function Armed(sent: seq<Send>, now: Time): set<Timer> {
    set x | x in sent :: Timer(x.req.processId, now + ACK_TIMEOUT)
  }

  lemma ArmedNone(now: Time)
    ensures Armed([], now) == {}
  {
  }

  lemma ArmedOne(x: Send, now: Time)
    ensures Armed([x], now) == {Timer(x.req.processId, now + ACK_TIMEOUT)}
  {
    assert x in [x];
  }

  lemma ArmedAppend(a: seq<Send>, b: seq<Send>, now: Time)
    ensures Armed(a + b, now) == Armed(a, now) + Armed(b, now)
  {
  }

  /** One pass over the candidates. */
  ghost function RespawnAll(c: Core, ids: seq<ProcId>, lord: LordId, accepts: ProcId -> bool): (p: Sweep)
    requires AllIn(ids, c.table)
    ensures p.core.table.Keys == c.table.Keys
  {
    if ids == [] then Sweep(c, [], 0)
    else
      var last := ids[|ids| - 1];
      var p := RespawnAll(c, ids[..|ids| - 1], lord, accepts);
      var (c', r) := Respawn(p.core, last, lord, accepts(last));
      Sweep(c', p.sent + Queued(lord, r), p.ok + if r.Ok() then 1 else 0)
  }

  ghost function GiveUpAll(c: Core, ids: seq<ProcId>): (c': Core)
    ensures c'.table.Keys == c.table.Keys
  {
    if ids == [] then c else GiveUp(GiveUpAll(c, ids[..|ids| - 1]), ids[|ids| - 1], NO_LORD_LEFT)
  }

  /** The attempts from number i on: the first pass with a success ends them. */
  ghost function Attempts(c: Core, ids: seq<ProcId>, w: World, i: nat): (o: Effect)
    requires AllIn(ids, c.table)
    ensures o.core.table.Keys == c.table.Keys
    decreases MAX_ATTEMPTS - i
  {
    if i >= MAX_ATTEMPTS then Effect(c, [], {}, i)
    else
      match w.picks(i)
      case None => Attempts(c, ids, w, i + 1)
      case Some(lord) =>
        var p := RespawnAll(c, ids, lord, AcceptsAt(w, i));
        var armed := Armed(p.sent, w.at(i));
        if p.ok > 0 then Effect(p.core, p.sent, armed, i + 1)
        else
          Before(p.sent, armed, Attempts(p.core, ids, w, i + 1))
  }

  ghost function Recover(c: Core, ids: seq<ProcId>, w: World): Effect
    requires AllIn(ids, c.table)
  {
    if ids == [] then Effect(c, [], {}, 0)
    else
      var o := Attempts(c, ids, w, 0);
      o.(core := GiveUpAll(o.core, ids))
  }

  // One step of each, for the loops that compute them.

  lemma RespawnNobody(c: Core, lord: LordId, accepts: ProcId -> bool)
    ensures RespawnAll(c, [], lord, accepts) == Sweep(c, [], 0)
  {
  }

  lemma RespawnAllNext(c: Core, ids: seq<ProcId>, i: nat, lord: LordId, accepts: ProcId -> bool, c': Core, r: Respawned)
    requires AllIn(ids, c.table) && i < |ids|
    requires (c', r) == Respawn(RespawnAll(c, ids[..i], lord, accepts).core, ids[i], lord, accepts(ids[i]))
    ensures var p := RespawnAll(c, ids[..i], lord, accepts);
      RespawnAll(c, ids[..i + 1], lord, accepts) == Sweep(c', p.sent + Queued(lord, r), p.ok + if r.Ok() then 1 else 0)
  {
    assert ids[..i + 1][..i] == ids[..i];
  }

  lemma GiveUpAllNext(c: Core, ids: seq<ProcId>, i: nat)
    requires i < |ids|
    ensures GiveUpAll(c, ids[..i + 1]) == GiveUp(GiveUpAll(c, ids[..i]), ids[i], NO_LORD_LEFT)
  {
    assert ids[..i + 1][..i] == ids[..i];
  }

  /** What the attempts come to, when i were made, `sent` was sent, its timers armed, and the
      last one had `ok` successes. */
  ghost function Ahead(c: Core, ids: seq<ProcId>, w: World, i: nat, sent: seq<Send>, armed: set<Timer>, ok: nat): Effect
    requires AllIn(ids, c.table)
  {
    if ok > 0 then Effect(c, sent, armed, i) else Before(sent, armed, Attempts(c, ids, w, i))
  }

  lemma AheadNext(c: Core, ids: seq<ProcId>, w: World, i: nat, sent: seq<Send>, armed: set<Timer>, p: Sweep)
    requires AllIn(ids, c.table) && i < MAX_ATTEMPTS
    requires p ==
      if w.picks(i).Some? then RespawnAll(c, ids, w.picks(i).value, AcceptsAt(w, i)) else Sweep(c, [], 0)
    ensures AllIn(ids, p.core.table)
    ensures Ahead(c, ids, w, i, sent, armed, 0) ==
            Ahead(p.core, ids, w, i + 1, sent + p.sent, armed + Armed(p.sent, w.at(i)), p.ok)
  {
    hide RespawnAll, Armed;
    if w.picks(i).None? {
      ArmedNone(w.at(i));
      assert sent + [] == sent && armed + {} == armed;
    } else if p.ok == 0 {
      var e := Attempts(p.core, ids, w, i + 1);
      assert sent + (p.sent + e.sent) == sent + p.sent + e.sent;
      assert armed + (Armed(p.sent, w.at(i)) + e.armed) == armed + Armed(p.sent, w.at(i)) + e.armed;
    }
  }

  lemma AheadDone(c: Core, ids: seq<ProcId>, w: World, i: nat, sent: seq<Send>, armed: set<Timer>, ok: nat)
    requires AllIn(ids, c.table) && i <= MAX_ATTEMPTS && (i == MAX_ATTEMPTS || ok > 0)
    ensures Ahead(c, ids, w, i, sent, armed, ok) == Effect(c, sent, armed, i)
  {
    assert sent + [] == sent && armed + {} == armed;
  }

  lemma RecoverNobody(c: Core, w: World)
    ensures Recover(c, [], w) == Effect(c, [], {}, 0)
  {
  }

  lemma RecoverIs(c: Core, ids: seq<ProcId>, w: World, e: Effect, c': Core)
    requires AllIn(ids, c.table) && ids != [] && e == Ahead(c, ids, w, 0, [], {}, 0) && c' == GiveUpAll(e.core, ids)
    ensures Recover(c, ids, w) == e.(core := c')
  {
    var o := Attempts(c, ids, w, 0);
    assert [] + o.sent == o.sent && {} + o.armed == o.armed;
  }

  // ---------------------------------------------------------------------------
  // What it comes to, entry by entry
  // ---------------------------------------------------------------------------

  /** A table of one entry. */
  function Alone(e: Entry): Core { Core(map[e.info.id := e], []) }

  function FinalizeEntry(e: Entry, code: int): Entry {
    Finalize(Alone(e), e.info.id, code).table[e.info.id]
  }

  function Tried(info: Info): bool { !Final(info.state) && !Exhausted(info) }

  function RespawnEntry(e: Entry, lord: LordId, accepted: bool): Entry {
    Respawn(Alone(e), e.info.id, lord, accepted).0.table[e.info.id]
  }

  /** A candidate after a recovery that found a lord: given up in every case, even when its
      request was accepted by the new lord. */
  function RecoveredEntry(e: Entry, lord: LordId, accepted: bool): Entry {
    GiveUp(Respawn(Alone(e), e.info.id, lord, accepted).0, e.info.id, NO_LORD_LEFT).table[e.info.id]
  }

  lemma RespawnIsEntrywise(c: Core, id: ProcId, lord: LordId, accepted: bool)
    requires id in c.table
    ensures var (c', r) := Respawn(c, id, lord, accepted);
      && c'.table == c.table[id := RespawnEntry(c.table[id], lord, accepted)]
      && (r.Sent? <==> Tried(c.table[id].info) && accepted)
      && (r.Ok() <==> Final(c.table[id].info.state) || r.Sent?)
      && (r.Sent? ==> r.req == RespawnRequest(c.table[id].info))
  {
  }

  ghost predicate RespawnedAs(c: Core, ids: seq<ProcId>, lord: LordId, accepts: ProcId -> bool, t: Table) {
    && t.Keys == c.table.Keys
    && forall id | id in t :: t[id] == if id in ids then RespawnEntry(c.table[id], lord, accepts(id)) else c.table[id]
  }

  lemma {:induction false} RespawnAllEntries(c: Core, ids: seq<ProcId>, lord: LordId, accepts: ProcId -> bool)
    requires AllIn(ids, c.table) && Distinct(ids)
    ensures RespawnedAs(c, ids, lord, accepts, RespawnAll(c, ids, lord, accepts).core.table)
  {
    if ids != [] {
      var init, last := ids[..|ids| - 1], ids[|ids| - 1];
      RespawnAllEntries(c, init, lord, accepts);
      RespawnIsEntrywise(RespawnAll(c, init, lord, accepts).core, last, lord, accepts(last));
      assert ids == init + [last] && last !in init;
    }
  }

  /** What the last candidate adds to a pass. */
  lemma LastOfPass(c: Core, ids: seq<ProcId>, lord: LordId, accepts: ProcId -> bool)
    requires AllIn(ids, c.table) && Distinct(ids) && ids != []
    ensures var init, last := ids[..|ids| - 1], ids[|ids| - 1];
      var p, q := RespawnAll(c, init, lord, accepts), RespawnAll(c, ids, lord, accepts);
      var goes := Tried(c.table[last].info) && accepts(last);
      && last !in init && (forall id :: id in ids <==> id in init || id == last)
      && q.sent == (if goes then p.sent + [Send(lord, RespawnRequest(c.table[last].info))] else p.sent)
      && q.ok == p.ok + (if Final(c.table[last].info.state) || goes then 1 else 0)
  {
    var init, last := ids[..|ids| - 1], ids[|ids| - 1];
    assert ids == init + [last];
    RespawnAllEntries(c, init, lord, accepts);
    RespawnIsEntrywise(RespawnAll(c, init, lord, accepts).core, last, lord, accepts(last));
  }

  lemma {:induction false} RespawnAllSends(c: Core, ids: seq<ProcId>, lord: LordId, accepts: ProcId -> bool, id: ProcId)
    requires AllIn(ids, c.table) && Distinct(ids)
    requires forall k | k in ids :: c.table[k].info.id == k
    ensures SendsOf(RespawnAll(c, ids, lord, accepts).sent, 0, id) ==
      if id in ids && Tried(c.table[id].info) && accepts(id) then 1 else 0
  {
    if ids != [] {
      var init, last := ids[..|ids| - 1], ids[|ids| - 1];
      RespawnAllSends(c, init, lord, accepts, id);
      LastOfPass(c, ids, lord, accepts);
      SendsOfSnoc(RespawnAll(c, init, lord, accepts).sent, 0, id, Send(lord, RespawnRequest(c.table[last].info)));
    }
  }

  /** A pass without success leaves every candidate final. */
  lemma {:induction false} NoSuccessMeansFinal(c: Core, ids: seq<ProcId>, lord: LordId, accepts: ProcId -> bool)
    requires AllIn(ids, c.table) && Distinct(ids) && RespawnAll(c, ids, lord, accepts).ok == 0
    ensures forall id | id in ids :: Final(RespawnEntry(c.table[id], lord, accepts(id)).info.state)
    ensures RespawnAll(c, ids, lord, accepts).sent == []
  {
    if ids != [] {
      NoSuccessMeansFinal(c, ids[..|ids| - 1], lord, accepts);
      LastOfPass(c, ids, lord, accepts);
    }
  }

  lemma FailedPass(c: Core, ids: seq<ProcId>, lord: LordId, accepts: ProcId -> bool)
    requires AllIn(ids, c.table) && Distinct(ids) && RespawnAll(c, ids, lord, accepts).ok == 0
    ensures var p := RespawnAll(c, ids, lord, accepts);
      p.sent == [] && forall id | id in ids :: Final(p.core.table[id].info.state)
  {
    NoSuccessMeansFinal(c, ids, lord, accepts);
    RespawnAllEntries(c, ids, lord, accepts);
  }

  /** A pass over final processes changes and sends nothing, and counts as a success. */
  lemma {:induction false} PassOverFinal(c: Core, ids: seq<ProcId>, lord: LordId, accepts: ProcId -> bool)
    requires AllIn(ids, c.table) && forall id | id in ids :: Final(c.table[id].info.state)
    ensures RespawnAll(c, ids, lord, accepts) == Sweep(c, [], |ids|)
  {
    if ids != [] { PassOverFinal(c, ids[..|ids| - 1], lord, accepts); }
  }

  /** The first attempt from i on that finds a lord, or MAX_ATTEMPTS. */
  function FirstFound(w: World, i: nat): (f: nat)
    ensures i <= MAX_ATTEMPTS ==> i <= f <= MAX_ATTEMPTS
    ensures f < MAX_ATTEMPTS ==> w.picks(f).Some?
    ensures forall k | i <= k < f && k < MAX_ATTEMPTS :: w.picks(k).None?
    decreases MAX_ATTEMPTS - i
  {
    if i >= MAX_ATTEMPTS then MAX_ATTEMPTS
    else if w.picks(i).Some? then i else FirstFound(w, i + 1)
  }

  lemma {:induction false} AttemptsOverFinal(c: Core, ids: seq<ProcId>, w: World, i: nat)
    requires AllIn(ids, c.table) && ids != [] && i <= MAX_ATTEMPTS
    requires forall id | id in ids :: Final(c.table[id].info.state)
    ensures var o := Attempts(c, ids, w, i);
      o.core == c && o.sent == [] && o.armed == {} && i <= o.attempts <= MAX_ATTEMPTS
    decreases MAX_ATTEMPTS - i
  {
    ArmedNone(w.at(i));
    if i < MAX_ATTEMPTS {
      match w.picks(i)
      case None => AttemptsOverFinal(c, ids, w, i + 1);
      case Some(lord) => PassOverFinal(c, ids, lord, AcceptsAt(w, i));
    }
  }

  /** The attempt that finds a lord decides: if it has no success the rest do nothing. */
  lemma FoundLordDecides(c: Core, ids: seq<ProcId>, w: World, i: nat)
    requires AllIn(ids, c.table) && Distinct(ids) && ids != [] && i < MAX_ATTEMPTS && w.picks(i).Some?
    ensures var o, p := Attempts(c, ids, w, i), RespawnAll(c, ids, w.picks(i).value, AcceptsAt(w, i));
      o.core == p.core && o.sent == p.sent && o.armed == Armed(p.sent, w.at(i)) && i < o.attempts <= MAX_ATTEMPTS
  {
    hide RespawnAll, Armed;
    var lord, accepts := w.picks(i).value, AcceptsAt(w, i);
    var p := RespawnAll(c, ids, lord, accepts);
    if p.ok == 0 {
      FailedPass(c, ids, lord, accepts);
      AttemptsOverFinal(p.core, ids, w, i + 1);
    }
  }

  /** All attempts together do what the first one that finds a lord does. */
  lemma {:induction false} OnlyFirstFoundCounts(c: Core, ids: seq<ProcId>, w: World, i: nat)
    requires AllIn(ids, c.table) && Distinct(ids) && ids != [] && i <= MAX_ATTEMPTS
    ensures var o, f := Attempts(c, ids, w, i), FirstFound(w, i);
      && (if f == MAX_ATTEMPTS then o.attempts == MAX_ATTEMPTS else f < o.attempts <= MAX_ATTEMPTS)
      && if f == MAX_ATTEMPTS then o.core == c && o.sent == [] && o.armed == {}
         else
           var p := RespawnAll(c, ids, w.picks(f).value, AcceptsAt(w, f));
           o.core == p.core && o.sent == p.sent && o.armed == Armed(p.sent, w.at(f))
    decreases MAX_ATTEMPTS - i
  {
    hide RespawnAll, Armed;
    if i < MAX_ATTEMPTS {
      if w.picks(i).Some? { FoundLordDecides(c, ids, w, i); } else { OnlyFirstFoundCounts(c, ids, w, i + 1); }
    }
  }

  lemma {:induction false} GiveUpAllEntries(c: Core, ids: seq<ProcId>)
    requires Distinct(ids)
    ensures var t := GiveUpAll(c, ids).table;
      forall id | id in t :: t[id] ==
        if id in ids && c.table[id].info.state == Restarting then FinalizeEntry(c.table[id], NO_LORD_LEFT)
        else c.table[id]
  {
    if ids != [] {
      GiveUpAllEntries(c, ids[..|ids| - 1]);
      assert ids == ids[..|ids| - 1] + [ids[|ids| - 1]];
    }
  }

  lemma RecoveredIs(e: Entry, lord: LordId, accepted: bool)
    ensures var e1 := RespawnEntry(e, lord, accepted);
      RecoveredEntry(e, lord, accepted) == if e1.info.state == Restarting then FinalizeEntry(e1, NO_LORD_LEFT) else e1
  {
  }

  /** A process of the dead lord ends STOPPED in every case: one whose restarts are spent stays
      where it was; any other is moved and counted, and given up although its request went out. */
  lemma RecoveredTells(e: Entry, lord: LordId, accepted: bool)
    requires e.info.state in {Running, Ready, Paused, Migrating}
    ensures
      var spent := e.info.program.maxRestarts >= 0 && e.info.restarts >= e.info.program.maxRestarts;
      && (Tried(e.info) <==> !spent)
      && RecoveredEntry(e, lord, accepted).info ==
           if spent then e.info.(state := Stopped, exitCode := -4, exitSignal := 0)
           else e.info.(state := Stopped, lord := lord, restarts := e.info.restarts + 1,
                        exitCode := if accepted then -5 else -2, exitSignal := 0)
  {
  }

  lemma RecoveryEntrywise(c: Core, ids: seq<ProcId>, w: World, id: ProcId)
    requires AllIn(ids, c.table) && Distinct(ids) && id in c.table
    requires forall k | k in c.table :: c.table[k].info.id == k
    requires forall k | k in ids :: c.table[k].info.state != Restarting
    ensures var o, f := Recover(c, ids, w), FirstFound(w, 0);
      && o.attempts <= MAX_ATTEMPTS
      && o.core.table.Keys == c.table.Keys
      && (f == MAX_ATTEMPTS ==> o.core == c && o.sent == [] && o.armed == {})
      && (f < MAX_ATTEMPTS ==> o.armed == Armed(o.sent, w.at(f)))
      && (f < MAX_ATTEMPTS && id !in ids ==> o.core.table[id] == c.table[id] && SendsOf(o.sent, 0, id) == 0)
      && (f < MAX_ATTEMPTS && id in ids ==>
            && o.core.table[id] == RecoveredEntry(c.table[id], w.picks(f).value, w.accepts(f, id))
            && SendsOf(o.sent, 0, id) == if Tried(c.table[id].info) && w.accepts(f, id) then 1 else 0)
  {
    ArmedNone(w.at(FirstFound(w, 0)));
    hide RespawnEntry, RecoveredEntry, FinalizeEntry, Armed, Tried;
    if ids != [] {
      var f := FirstFound(w, 0);
      OnlyFirstFoundCounts(c, ids, w, 0);
      var o := Attempts(c, ids, w, 0);
      GiveUpAllEntries(o.core, ids);
      if f < MAX_ATTEMPTS {
        var accepts := AcceptsAt(w, f);
        RespawnAllEntries(c, ids, w.picks(f).value, accepts);
        RespawnAllSends(c, ids, w.picks(f).value, accepts, id);
        RecoveredIs(c.table[id], w.picks(f).value, w.accepts(f, id));
      } else {
        GiveUpNobody(c, ids);
      }
    }
  }

  /** A recovery without interleaved lord messages, from start to end: it makes at most ten
      attempts; if none finds a lord nothing changes; otherwise every process of the dead lord
      that it takes up ends STOPPED, with one more restart exactly when it had one left, and
      one request sent exactly when that was taken too; all other processes are as they were. */
  lemma RecoveryOutcome(c: Core, ids: seq<ProcId>, w: World, dead: LordId, id: ProcId)
    requires TakesUp(ids, c.table, dead) && id in c.table
    requires forall k | k in c.table :: c.table[k].info.id == k
    ensures AllIn(ids, c.table)
    ensures var o, f := Recover(c, ids, w), FirstFound(w, 0);
      && o.attempts <= 10
      && o.core.table.Keys == c.table.Keys
      && (f == 10 ==> o.core == c && o.sent == [] && o.armed == {})
      && (f < 10 ==> o.armed == Armed(o.sent, w.at(f)))
      && (f < 10 ==>
            var e, e' := c.table[id], o.core.table[id];
            var spent := e.info.program.maxRestarts >= 0 && e.info.restarts >= e.info.program.maxRestarts;
            if e.info.lord == dead && e.info.state in {Running, Ready, Paused, Migrating} then
              && SendsOf(o.sent, 0, id) == (if !spent && w.accepts(f, id) then 1 else 0)
              && e'.info ==
                   if spent then e.info.(state := Stopped, exitCode := -4, exitSignal := 0)
                   else e.info.(state := Stopped, lord := w.picks(f).value, restarts := e.info.restarts + 1,
                                exitCode := if w.accepts(f, id) then -5 else -2, exitSignal := 0)
            else
              e' == e && SendsOf(o.sent, 0, id) == 0)
  {
    var f := FirstFound(w, 0);
    RecoveryEntrywise(c, ids, w, id);
    if f < MAX_ATTEMPTS && id in ids { RecoveredTells(c.table[id], w.picks(f).value, w.accepts(f, id)); }
    hide Recover, RecoveredEntry, Tried, FirstFound, Armed, SendsOf;
  }

  lemma {:induction false} GiveUpNobody(c: Core, ids: seq<ProcId>)
    requires forall k | k in ids && k in c.table :: c.table[k].info.state != Restarting
    ensures GiveUpAll(c, ids) == c
  {
    if ids != [] { GiveUpNobody(c, ids[..|ids| - 1]); }
  }

  /** A respawn that the new lord accepted is reported as having found none. */
  lemma AcceptedRespawnIsGivenUp(e: Entry, lord: LordId)
    requires Tried(e.info)
    ensures var e' := RecoveredEntry(e, lord, true);
      e'.info.state == Stopped && e'.info.exitCode == -5 && e'.info.lord == lord
      && e'.info.restarts == e.info.restarts + 1 && e'.hist == e.hist + [Restarting, Stopped]
  {
  }
}
