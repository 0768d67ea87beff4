/** A whole recovery, as the program's loops run it, is a run of the transition system, so
    every theorem about reachable states holds after it. */
module Composition {
  import opened Process
  import opened Clock
  import opened Sequences
  import opened Journal
  import opened Lifecycle
  import opened Protocol
  import opened Recovery
  import AckWindow
  import Theorems

  /** What recoveries leave alone. */
  predicate SameLinks(s: Sys, s': Sys) {
    && s'.owner == s.owner && s'.connected == s.connected
    && s'.started == s.started && s'.live == s.live && s'.up == s.up
  }

  /** A run leads from s to s', queueing `sent` and arming `armed` on the way. */
  ghost predicate Leads(s: Sys, s': Sys, sent: seq<Send>, armed: set<Timer>) {
    && Reachable(s') && SameLinks(s, s')
    && s'.sent == s.sent + sent && s'.timers == s.timers + armed
  }

  lemma LeadsOn(s: Sys, t: Sys, s': Sys, a: seq<Send>, x: set<Timer>, b: seq<Send>, y: set<Timer>)
    requires Leads(s, t, a, x) && Leads(t, s', b, y)
    ensures Leads(s, s', a + b, x + y)
  {
    assert (s.sent + a) + b == s.sent + (a + b);
    assert (s.timers + x) + y == s.timers + (x + y);
  }

  lemma LeadsNowhere(s: Sys)
    requires Reachable(s)
    ensures Leads(s, s, [], {})
  {
    assert s.sent + [] == s.sent;
  }

  lemma RespawningIs(s: Sys, id: ProcId, lord: LordId, c: Core, r: Respawned)
    requires (r.AlreadyFinal? ==> c == s.core) && (r.Sent? ==> r.req.processId == id)
    ensures var s' := Respawning(s, id, lord, c, r);
      && SameLinks(s, s') && s'.now == s.now && s'.core == c && s'.sent == s.sent + Queued(lord, r)
      && s'.timers == s.timers + Armed(Queued(lord, r), s.now)
  {
    if r.Sent? { ArmedOne(Send(lord, r.req), s.now); }
  }

  lemma RespawnLeads(s: Sys, id: ProcId, lord: LordId, accepted: bool) returns (s': Sys)
    requires Reachable(s) && id in s.core.table && (accepted ==> lord in s.connected)
    ensures var (c, r) := Respawn(s.core, id, lord, accepted);
      Leads(s, s', Queued(lord, r), Armed(Queued(lord, r), s.now)) && s'.core == c && s'.now == s.now
  {
    var (c, r) := Respawn(s.core, id, lord, accepted);
    RespawnTouchesOne(s.core, id, lord, accepted);
    Theorems.EntriesHold(s);
    RespawningIs(s, id, lord, c, r);
    s' := Respawning(s, id, lord, c, r);
    Theorems.StepIsReachable(s, RespawnOn(id, lord, accepted));
  }

  lemma PassLeads(s: Sys, ids: seq<ProcId>, lord: LordId, accepts: ProcId -> bool) returns (s': Sys)
    requires Reachable(s) && AllIn(ids, s.core.table)
    requires lord in s.connected || forall id | id in ids :: !accepts(id)
    ensures var p := RespawnAll(s.core, ids, lord, accepts);
      Leads(s, s', p.sent, Armed(p.sent, s.now)) && s'.core == p.core && s'.now == s.now
  {
    if ids == [] {
      LeadsNowhere(s);
      ArmedNone(s.now);
      s' := s;
    } else {
      hide Reachable, Respawn, Armed;
      var id := ids[|ids| - 1];
      var t := PassLeads(s, ids[..|ids| - 1], lord, accepts);
      s' := RespawnLeads(t, id, lord, accepts(id));
      var a := RespawnAll(s.core, ids[..|ids| - 1], lord, accepts).sent;
      var b := Queued(lord, Respawn(t.core, id, lord, accepts(id)).1);
      ArmedAppend(a, b, s.now);
      LeadsOn(s, t, s', a, Armed(a, s.now), b, Armed(b, s.now));
    }
  }

  lemma GiveUpAllLeads(s: Sys, ids: seq<ProcId>) returns (s': Sys)
    requires Reachable(s) && AllIn(ids, s.core.table)
    ensures Leads(s, s', [], {}) && s'.core == GiveUpAll(s.core, ids)
  {
    LeadsNowhere(s);
    if ids == [] {
      s' := s;
    } else {
      var id := ids[|ids| - 1];
      var t := GiveUpAllLeads(s, ids[..|ids| - 1]);
      Theorems.StepIsReachable(t, CleanUp(id));
      s' := Next(t, CleanUp(id));
    }
  }

  // ---------------------------------------------------------------------------
  // What happens while a recovery sleeps
  // ---------------------------------------------------------------------------

  /** Only sessions, the clock and the timers differ. */
  predicate Slept(s: Sys, s': Sys) {
    && s'.core == s.core && s'.sent == s.sent
    && s'.started == s.started && s'.live == s.live && s'.up == s.up
  }

  lemma CloseAll(s: Sys, gone: set<LordId>) returns (s': Sys)
    requires Reachable(s) && gone <= s.connected
    ensures Reachable(s') && s' == s.(connected := s.connected - gone)
    decreases gone
  {
    s' := s;
    if gone != {} {
      var k :| k in gone;
      var t := CloseAll(s, gone - {k});
      Theorems.StepIsReachable(t, Disconnect(k));
      s' := Next(t, Disconnect(k));
      assert s.connected - (gone - {k}) - {k} == s.connected - gone;
    }
  }

  /** Sessions open under ids never used before, for any agents. */
  lemma OpenAll(s: Sys, more: set<LordId>, agent: Agent) returns (s': Sys)
    requires Reachable(s) && "" !in more && more !! s.owner.Keys
    ensures Reachable(s') && Slept(s, s') && s'.now == s.now && s'.timers == s.timers
    ensures s'.connected == s.connected + more && s'.owner.Keys == s.owner.Keys + more
    decreases more
  {
    s' := s;
    if more != {} {
      var k :| k in more;
      var t := OpenAll(s, more - {k}, agent);
      Theorems.StepIsReachable(t, Connect(k, agent));
      s' := Next(t, Connect(k, agent));
      assert more == (more - {k}) + {k};
    }
  }

  lemma ChangeSessions(s: Sys, open: set<LordId>, agent: Agent) returns (s': Sys)
    requires Reachable(s) && "" !in open - s.connected && (open - s.connected) !! s.owner.Keys
    ensures Reachable(s') && Slept(s, s') && s'.now == s.now && s'.timers == s.timers
    ensures s'.connected == open && s'.owner.Keys == s.owner.Keys + (open - s.connected)
  {
    var t := CloseAll(s, s.connected - open);
    s' := OpenAll(t, open - s.connected, agent);
    assert s.connected - (s.connected - open) + (open - s.connected) == open;
  }

  function DueFrom(timers: set<Timer>, until: Time): set<Timer> {
    set t | t in timers && t.due >= until
  }

  lemma FireIdle(s: Sys, e: Timer) returns (s': Sys)
    requires Reachable(s) && e in s.timers && s.now <= e.due && (forall k | k in s.timers :: e.due <= k.due)
    requires !AckWindow.IsRestarting(s, e.id)
    ensures Reachable(s') && s' == s.(now := e.due, timers := s.timers - {e})
  {
    assert GiveUp(s.core, e.id, ACK_TIMED_OUT) == s.core;
    var t := Next(s, Pass(e.due));
    Theorems.StepIsReachable(s, Pass(e.due));
    Theorems.StepIsReachable(t, TimerFires(e));
    hide Reachable;
    s' := Next(t, TimerFires(e));
  }

  /** Time passes; timers whose process is not RESTARTING fire to no effect. */
  lemma WaitUntil(s: Sys, until: Time) returns (s': Sys)
    requires Reachable(s) && s.now <= until
    requires forall t | t in s.timers && t.due < until :: !AckWindow.IsRestarting(s, t.id)
    ensures Reachable(s') && s' == s.(now := until, timers := DueFrom(s.timers, until))
    decreases s.timers
  {
    if k :| k in s.timers && k.due < until {
      var e := AckWindow.EarliestOf(s.timers);
      Theorems.TimersHold(s);
      var t := FireIdle(s, e);
      hide Reachable;
      s' := WaitUntil(t, until);
      assert DueFrom(t.timers, until) == DueFrom(s.timers, until);
    } else {
      Theorems.StepIsReachable(s, Pass(until));
      s' := Next(s, Pass(until));
      assert DueFrom(s.timers, until) == s.timers;
    }
  }

  // ---------------------------------------------------------------------------
  // A whole recovery
  // ---------------------------------------------------------------------------

  lemma SameFirstFound(w: World, open: set<LordId>, i: nat)
    ensures FirstFound(Through(w, open), i) == FirstFound(w, i)
    decreases MAX_ATTEMPTS - i
  {
    if i < MAX_ATTEMPTS && w.picks(i).None? { SameFirstFound(w, open, i + 1); }
  }

  /** Sessions that are open at an attempt and were not at an earlier one have ids that were
      never used before. */
  ghost predicate FreshSessions(w: World, s: Sys) {
    forall i, j | 0 <= i <= j < MAX_ATTEMPTS :: FreshAt(w, s, i, j)
  }

  ghost predicate FreshAt(w: World, s: Sys, i: nat, j: nat) {
    forall k | k in OpenAt(w, s.connected, j) :: k in OpenAt(w, s.connected, i) || (k != "" && k !in s.owner)
  }

  /** Until the attempt that finds a lord, only timers of processes that are not RESTARTING
      are due. */
  ghost predicate Undisturbed(w: World, s: Sys, until: Time) {
    s.now <= until && forall t | t in s.timers && t.due < until :: !AckWindow.IsRestarting(s, t.id)
  }

  /** Where a recovery leads from s: table, log, requests and timers are what its loops
      compute, and the sessions those of its last attempt. */
  ghost predicate RecoversTo(s: Sys, s': Sys, ids: seq<ProcId>, w: World)
    requires AllIn(ids, s.core.table)
  {
    var e, f := Recover(s.core, ids, Through(w, s.connected)), FirstFound(w, 0);
    && Reachable(s') && s'.core == e.core && s'.sent == s.sent + e.sent
    && s'.timers == (if ids == [] || f == MAX_ATTEMPTS then s.timers else DueFrom(s.timers, w.at(f))) + e.armed
    && s'.connected == OpenAfter(w, s.connected, e.attempts)
    && s'.started == s.started && s'.live == s.live && s'.up == s.up
  }

  /** The attempt that finds a lord, and the clean-up. */
  lemma FoundLeads(s: Sys, ids: seq<ProcId>, w: World, agent: Agent) returns (s': Sys)
    requires Reachable(s) && AllIn(ids, s.core.table) && Distinct(ids) && ids != []
    requires FirstFound(w, 0) < MAX_ATTEMPTS && FreshSessions(w, s) && Undisturbed(w, s, w.at(FirstFound(w, 0)))
    ensures Reachable(s')
    ensures var e, f := Recover(s.core, ids, Through(w, s.connected)), FirstFound(w, 0);
      && s'.core == e.core && s'.sent == s.sent + e.sent
      && s'.timers == DueFrom(s.timers, w.at(f)) + e.armed
      && s'.connected == OpenAt(w, s.connected, f)
      && s'.owner.Keys == s.owner.Keys + (OpenAt(w, s.connected, f) - s.connected)
      && s'.started == s.started && s'.live == s.live && s'.up == s.up
  {
    var f, v := FirstFound(w, 0), Through(w, s.connected);
    SameFirstFound(w, s.connected, 0);
    OnlyFirstFoundCounts(s.core, ids, v, 0);
    assert FreshAt(w, s, 0, f);
    var t1 := ChangeSessions(s, OpenAt(w, s.connected, f), agent);
    var t2 := WaitUntil(t1, w.at(f));
    var p := RespawnAll(s.core, ids, w.picks(f).value, AcceptsAt(v, f));
    var t3 := PassLeads(t2, ids, w.picks(f).value, AcceptsAt(v, f));
    hide *;
    s' := GiveUpAllLeads(t3, ids);
    LeadsOn(t2, t3, s', p.sent, Armed(p.sent, w.at(f)), [], {});
    RecoverEnds(s.core, ids, v);
    LeadsIs(t2, s', p.sent + [], Armed(p.sent, w.at(f)) + {});
  }

  lemma LeadsIs(s: Sys, s': Sys, sent: seq<Send>, armed: set<Timer>)
    requires Leads(s, s', sent, armed)
    ensures Reachable(s') && s'.sent == s.sent + sent && s'.timers == s.timers + armed
    ensures s'.connected == s.connected && s'.owner == s.owner
    ensures s'.started == s.started && s'.live == s.live && s'.up == s.up
  {
    hide Reachable;
  }

  lemma RecoverEnds(c: Core, ids: seq<ProcId>, v: World)
    requires AllIn(ids, c.table) && ids != []
    ensures var o := Attempts(c, ids, v, 0);
      Recover(c, ids, v) == o.(core := GiveUpAll(o.core, ids))
  {
  }

  lemma AttemptsBound(s: Sys, ids: seq<ProcId>, w: World)
    requires AllIn(ids, s.core.table) && Distinct(ids) && ids != [] && FreshSessions(w, s)
    ensures var e, f := Recover(s.core, ids, Through(w, s.connected)), FirstFound(w, 0);
      && 0 < e.attempts <= MAX_ATTEMPTS
      && FreshAt(w, s, if f < MAX_ATTEMPTS then f else 0, e.attempts - 1)
  {
    var v := Through(w, s.connected);
    SameFirstFound(w, s.connected, 0);
    OnlyFirstFoundCounts(s.core, ids, v, 0);
    RecoverEnds(s.core, ids, v);
    hide Recover, Attempts, FirstFound, FreshAt;
  }

  /** No attempt finds a lord: nothing changes. */
  lemma NobodyFound(s: Sys, ids: seq<ProcId>, w: World) returns (s': Sys)
    requires Reachable(s) && AllIn(ids, s.core.table) && Distinct(ids) && ids != []
    requires FirstFound(w, 0) == MAX_ATTEMPTS
    ensures Reachable(s')
    ensures var e := Recover(s.core, ids, Through(w, s.connected));
      && s'.core == e.core && s'.sent == s.sent + e.sent && s'.timers == s.timers + e.armed
      && s'.connected == s.connected && s'.owner == s.owner
      && s'.started == s.started && s'.live == s.live && s'.up == s.up
  {
    var v := Through(w, s.connected);
    SameFirstFound(w, s.connected, 0);
    OnlyFirstFoundCounts(s.core, ids, v, 0);
    RecoverEnds(s.core, ids, v);
    s' := GiveUpAllLeads(s, ids);
    LeadsIs(s, s', [], {});
    hide *;
  }

  /** From any reachable state a recovery is a run, with lords that connect and disconnect and
      timers that fire while it sleeps. Table, log, requests and timers come to what its loops
      compute; what its sends meet is any oracle, behind the sessions open at each attempt. */
  lemma RecoveryIsRun(s: Sys, ids: seq<ProcId>, w: World, agent: Agent) returns (s': Sys)
    requires Reachable(s) && AllIn(ids, s.core.table) && Distinct(ids) && FreshSessions(w, s)
    requires FirstFound(w, 0) < MAX_ATTEMPTS ==> Undisturbed(w, s, w.at(FirstFound(w, 0)))
    ensures RecoversTo(s, s', ids, w)
  {
    if ids == [] {
      RecoverNobody(s.core, Through(w, s.connected));
      s' := s;
      assert s.sent + [] == s.sent;
    } else {
      AttemptsBound(s, ids, w);
      hide Recover, Through, FirstFound, Reachable, OpenAt, FreshSessions, Undisturbed;
      var e, f := Recover(s.core, ids, Through(w, s.connected)), FirstFound(w, 0);
      var t: Sys;
      if f < MAX_ATTEMPTS { t := FoundLeads(s, ids, w, agent); } else { t := NobodyFound(s, ids, w); }
      OpenAtFirst(w, s.connected);
      s' := ChangeSessions(t, OpenAt(w, s.connected, e.attempts - 1), agent);
    }
  }

  lemma OpenAtFirst(w: World, open: set<LordId>)
    ensures OpenAt(w, open, 0) == open
  {
  }
}
