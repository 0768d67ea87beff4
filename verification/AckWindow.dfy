/** How long a respawned process is given to report. Its timer runs for thirty seconds, but a
    respawn does not disarm the timers of earlier ones, and any of them gives it up. */
module AckWindow {
  import opened Process
  import opened Clock
  import opened Journal
  import opened Lifecycle
  import opened Protocol
  import opened TableInvariants
  import Theorems

  predicate ByTheClock(a: Action) { a.Pass? || a.TimerFires? }

  /** Steps in which only time passes and timers fire. */
  ghost predicate Path(s: Sys, run: seq<Action>)
    decreases |run|
  {
    run == [] || (ByTheClock(run[0]) && Enabled(s, run[0]) && Path(Next(s, run[0]), run[1..]))
  }

  ghost function End(s: Sys, run: seq<Action>): Sys
    requires Path(s, run)
    decreases |run|
  {
    if run == [] then s else End(Next(s, run[0]), run[1..])
  }

  ghost predicate IsRestarting(s: Sys, id: ProcId) {
    id in s.core.table && s.core.table[id].info.state == Restarting
  }

  ghost predicate TimedOut(s: Sys, id: ProcId) {
    && id in s.core.table && s.core.table[id].info.state == Stopped
    && s.core.table[id].info.exitCode == ACK_TIMED_OUT
  }

  /** No timer of this process is due before `due`. */
  ghost predicate Undisturbed(s: Sys, id: ProcId, due: Time) {
    forall k | k in s.timers && k.id == id :: k.due >= due
  }

  lemma {:induction false} TimeGrows(s: Sys, run: seq<Action>)
    requires Path(s, run)
    ensures s.now <= End(s, run).now
    decreases |run|
  {
    if run != [] { TimeGrows(Next(s, run[0]), run[1..]); }
  }

  /** Without an earlier timer nothing gives the process up before `due`. */
  lemma {:induction false} StaysRestarting(s: Sys, id: ProcId, due: Time, run: seq<Action>)
    requires IsRestarting(s, id) && Undisturbed(s, id, due)
    requires Path(s, run) && End(s, run).now < due
    ensures IsRestarting(End(s, run), id)
    decreases |run|
  {
    if run != [] {
      TimeGrows(s, run);
      StaysRestarting(Next(s, run[0]), id, due, run[1..]);
    }
  }

  lemma {:induction false} EarliestOf(timers: set<Timer>) returns (e: Timer)
    requires timers != {}
    ensures e in timers && forall k | k in timers :: e.due <= k.due
    decreases timers
  {
    e :| e in timers;
    if timers != {e} {
      var f := EarliestOf(timers - {e});
      if f.due < e.due { e := f; }
    }
  }

  /** Let time pass to a timer that is due first, and fire it. */
  lemma FireFirst(s: Sys, e: Timer) returns (s': Sys)
    requires e in s.timers && s.now <= e.due && forall k | k in s.timers :: e.due <= k.due
    ensures Path(s, [Pass(e.due), TimerFires(e)]) && End(s, [Pass(e.due), TimerFires(e)]) == s'
    ensures s' == s.(now := e.due, timers := s.timers - {e}, core := GiveUp(s.core, e.id, ACK_TIMED_OUT))
  {
    var s1 := Next(s, Pass(e.due));
    s' := Next(s1, TimerFires(e));
    var run, rest := [Pass(e.due), TimerFires(e)], [TimerFires(e)];
    assert run[1..] == rest && rest[1..] == [];
    assert Path(s', []) && End(s', []) == s';
    assert Path(s1, rest) && End(s1, rest) == End(s', []);
  }

  lemma {:induction false} PathsCompose(s: Sys, run: seq<Action>, more: seq<Action>)
    requires Path(s, run) && Path(End(s, run), more)
    ensures Path(s, run + more) && End(s, run + more) == End(End(s, run), more)
    decreases |run|
  {
    if run == [] {
      assert run + more == more;
    } else {
      assert (run + more)[0] == run[0] && (run + more)[1..] == run[1..] + more;
      PathsCompose(Next(s, run[0]), run[1..], more);
    }
  }

  lemma Fired(c: Core, e: Timer, id: ProcId)
    requires id in c.table && c.table[id].info.state == Restarting
    ensures var t := GiveUp(c, e.id, ACK_TIMED_OUT).table;
      id in t && if e.id == id then t[id].info.state == Stopped && t[id].info.exitCode == ACK_TIMED_OUT
                 else t[id] == c.table[id]
  {
  }

  /** Any armed timer of the process can give it up as soon as it is due. */
  lemma {:induction false} GivenUpBy(s: Sys, id: ProcId, k: Timer) returns (run: seq<Action>)
    requires IsRestarting(s, id) && k in s.timers && k.id == id
    requires forall t | t in s.timers :: s.now <= t.due
    ensures Path(s, run) && End(s, run).now <= k.due && TimedOut(End(s, run), id)
    decreases s.timers
  {
    var e := EarliestOf(s.timers);
    var s' := FireFirst(s, e);
    run := [Pass(e.due), TimerFires(e)];
    Fired(s.core, e, id);
    if e.id != id {
      var more := GivenUpBy(s', id, k);
      PathsCompose(s, run, more);
      run := run + more;
    }
  }

  /** In any reachable state, a RESTARTING process whose latest request was accepted keeps
      its thirty seconds, whatever the timers do, if and only if no timer of an earlier
      respawn of it is still armed. */
  lemma AckWindowIsFull(s: Sys, id: ProcId)
    requires Reachable(s) && IsRestarting(s, id) && id in s.lastSend
    ensures
      var due := s.lastSend[id] + ACK_TIMEOUT;
      Undisturbed(s, id, due) <==>
        forall run :: Path(s, run) ==> End(s, run).now >= due || IsRestarting(End(s, run), id)
  {
    var due := s.lastSend[id] + ACK_TIMEOUT;
    if Undisturbed(s, id, due) {
      forall run | Path(s, run) ensures End(s, run).now >= due || IsRestarting(End(s, run), id) {
        if End(s, run).now < due { StaysRestarting(s, id, due, run); }
      }
    } else {
      var k :| k in s.timers && k.id == id && k.due < due;
      Theorems.TimersHold(s);
      var run := GivenUpBy(s, id, k);
      assert Path(s, run) && End(s, run).now < due && !IsRestarting(End(s, run), id);
    }
  }
}
