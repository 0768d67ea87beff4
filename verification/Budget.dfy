/** Respawns of one entry that overlap: the checks, the RESTARTING mark, the increment of
    the restart count and the send are separate steps, and anything else may change the
    entry's state in between. */
module Budget {
  import opened Process
  import opened Journal
  import Lifecycle

  type Thread = nat

  /** Where a respawn in progress stands. */
  datatype Phase = AtStateCheck | AtBudgetCheck | AtMark | AtIncrement | AtSend

  /** The entry's state and restart count, its limit, the respawns in progress, and how many
      of their requests were accepted. */
  datatype Race = Race(state: PState, restarts: nat, max: int, active: map<Thread, Phase>, sent: nat)

  datatype Act =
    | Begin(t: Thread)
    | CheckState(t: Thread)
    | CheckBudget(t: Thread)
    | Mark(t: Thread)
    | Increment(t: Thread)
    | SendIt(t: Thread, accepted: bool)
    | Outside(state: PState)        // a lord message, a timer, recovery's clean-up

  predicate At(r: Race, t: Thread, p: Phase) { t in r.active && r.active[t] == p }

  /** At most k respawns are in progress at once. */
  predicate Enabled(k: nat, r: Race, a: Act) {
    match a
    case Begin(t) => t !in r.active && |r.active| < k
    case CheckState(t) => At(r, t, AtStateCheck)
    case CheckBudget(t) => At(r, t, AtBudgetCheck)
    case Mark(t) => At(r, t, AtMark)
    case Increment(t) => At(r, t, AtIncrement)
    case SendIt(t, _) => At(r, t, AtSend)
    case Outside(_) => true
  }

  function Next(r: Race, a: Act): Race {
    match a
    case Begin(t) => r.(active := r.active[t := AtStateCheck])
    case CheckState(t) =>
      if Final(r.state) then r.(active := r.active - {t}) else r.(active := r.active[t := AtBudgetCheck])
    case CheckBudget(t) =>
      if r.max >= 0 && r.restarts >= r.max then r.(state := Stopped, active := r.active - {t})
      else r.(active := r.active[t := AtMark])
    case Mark(t) => r.(state := Restarting, active := r.active[t := AtIncrement])
    case Increment(t) => r.(restarts := r.restarts + 1, active := r.active[t := AtSend])
    case SendIt(t, accepted) =>
      r.(state := if accepted then r.state else Stopped, active := r.active - {t},
         sent := if accepted then r.sent + 1 else r.sent)
    case Outside(st) => r.(state := st)
  }

  ghost predicate IsRun(k: nat, r: Race, run: seq<Act>)
    decreases run
  {
    run == [] || (Enabled(k, r, run[0]) && IsRun(k, Next(r, run[0]), run[1..]))
  }

  function After(r: Race, run: seq<Act>): Race
    decreases run
  {
    if run == [] then r else After(Next(r, run[0]), run[1..])
  }

  /** Respawns that have passed the budget check and not yet counted themselves. */
  function Passed(r: Race): set<Thread> {
    set t | t in r.active && r.active[t] in {AtMark, AtIncrement}
  }

  /** Those that have counted themselves and not yet sent. */
  function Counted(r: Race): set<Thread> {
    set t | t in r.active && r.active[t] == AtSend
  }

  ghost predicate WithinBudget(k: nat, r: Race) {
    && r.sent + |Counted(r)| <= r.restarts
    && |r.active| <= k
    && Passed(r) <= r.active.Keys
    && (r.max == 0 ==> r.restarts == 0 && Passed(r) == {})
    && (r.max >= 0 ==> r.restarts < r.max || r.restarts + |Passed(r)| <= r.max + k - 1)
  }

  lemma SubsetCard<T>(a: set<T>, b: set<T>)
    requires a <= b
    ensures |a| <= |b|
  {
    assert b == a + (b - a);
  }

  lemma ActiveAfter(k: nat, r: Race, a: Act)
    requires |r.active| <= k && Enabled(k, r, a)
    ensures |Next(r, a).active| <= k
  {
    var r' := Next(r, a);
    match a
    case Begin(t) => assert r'.active.Keys == r.active.Keys + {t};
    case Outside(_) =>
    case _ =>
      assert r'.active.Keys <= r.active.Keys;
      SubsetCard(r'.active.Keys, r.active.Keys);
  }

  predicate Passes(r: Race, a: Act) {
    a.CheckBudget? && (r.max >= 0 ==> r.restarts < r.max)
  }

  lemma PassedAfter(k: nat, r: Race, a: Act)
    requires Enabled(k, r, a)
    ensures Passed(Next(r, a)) ==
      Passed(r) + (if Passes(r, a) then {a.t} else {}) - if a.Increment? then {a.t} else {}
    ensures a.Increment? ==> a.t in Passed(r)
  {
    match a
    case Outside(_) =>
    case Begin(_) =>
    case _ => assert a.t in r.active;
  }

  lemma CountedAfter(k: nat, r: Race, a: Act)
    requires Enabled(k, r, a)
    ensures Counted(Next(r, a)) ==
      Counted(r) + (if a.Increment? then {a.t} else {}) - if a.SendIt? then {a.t} else {}
    ensures a.SendIt? ==> a.t in Counted(r)
    ensures a.Increment? ==> a.t !in Counted(r)
  {
  }

  lemma StepWithinBudget(k: nat, r: Race, a: Act)
    requires WithinBudget(k, r) && Enabled(k, r, a)
    ensures WithinBudget(k, Next(r, a))
  {
    ActiveAfter(k, r, a);
    PassedAfter(k, r, a);
    CountedAfter(k, r, a);
    SubsetCard(Passed(r), r.active.Keys);
    assert a.Increment? ==> |Passed(Next(r, a))| == |Passed(r)| - 1;
  }

  lemma {:induction false} RunWithinBudget(k: nat, r: Race, run: seq<Act>)
    requires WithinBudget(k, r) && IsRun(k, r, run)
    ensures WithinBudget(k, After(r, run)) && After(r, run).max == r.max
    decreases run
  {
    if run != [] {
      StepWithinBudget(k, r, run[0]);
      RunWithinBudget(k, Next(r, run[0]), run[1..]);
    }
  }

  function Fresh(state: PState, max: int): Race { Race(state, 0, max, map[], 0) }

  /** With at most k respawns at once the restart count never exceeds the limit by more
      than k - 1; one at a time never exceeds it, and a limit of zero is never exceeded. */
  lemma InterleavedBudget(k: nat, state: PState, max: int, run: seq<Act>)
    requires k >= 1 && max >= 0 && IsRun(k, Fresh(state, max), run)
    ensures After(Fresh(state, max), run).restarts <= if max == 0 then 0 else max + k - 1
  {
    var r := Fresh(state, max);
    assert Passed(r) == {} && Counted(r) == {};
    RunWithinBudget(k, r, run);
  }

  /** So lords are sent at most that many requests beyond the first: with k respawns at once
      they start at most max + k OS processes, and at most one when the limit is zero. */
  lemma InterleavedExecutions(k: nat, state: PState, max: int, run: seq<Act>)
    requires k >= 1 && max >= 0 && IsRun(k, Fresh(state, max), run)
    ensures 1 + After(Fresh(state, max), run).sent <= if max == 0 then 1 else max + k
  {
    var r := Fresh(state, max);
    assert Passed(r) == {} && Counted(r) == {};
    RunWithinBudget(k, r, run);
  }

  // ---------------------------------------------------------------------------
  // One at a time
  // ---------------------------------------------------------------------------

  /** An entry with no respawn in progress, after some accepted requests. */
  function RaceOf(info: Info, sent: nat): Race {
    Race(info.state, info.restarts, info.program.maxRestarts, map[], sent)
  }

  lemma Three(k: nat, r: Race, a: Act, b: Act, c: Act)
    requires Enabled(k, r, a) && Enabled(k, Next(r, a), b) && Enabled(k, Next(Next(r, a), b), c)
    ensures IsRun(k, r, [a, b, c]) && After(r, [a, b, c]) == Next(Next(Next(r, a), b), c)
  {
    Two(k, Next(r, a), b, c);
    assert [a, b, c][1..] == [b, c];
  }

  lemma AloneFinal(r: Race) returns (run: seq<Act>)
    requires r.active == map[] && Final(r.state)
    ensures IsRun(1, r, run) && After(r, run) == r
  {
    run := [Begin(0), CheckState(0)];
    Two(1, r, Begin(0), CheckState(0));
    assert Next(Next(r, Begin(0)), CheckState(0)).active == map[];
  }

  /** Both checks, by the only respawn in progress. */
  lemma AloneChecks(r: Race) returns (run: seq<Act>)
    requires r.active == map[] && !Final(r.state)
    ensures IsRun(1, r, run)
    ensures After(r, run) ==
      if r.max >= 0 && r.restarts >= r.max then r.(state := Stopped) else r.(active := map[0 := AtMark])
  {
    run := [Begin(0), CheckState(0), CheckBudget(0)];
    Three(1, r, Begin(0), CheckState(0), CheckBudget(0));
    var r2 := Next(Next(r, Begin(0)), CheckState(0));
    assert r2.active == map[0 := AtBudgetCheck];
    assert Next(r2, CheckBudget(0)).active == if r.max >= 0 && r.restarts >= r.max then map[] else map[0 := AtMark];
  }

  lemma AloneSends(r: Race, accepted: bool) returns (run: seq<Act>)
    requires r.active == map[0 := AtMark]
    ensures IsRun(1, r, run)
    ensures After(r, run) ==
      Race(if accepted then Restarting else Stopped, r.restarts + 1, r.max, map[],
           if accepted then r.sent + 1 else r.sent)
  {
    run := [Mark(0), Increment(0), SendIt(0, accepted)];
    Three(1, r, Mark(0), Increment(0), SendIt(0, accepted));
    assert Next(Next(Next(r, Mark(0)), Increment(0)), SendIt(0, accepted)).active == map[];
  }

  /** The steps of one respawn in a row are a respawn of the undivided model: same state,
      same restart count, and a request sent in the same cases. */
  lemma AloneIsRespawn(c: Core, id: ProcId, lord: LordId, accepted: bool, sent: nat) returns (run: seq<Act>)
    requires id in c.table
    ensures
      var (c', r) := Lifecycle.Respawn(c, id, lord, accepted);
      && IsRun(1, RaceOf(c.table[id].info, sent), run)
      && id in c'.table
      && After(RaceOf(c.table[id].info, sent), run) == RaceOf(c'.table[id].info, if r.Sent? then sent + 1 else sent)
  {
    Lifecycle.RespawnTouchesOne(c, id, lord, accepted);
    hide Lifecycle.Respawn, After, IsRun;
    var r := RaceOf(c.table[id].info, sent);
    if Final(r.state) {
      run := AloneFinal(r);
    } else {
      run := AloneChecks(r);
      if !Lifecycle.Exhausted(c.table[id].info) {
        var more := AloneSends(After(r, run), accepted);
        RunsCompose(1, r, run, more);
        run := run + more;
      }
    }
  }

  // ---------------------------------------------------------------------------
  // The bound is reached
  // ---------------------------------------------------------------------------

  lemma {:induction false} RunsCompose(k: nat, r: Race, run1: seq<Act>, run2: seq<Act>)
    requires IsRun(k, r, run1) && IsRun(k, After(r, run1), run2)
    ensures IsRun(k, r, run1 + run2) && After(r, run1 + run2) == After(After(r, run1), run2)
    decreases run1
  {
    if run1 == [] {
      assert run1 + run2 == run2;
    } else {
      assert (run1 + run2)[0] == run1[0] && (run1 + run2)[1..] == run1[1..] + run2;
      RunsCompose(k, Next(r, run1[0]), run1[1..], run2);
    }
  }

  lemma Two(k: nat, r: Race, a: Act, b: Act)
    requires Enabled(k, r, a) && Enabled(k, Next(r, a), b)
    ensures IsRun(k, r, [a, b]) && After(r, [a, b]) == Next(Next(r, a), b)
  {
    assert [a, b][1..] == [b] && [b][1..] == [];
    assert IsRun(k, Next(Next(r, a), b), []);
    assert IsRun(k, Next(r, a), [b]) && After(Next(r, a), [b]) == Next(Next(r, a), b);
  }

  /** One more respawn passes both checks. */
  lemma PassOne(k: nat, r: Race, t: Thread) returns (run: seq<Act>)
    requires t !in r.active && |r.active| < k && !Final(r.state) && 0 <= r.restarts < r.max
    ensures IsRun(k, r, run) && After(r, run) == r.(active := r.active[t := AtMark])
  {
    var r1 := Next(r, Begin(t));
    Two(k, r, Begin(t), CheckState(t));
    var r2 := Next(r1, CheckState(t));
    var r3 := Next(r2, CheckBudget(t));
    assert r3.active == r.active[t := AtMark];
    Two(k, r2, CheckBudget(t), Outside(r3.state));
    run := [Begin(t), CheckState(t)] + [CheckBudget(t), Outside(r3.state)];
    RunsCompose(k, r, [Begin(t), CheckState(t)], [CheckBudget(t), Outside(r3.state)]);
  }

  /** One that has passed counts itself. */
  lemma CountOne(k: nat, r: Race, t: Thread) returns (run: seq<Act>)
    requires At(r, t, AtMark)
    ensures IsRun(k, r, run)
    ensures After(r, run) == r.(state := Restarting, restarts := r.restarts + 1, active := r.active[t := AtSend])
  {
    run := [Mark(t), Increment(t)];
    Two(k, r, Mark(t), Increment(t));
    assert r.active[t := AtIncrement][t := AtSend] == r.active[t := AtSend];
  }

  /** Whole respawns, one after the other. */
  lemma {:induction false} Sequential(k: nat, r: Race, n: nat) returns (run: seq<Act>)
    requires k >= 1 && r.active == map[] && !Final(r.state) && r.restarts + n <= r.max
    ensures IsRun(k, r, run)
    ensures After(r, run) ==
      r.(state := if n == 0 then r.state else Restarting, restarts := r.restarts + n, sent := r.sent + n)
    decreases n
  {
    run := [];
    if n > 0 {
      var a := PassOne(k, r, 0);
      var r1 := After(r, a);
      var b := CountOne(k, r1, 0);
      var r2 := After(r1, b);
      var r3 := Next(r2, SendIt(0, true));
      assert r3.active == map[];
      Two(k, r2, SendIt(0, true), Outside(Restarting));
      RunsCompose(k, r, a, b);
      RunsCompose(k, r, a + b, [SendIt(0, true), Outside(Restarting)]);
      var c := Sequential(k, r3, n - 1);
      run := a + b + [SendIt(0, true), Outside(Restarting)];
      RunsCompose(k, r, run, c);
      run := run + c;
    }
  }

  function Crowd(n: nat, p: Phase): (m: map<Thread, Phase>)
    ensures |m| == n && forall t :: t in m <==> 0 <= t < n
    ensures forall t | t in m :: m[t] == p
  {
    if n == 0 then map[] else Crowd(n - 1, p)[n - 1 := p]
  }

  lemma {:induction false} PassAll(k: nat, r: Race, n: nat) returns (run: seq<Act>)
    requires n <= k && r.active == map[] && !Final(r.state) && r.restarts < r.max
    ensures IsRun(k, r, run) && After(r, run) == r.(active := Crowd(n, AtMark))
    decreases n
  {
    run := [];
    if n > 0 {
      run := PassAll(k, r, n - 1);
      var more := PassOne(k, After(r, run), n - 1);
      RunsCompose(k, r, run, more);
      run := run + more;
    }
  }

  lemma {:induction false} CountAll(k: nat, r: Race, n: nat) returns (run: seq<Act>)
    requires r.active == Crowd(n, AtMark)
    ensures IsRun(k, r, run)
    ensures After(r, run).restarts == r.restarts + n && After(r, run).sent == r.sent
    ensures After(r, run).active == Crowd(n, AtSend)
  {
    run := CountFirst(k, r, n, n);
    assert After(r, run).active == Crowd(n, AtSend);
  }

  lemma {:induction false} CountFirst(k: nat, r: Race, n: nat, i: nat) returns (run: seq<Act>)
    requires r.active == Crowd(n, AtMark) && i <= n
    ensures IsRun(k, r, run)
    ensures After(r, run).restarts == r.restarts + i && After(r, run).sent == r.sent
    ensures After(r, run).active.Keys == r.active.Keys
    ensures forall t | 0 <= t < n :: After(r, run).active[t] == if t < i then AtSend else AtMark
    decreases i
  {
    run := [];
    if i > 0 {
      run := CountFirst(k, r, n, i - 1);
      var one := CountOne(k, After(r, run), i - 1);
      RunsCompose(k, r, run, one);
      run := run + one;
    }
  }

  lemma {:induction false} SendAll(k: nat, r: Race, n: nat) returns (run: seq<Act>)
    requires r.active == Crowd(n, AtSend)
    ensures IsRun(k, r, run) && After(r, run).sent == r.sent + n
    ensures After(r, run).restarts == r.restarts
    decreases n
  {
    run := [];
    if n > 0 {
      var a := SendIt(n - 1, true);
      assert Next(r, a).active == Crowd(n - 1, AtSend);
      var more := SendAll(k, Next(r, a), n - 1);
      run := [a] + more;
      assert run[1..] == more;
    }
  }

  /** For every limit of at least one and every k there is a run that exceeds it by k - 1,
      in restarts and in requests sent. */
  lemma InterleavedBudgetIsTight(k: nat, max: int) returns (run: seq<Act>)
    requires k >= 1 && max >= 1
    ensures IsRun(k, Fresh(Running, max), run)
    ensures After(Fresh(Running, max), run).restarts == max + k - 1
    ensures After(Fresh(Running, max), run).sent == max + k - 1
  {
    var r := Fresh(Running, max);
    var a := Sequential(k, r, max - 1);
    var r1 := After(r, a);
    var b := PassAll(k, r1, k);
    var r2 := After(r1, b);
    var c := CountAll(k, r2, k);
    var r3 := After(r2, c);
    var d := SendAll(k, r3, k);
    RunsCompose(k, r, a, b);
    RunsCompose(k, r, a + b, c);
    RunsCompose(k, r, a + b + c, d);
    run := a + b + c + d;
  }
}
