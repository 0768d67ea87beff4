/** The registry of lords, and the choice of a lord for a process. */
module Placement {
  import opened Process
  import opened Clock
  import opened Sequences

  const INT32_MAX := 0x7fff_ffff

  type Int32 = n: int | -INT32_MAX - 1 <= n <= INT32_MAX

  datatype Lord = Lord(
    id: LordId, hostname: string, healthy: bool, cpuUsedPct: int, memUsed: int,
    activeProcesses: Int32, advertisedMem: int, physicalMem: int)

  datatype LordEntry = LordEntry(info: Lord, lastHeartbeat: Time, healthy: bool, drain: bool)

  type Lords = map<LordId, LordEntry>

  // ---------------------------------------------------------------------------
  // Scores
  // ---------------------------------------------------------------------------

  function Clamp(x: real): real {
    if x < 0.0 then 0.0 else if x > 1.0 then 1.0 else x
  }

  function CpuFree(l: Lord): real { Clamp(1.0 - l.cpuUsedPct as real / 100.0) }

  function MemFree(l: Lord): real {
    if l.advertisedMem > 0 then Clamp(1.0 - l.memUsed as real / l.advertisedMem as real)
    else if l.physicalMem > 0 then Clamp(1.0 - l.memUsed as real / l.physicalMem as real)
    else 1.0
  }

  /** One more than the process count, in 32 bits. */
  function LoadDivisor(l: Lord): Int32 {
    if l.activeProcesses == INT32_MAX then -INT32_MAX - 1 else l.activeProcesses + 1
  }

  /** Stands for the floating-point infinity, which exceeds every other score. */
  const INFINITE: real := 2.0

  function Score(l: Lord): real {
    var d := LoadDivisor(l);
    if d == 0 then INFINITE else 0.5 * CpuFree(l) + 0.4 * MemFree(l) + 0.1 / d as real
  }

  predicate HasCapacity(l: Lord) {
    l.cpuUsedPct < 100 && (l.advertisedMem > 0 ==> l.memUsed < l.advertisedMem)
  }

  lemma RatioMonotone(a: real, b: real, c: real)
    requires a <= b && c > 0.0
    ensures a / c <= b / c
  {
    assert (b / c - a / c) * c == b - a;
  }

  lemma InverseRange(d: int)
    requires d != 0
    ensures if d > 0 then 0.0 < 0.1 / d as real <= 0.1 else -0.1 <= 0.1 / d as real < 0.0
  {
    assert (0.1 / d as real) * d as real == 0.1;
  }

  /** For a process count a lord can have. */
  lemma ScoreRange(l: Lord)
    requires 0 <= l.activeProcesses < INT32_MAX
    ensures 0.0 < Score(l) <= 1.0
  {
    InverseRange(LoadDivisor(l));
  }

  /** For any count at all, so that every usable lord beats the search's first best score. */
  lemma ScoreAboveFloor(l: Lord)
    ensures Score(l) > -1.0
  {
    if LoadDivisor(l) != 0 { InverseRange(LoadDivisor(l)); }
  }

  lemma InverseMonotone(m: int, n: int)
    requires 0 < m <= n
    ensures 0.1 / n as real <= 0.1 / m as real
  {
    var x, y := 0.1 / m as real, 0.1 / n as real;
    InverseRange(n);
    assert x * m as real == 0.1 == y * n as real;
    ProductMonotone(y, m as real, n as real);
    if x < y { ProductMonotone(m as real, x, y); }
  }

  lemma ProductMonotone(a: real, b: real, c: real)
    requires a > 0.0 && b <= c
    ensures a * b <= a * c && b * a <= c * a
    ensures b < c ==> a * b < a * c && b * a < c * a
  {
  }

  /** More CPU, memory or process load never raises a score. */
  lemma ScoreMonotone(l: Lord, l': Lord)
    requires l.advertisedMem == l'.advertisedMem && l.physicalMem == l'.physicalMem
    requires l.cpuUsedPct <= l'.cpuUsedPct && l.memUsed <= l'.memUsed
    requires 0 <= l.activeProcesses <= l'.activeProcesses < INT32_MAX
    ensures Score(l') <= Score(l)
  {
    RatioMonotone(l.cpuUsedPct as real, l'.cpuUsedPct as real, 100.0);
    if l.advertisedMem > 0 {
      RatioMonotone(l.memUsed as real, l'.memUsed as real, l.advertisedMem as real);
    } else if l.physicalMem > 0 {
      RatioMonotone(l.memUsed as real, l'.memUsed as real, l.physicalMem as real);
    }
    InverseMonotone(LoadDivisor(l), LoadDivisor(l'));
  }

  // What a score means, without its parts.

  /** The memory that use is measured against: the advertised size if there is one, else the
      physical one. */
  function Capacity(l: Lord): int { if l.advertisedMem > 0 then l.advertisedMem else l.physicalMem }

  /** Figures as a lord in good order reports them. */
  predicate InRange(l: Lord) {
    && 0 <= l.cpuUsedPct <= 100 && 0 <= l.activeProcesses < INT32_MAX
    && Capacity(l) > 0 && 0 <= l.memUsed <= Capacity(l)
  }

  /** Half the score is free CPU, four tenths free memory, and at most one tenth, for an idle
      lord, comes from the process count. */
  lemma ScoreInFigures(l: Lord)
    requires InRange(l)
    ensures
      (Score(l) * 1000.0 - 5.0 * (100 - l.cpuUsedPct) as real) * Capacity(l) as real * (1 + l.activeProcesses) as real
      == 400.0 * (Capacity(l) - l.memUsed) as real * (1 + l.activeProcesses) as real + 100.0 * Capacity(l) as real
  {
    var c, n := Capacity(l) as real, (1 + l.activeProcesses) as real;
    var mem, load := l.memUsed as real / c, 0.1 / n;
    assert mem * c == l.memUsed as real && load * n == 0.1;
    QuotientRange(l.memUsed as real, c);
    assert MemFree(l) == 1.0 - mem;
    assert Score(l) * 1000.0 - 5.0 * (100 - l.cpuUsedPct) as real == 400.0 * (1.0 - mem) + 1000.0 * load;
    assert (1.0 - mem) * c == c - l.memUsed as real;
    assert (400.0 * (1.0 - mem) + 1000.0 * load) * c * n == 400.0 * ((1.0 - mem) * c) * n + 1000.0 * (load * n) * c;
  }

  lemma QuotientRange(a: real, c: real)
    requires 0.0 <= a <= c && c > 0.0
    ensures 0.0 <= a / c <= 1.0
  {
    assert (a / c) * c == a;
  }

  /** No worse in CPU, memory and process count, and better in one of them; memory as a share
      of the capacity. */
  predicate Dominates(k: Lord, l: Lord) {
    && k.cpuUsedPct <= l.cpuUsedPct
    && k.memUsed * Capacity(l) <= l.memUsed * Capacity(k)
    && k.activeProcesses <= l.activeProcesses
    && (k.cpuUsedPct < l.cpuUsedPct || k.memUsed * Capacity(l) < l.memUsed * Capacity(k)
        || k.activeProcesses < l.activeProcesses)
  }

  lemma SharesCompare(a: int, c: int, b: int, d: int)
    requires c > 0 && d > 0
    ensures a * d <= b * c <==> a as real / c as real <= b as real / d as real
    ensures a * d < b * c <==> a as real / c as real < b as real / d as real
  {
    var x, y, p, q := a as real / c as real, b as real / d as real, c as real, d as real;
    assert x * p == a as real && y * q == b as real;
    assert (a * d) as real == (x * p) * q == x * (p * q);
    assert (b * c) as real == (y * q) * p == y * (p * q);
    assert p * q > 0.0 by { ProductMonotone(p, 0.0, q); }
    if x < y { ProductMonotone(p * q, x, y); }
    if y < x { ProductMonotone(p * q, y, x); }
  }

  lemma InverseStrict(m: int, n: int)
    requires 0 < m < n
    ensures 0.1 / n as real < 0.1 / m as real
  {
    var x, y := 0.1 / m as real, 0.1 / n as real;
    InverseMonotone(m, n);
    assert x * m as real == 0.1 == y * n as real;
    if x == y { ProductMonotone(x, m as real, n as real); InverseRange(m); }
  }

  lemma MemFreeIs(l: Lord)
    requires InRange(l)
    ensures MemFree(l) == 1.0 - l.memUsed as real / Capacity(l) as real
  {
    QuotientRange(l.memUsed as real, Capacity(l) as real);
  }

  /** A better lord scores strictly higher. */
  lemma DominantScoresHigher(k: Lord, l: Lord)
    requires InRange(k) && InRange(l) && Dominates(k, l)
    ensures Score(k) > Score(l)
  {
    MemFreeIs(k);
    MemFreeIs(l);
    SharesCompare(k.memUsed, Capacity(k), l.memUsed, Capacity(l));
    InverseMonotone(1 + k.activeProcesses, 1 + l.activeProcesses);
    if k.activeProcesses < l.activeProcesses { InverseStrict(1 + k.activeProcesses, 1 + l.activeProcesses); }
  }

  /** Between lords with as many processes, one per cent of free CPU is worth five points and
      one per cent of free memory four. */
  lemma CpuAgainstMemory(k: Lord, l: Lord)
    requires InRange(k) && InRange(l) && k.activeProcesses == l.activeProcesses
    ensures Score(k) < Score(l) <==>
      5.0 * (1.0 - k.cpuUsedPct as real / 100.0) + 4.0 * (1.0 - k.memUsed as real / Capacity(k) as real)
      < 5.0 * (1.0 - l.cpuUsedPct as real / 100.0) + 4.0 * (1.0 - l.memUsed as real / Capacity(l) as real)
  {
    MemFreeIs(k);
    MemFreeIs(l);
  }

  /** The process count never shifts a score by a tenth. */
  lemma ProcessesCountLittle(l: Lord, n: Int32)
    requires 0 <= l.activeProcesses < INT32_MAX && 0 <= n < INT32_MAX
    ensures -0.1 < Score(l.(activeProcesses := n)) - Score(l) < 0.1
  {
    InverseRange(1 + n);
    InverseRange(1 + l.activeProcesses);
  }

  /** Only one of the two memory sizes matters, and figures out of range count as the nearest
      ones in it. */
  lemma ScoreIgnores(l: Lord, x: int)
    ensures l.advertisedMem > 0 ==> Score(l.(physicalMem := x)) == Score(l)
    ensures l.advertisedMem <= 0 && x <= 0 ==> Score(l.(advertisedMem := x)) == Score(l)
    ensures l.cpuUsedPct >= 100 ==> Score(l) == Score(l.(cpuUsedPct := 100))
    ensures l.cpuUsedPct <= 0 ==> Score(l) == Score(l.(cpuUsedPct := 0))
  {
  }

  // ---------------------------------------------------------------------------
  // Choices
  // ---------------------------------------------------------------------------

  predicate Usable(lords: Lords, id: LordId) {
    id in lords && lords[id].healthy && !lords[id].drain
  }

  /** A usable lord other than `exclude` that no such lord outscores. */
  ghost predicate IsBest(lords: Lords, exclude: LordId, id: LordId) {
    && Usable(lords, id) && id != exclude
    && forall k | Usable(lords, k) && k != exclude :: Score(lords[k].info) <= Score(lords[id].info)
  }

  predicate Preferred(lords: Lords, prefer: LordId) {
    prefer != "" && Usable(lords, prefer) && HasCapacity(lords[prefer].info)
  }

  lemma BestIsUndominated(lords: Lords, exclude: LordId, r: LordId, k: LordId)
    requires IsBest(lords, exclude, r) && Usable(lords, k) && k != exclude
    requires InRange(lords[k].info) && InRange(lords[r].info)
    ensures !Dominates(lords[k].info, lords[r].info)
  {
    if Dominates(lords[k].info, lords[r].info) { DominantScoresHigher(lords[k].info, lords[r].info); }
  }

  predicate AnyUsable(lords: Lords) {
    exists id | id in lords :: Usable(lords, id)
  }

  /** What a pick may return: the preferred lord if it will do, else, with the weighted
      algorithm, a best one, else any usable one. */
  ghost predicate MayPick(lords: Lords, weighted: bool, prefer: LordId, id: LordId) {
    && Usable(lords, id)
    && (Preferred(lords, prefer) ==> id == prefer)
    && (!Preferred(lords, prefer) && weighted ==> IsBest(lords, "", id))
  }

  /** An order in which an iteration of the registry's map may go. */
  ghost predicate IsIteration(lords: Lords, order: seq<LordId>) {
    Distinct(order) && forall id :: id in order <==> id in lords
  }

  function FirstNamed(lords: Lords, order: seq<LordId>, hostname: string): LordId {
    if hostname == "" || order == [] then ""
    else if order[0] in lords && lords[order[0]].info.hostname == hostname then order[0]
    else FirstNamed(lords, order[1..], hostname)
  }

  lemma {:induction false} FirstNamedIs(lords: Lords, order: seq<LordId>, hostname: string)
    requires forall id | id in order :: id in lords && id != ""
    ensures var r := FirstNamed(lords, order, hostname);
      && (r == "" <==> hostname == "" || forall id | id in order :: lords[id].info.hostname != hostname)
      && (r != "" ==> r in order && lords[r].info.hostname == hostname)
  {
    if hostname != "" && order != [] {
      FirstNamedIs(lords, order[1..], hostname);
      assert order == [order[0]] + order[1..];
    }
  }

  /** Any lord of a name may be the first one met, a new one or an old one alike. */
  lemma AnyMayBeFound(lords: Lords, order: seq<LordId>, id: LordId) returns (order': seq<LordId>)
    requires IsIteration(lords, order) && id in lords && lords[id].info.hostname != ""
    ensures IsIteration(lords, order') && FirstNamed(lords, order', lords[id].info.hostname) == id
  {
    var k :| 0 <= k < |order| && order[k] == id;
    order' := MovedToFront(order, k);
    MovedToFrontKeeps(order, k);
  }

  function MarkedDown(e: LordEntry): LordEntry {
    e.(healthy := false, info := e.info.(healthy := false))
  }

  function Swept(e: LordEntry, now: Time, ttl: Time): LordEntry {
    if Silent(e, now, ttl) then MarkedDown(e) else e
  }

  predicate Silent(e: LordEntry, now: Time, ttl: Time) {
    e.healthy && now - e.lastHeartbeat > ttl
  }

  class LordRegistry {
    var byID: Lords
    const weighted: bool

    ghost predicate Valid()
      reads this
    {
      forall id | id in byID :: id != "" && byID[id].info.id == id
    }

    constructor (algo: string)
      ensures Valid() && byID == map[] && weighted == (algo == "weighted")
    {
      byID := map[];
      weighted := algo == "weighted";
    }

    method Register(info: Lord, now: Time)
      requires Valid() && info.id != ""
      modifies this
      ensures Valid() && byID.Keys == old(byID.Keys) + {info.id}
      ensures Usable(byID, info.id) && byID[info.id].info == info
      ensures byID[info.id].lastHeartbeat == now
      ensures forall k | k in old(byID) && k != info.id :: byID[k] == old(byID)[k]
    {
      byID := byID[info.id := LordEntry(info, now, true, false)];
    }

    /** A heartbeat makes its lord healthy again; one from an unknown lord changes nothing. */
    method UpdateStats(id: LordId, cpuUsedPct: int, memUsed: int, activeProcesses: Int32, now: Time) returns (ok: bool)
      requires Valid()
      modifies this
      ensures Valid() && byID.Keys == old(byID.Keys) && ok == (id in byID)
      ensures forall k | k in byID && k != id :: byID[k] == old(byID)[k]
      ensures ok ==> var e := old(byID)[id];
        var info := e.info.(cpuUsedPct := cpuUsedPct, memUsed := memUsed, activeProcesses := activeProcesses);
        byID[id] == LordEntry(info, now, true, e.drain)
    {
      if id !in byID { return false; }
      var e := byID[id];
      e := e.(lastHeartbeat := now, healthy := true);
      e := e.(info := e.info.(cpuUsedPct := cpuUsedPct, memUsed := memUsed, activeProcesses := activeProcesses));
      byID := byID[id := e];
      return true;
    }

    /** The first lord of that name as the iteration meets them, "" when there is none. */
    method FindByHostname(hostname: string, order: seq<LordId>) returns (r: LordId)
      requires Valid() && IsIteration(byID, order)
      ensures r == FirstNamed(byID, order, hostname)
      ensures r == "" <==> hostname == "" || forall id | id in byID :: byID[id].info.hostname != hostname
      ensures r != "" ==> r in byID && byID[r].info.hostname == hostname
    {
      FirstNamedIs(byID, order, hostname);
      if hostname == "" { return ""; }
      for i := 0 to |order|
        invariant FirstNamed(byID, order, hostname) == FirstNamed(byID, order[i..], hostname)
      {
        assert order[i..][0] == order[i] && order[i..][1..] == order[i + 1..];
        if byID[order[i]].info.hostname == hostname { return order[i]; }
      }
      return "";
    }

    method MarkUnhealthy(id: LordId)
      requires Valid()
      modifies this
      ensures Valid() && !Usable(byID, id)
      ensures byID.Keys == old(byID.Keys) && forall k | k in byID && k != id :: byID[k] == old(byID)[k]
      ensures id in byID ==>
        var e := old(byID)[id];
        byID[id] == LordEntry(e.info.(healthy := false), e.lastHeartbeat, false, e.drain)
    {
      if id in byID {
        var e := byID[id];
        byID := byID[id := e.(healthy := false, info := e.info.(healthy := false))];
      }
    }

    method SetDrain(id: LordId)
      requires Valid()
      modifies this
      ensures Valid() && !Usable(byID, id)
      ensures byID == if id in old(byID) then old(byID)[id := old(byID)[id].(drain := true)] else old(byID)
    {
      if id in byID { byID := byID[id := byID[id].(drain := true)]; }
    }

    /** The lord to put a process on: the preferred one if it is usable and has room;
        otherwise by the registry's algorithm; none exactly when no lord is usable. */
    method Pick(prefer: LordId) returns (r: Option<Lord>)
      requires Valid()
      ensures r.Some? <==> AnyUsable(byID)
      ensures r.Some? ==> MayPick(byID, weighted, prefer, r.value.id) && byID[r.value.id].info == r.value
      ensures r.Some? ==> byID[r.value.id].healthy && !byID[r.value.id].drain
      ensures r.Some? ==>
        if prefer != "" && prefer in byID && byID[prefer].healthy && !byID[prefer].drain
           && byID[prefer].info.cpuUsedPct < 100
           && (byID[prefer].info.advertisedMem <= 0 || byID[prefer].info.memUsed < byID[prefer].info.advertisedMem)
        then r.value == byID[prefer].info
        else weighted ==> forall k | k in byID && byID[k].healthy && !byID[k].drain ::
          !(InRange(byID[k].info) && InRange(r.value) && Dominates(byID[k].info, r.value))
    {
      if prefer != "" && prefer in byID && byID[prefer].healthy && !byID[prefer].drain {
        if HasCapacity(byID[prefer].info) {
          return Some(byID[prefer].info);
        }
      }
      if weighted {
        var best := PickDifferent("");
        return if best == "" then None else Some(byID[best].info);
      }
      var todo := byID.Keys;
      while todo != {}
        invariant todo <= byID.Keys
        invariant forall id | id in byID && id !in todo :: !Usable(byID, id)
        decreases todo
      {
        var id :| id in todo;
        if byID[id].healthy && !byID[id].drain {
          return Some(byID[id].info);
        }
        todo := todo - {id};
      }
      return None;
    }

    /** The best-scoring usable lord other than the excluded one, or "" when there is none. */
    method PickDifferent(exclude: LordId) returns (r: LordId)
      requires Valid()
      ensures r == "" <==> forall id | id in byID && id != exclude :: !Usable(byID, id)
      ensures r != "" ==> IsBest(byID, exclude, r) && byID[r].healthy && !byID[r].drain
      ensures r != "" ==> forall k | k in byID && k != exclude && byID[k].healthy && !byID[k].drain ::
        !(InRange(byID[k].info) && InRange(byID[r].info) && Dominates(byID[k].info, byID[r].info))
    {
      var best, bestScore := "", -1.0;
      var todo := byID.Keys;
      while todo != {}
        invariant todo <= byID.Keys
        invariant best == "" ==> bestScore == -1.0
        invariant best != "" ==> Usable(byID, best) && best != exclude && bestScore == Score(byID[best].info)
        invariant forall id | id in byID && id !in todo && Usable(byID, id) && id != exclude ::
                    best != "" && Score(byID[id].info) <= bestScore
        decreases todo
      {
        var id :| id in todo;
        todo := todo - {id};
        var e := byID[id];
        if !e.healthy || e.drain || e.info.id == exclude { continue; }
        ScoreAboveFloor(e.info);
        var score := Score(e.info);
        if score > bestScore {
          bestScore := score;
          best := e.info.id;
        }
      }
      r := best;
      forall k | r != "" && k in byID && k != exclude && byID[k].healthy && !byID[k].drain
        && InRange(byID[k].info) && InRange(byID[r].info)
        ensures !Dominates(byID[k].info, byID[r].info)
      {
        BestIsUndominated(byID, exclude, r, k);
      }
    }

    /** Lords silent for longer than `ttl` become unhealthy; those that just did are returned. */
    method SweepHeartbeats(now: Time, ttl: Time) returns (lost: seq<LordId>)
      requires Valid()
      modifies this
      ensures Valid() && byID.Keys == old(byID.Keys)
      ensures forall id | id in byID ::
        var e := old(byID)[id];
        byID[id] == if e.healthy && now - e.lastHeartbeat > ttl
          then e.(healthy := false, info := e.info.(healthy := false)) else e
      ensures forall id :: id in lost <==>
        id in byID && old(byID)[id].healthy && now - old(byID)[id].lastHeartbeat > ttl
      ensures forall i, j | 0 <= i < j < |lost| :: lost[i] != lost[j]
    {
      lost := [];
      var todo := byID.Keys;
      ghost var was := byID;
      while todo != {}
        invariant Valid() && byID.Keys == was.Keys && todo <= was.Keys
        invariant forall id | id in todo :: byID[id] == was[id]
        invariant forall id | id in was && id !in todo :: byID[id] == Swept(was[id], now, ttl)
        invariant forall id :: id in lost <==> id in was && id !in todo && Silent(was[id], now, ttl)
        invariant forall i, j | 0 <= i < j < |lost| :: lost[i] != lost[j]
        decreases todo
      {
        var id :| id in todo;
        todo := todo - {id};
        var e := byID[id];
        if now - e.lastHeartbeat > ttl && e.healthy {
          var down := e.(healthy := false, info := e.info.(healthy := false));
          assert down == Swept(was[id], now, ttl);
          byID := byID[id := down];
          assert id !in lost;
          lost := lost + [id];
        }
      }
    }
  }
}
