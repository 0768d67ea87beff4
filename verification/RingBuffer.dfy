/** The per-process output buffer: a byte array with wrap-around, and the follower
    that polls it for new output. */
module RingBuffer {
  import opened Sequences

  function Concat<T>(ws: seq<seq<T>>): (s: seq<T>) {
    if ws == [] then [] else Concat(ws[..|ws| - 1]) + ws[|ws| - 1]
  }

  // ---------------------------------------------------------------------------
  // The buffer as a value
  // ---------------------------------------------------------------------------

  datatype Ring = Ring(data: seq<Byte>, off: nat, full: bool) {
    ghost predicate Valid() {
      off < |data| || (off == 0 && data == [])
    }
  }

  function Empty(data: seq<Byte>): Ring {
    Ring(data, 0, false)
  }

  /** How many bytes of a short write fit before the end of the array. */
  function Room(cap: nat, off: nat, len: nat): nat
    requires off <= cap
  {
    if len <= cap - off then len else cap - off
  }

  /** One write. A write that straddles the end of the array loses its tail. */
  function Write(r: Ring, p: seq<Byte>): (r': Ring)
    requires r.Valid()
    ensures r'.Valid() && |r'.data| == |r.data|
  {
    var cap := |r.data|;
    if |p| >= cap then Ring(p[|p| - cap..], 0, true)
    else
      var n := Room(cap, r.off, |p|);
      var data := r.data[..r.off] + p[..n] + r.data[r.off + n..];
      if r.off + n >= cap then Ring(data, 0, true)
      else Ring(data, r.off + n, r.full)
  }

  function Bytes(r: Ring): (s: seq<Byte>)
    requires r.Valid()
    ensures |s| == if r.full then |r.data| else r.off
  {
    if r.full then r.data[r.off..] + r.data[..r.off] else r.data[..r.off]
  }

  function Total(r: Ring): nat {
    if r.full then 2 * |r.data| else r.off
  }

  /** What a follower that has consumed `last` receives, and its new offset. */
  function SinceOffset(r: Ring, last: nat): (res: (seq<Byte>, nat))
    requires r.Valid()
  {
    var cap := |r.data|;
    var cur := Total(r);
    if cur <= last then ([], last)
    else
      var added := if cur - last > cap then cap else cur - last;
      var start := (cur - added) % cap;
      var end := cur % cap;
      (if start < end then r.data[start..end] else r.data[start..] + r.data[..end], cur)
  }

  function Run(data: seq<Byte>, ws: seq<seq<Byte>>): (r: Ring)
    ensures r.Valid() && |r.data| == |data|
  {
    if ws == [] then Empty(data) else Write(Run(data, ws[..|ws| - 1]), ws[|ws| - 1])
  }

  // ---------------------------------------------------------------------------
  // Reference: the kept stream, defined without any array
  // ---------------------------------------------------------------------------

  /** The array position after a write of the given length at `pos`. */
  function Advance(cap: nat, pos: nat, len: nat): nat {
    if len >= cap || pos + len >= cap then 0 else pos + len
  }

  function Position(cap: nat, ws: seq<seq<Byte>>): (pos: nat)
    ensures pos < cap || pos == 0
  {
    if ws == [] then 0 else Advance(cap, Position(cap, ws[..|ws| - 1]), |ws[|ws| - 1]|)
  }

  /** The part of a write that survives: its last cap bytes if it is that long,
      otherwise whatever fits before the end of the array. */
  function KeptPart(cap: nat, pos: nat, p: seq<Byte>): seq<Byte>
    requires pos <= cap
  {
    if |p| >= cap then p[|p| - cap..] else p[..Room(cap, pos, |p|)]
  }

  function Kept(cap: nat, ws: seq<seq<Byte>>): seq<Byte> {
    if ws == [] then []
    else Kept(cap, ws[..|ws| - 1]) + KeptPart(cap, Position(cap, ws[..|ws| - 1]), ws[|ws| - 1])
  }

  // ---------------------------------------------------------------------------
  // Ring refinement
  // ---------------------------------------------------------------------------

  lemma LastOfFull<T>(d: seq<T>, off: nat, q: seq<T>)
    requires off + |q| <= |d|
    ensures Last(|d|, d[off..] + d[..off] + q) == d[off + |q|..] + (d[..off] + q)
  {
  }

  /** d with q written over it from `off` on. */
  ghost predicate Overwritten<T>(d: seq<T>, off: nat, q: seq<T>, d': seq<T>)
    requires off + |q| <= |d|
  {
    |d'| == |d| && d'[..off + |q|] == d[..off] + q && d'[off + |q|..] == d[off + |q|..]
  }

  lemma OverwrittenBytes(d: seq<Byte>, off: nat, q: seq<Byte>, d': seq<Byte>)
    requires 0 < off + |q| == |d| && Overwritten(d, off, q, d')
    ensures Bytes(Ring(d', 0, true)) == d[..off] + q == d[off + |q|..] + (d[..off] + q)
  {
    assert d' == d'[..|d|] == d'[0..];
  }

  lemma SplicedIsOverwritten<T>(d: seq<T>, off: nat, q: seq<T>)
    requires off + |q| <= |d|
    ensures Overwritten(d, off, q, d[..off] + q + d[off + |q|..])
  {
  }

  lemma WriteOverwrites(r: Ring, p: seq<Byte>)
    requires r.Valid() && |p| < |r.data|
    ensures var q, r' := KeptPart(|r.data|, r.off, p), Write(r, p);
      && r.off + |q| <= |r.data|
      && Overwritten(r.data, r.off, q, r'.data)
      && r' == (if r.off + |q| == |r.data| then Ring(r'.data, 0, true) else Ring(r'.data, r.off + |q|, r.full))
  {
    var q := KeptPart(|r.data|, r.off, p);
    SplicedIsOverwritten(r.data, r.off, q);
    assert Write(r, p).data == r.data[..r.off] + q + r.data[r.off + |q|..];
  }

  /** A write shorter than the array overwrites from the offset on, up to the end at most. */
  lemma ShortWrite(r: Ring, p: seq<Byte>)
    requires r.Valid() && |p| < |r.data|
    ensures var q := KeptPart(|r.data|, r.off, p);
      && r.off + |q| <= |r.data|
      && Bytes(Write(r, p)) == if r.full then r.data[r.off + |q|..] + (r.data[..r.off] + q) else r.data[..r.off] + q
  {
    var q := KeptPart(|r.data|, r.off, p);
    WriteOverwrites(r, p);
    if r.off + |q| == |r.data| { OverwrittenBytes(r.data, r.off, q, Write(r, p).data); }
  }

  lemma ShortWriteExtendsTail(r: Ring, p: seq<Byte>)
    requires r.Valid() && |p| < |r.data|
    ensures Bytes(Write(r, p)) == Last(|r.data|, Bytes(r) + KeptPart(|r.data|, r.off, p))
  {
    var q := KeptPart(|r.data|, r.off, p);
    ShortWrite(r, p);
    if r.full {
      assert Bytes(r) == r.data[r.off..] + r.data[..r.off];
      LastOfFull(r.data, r.off, q);
    } else {
      assert Bytes(r) == r.data[..r.off] && |Bytes(r) + q| <= |r.data|;
    }
  }

  lemma WriteExtendsTail(r: Ring, p: seq<Byte>)
    requires r.Valid()
    ensures Bytes(Write(r, p)) == Last(|r.data|, Bytes(r) + KeptPart(|r.data|, r.off, p))
    ensures Write(r, p).off == Advance(|r.data|, r.off, |p|)
    ensures Write(r, p).full <==> r.full || |p| >= |r.data| || r.off + |p| >= |r.data|
  {
    var cap := |r.data|;
    if |p| < cap {
      ShortWriteExtendsTail(r, p);
    } else {
      assert Last(cap, Bytes(r) + p[|p| - cap..]) == p[|p| - cap..];
    }
  }

  /** For every sequence of writes, Bytes is the tail of the kept stream. */
  lemma {:induction false} RingIsStreamTail(data: seq<Byte>, ws: seq<seq<Byte>>)
    ensures var r := Run(data, ws); var kept := Kept(|data|, ws);
      && Bytes(r) == Last(|data|, kept)
      && r.off == Position(|data|, ws)
      && (!r.full ==> |kept| == r.off)
  {
    if ws != [] {
      var init, p := ws[..|ws| - 1], ws[|ws| - 1];
      RingIsStreamTail(data, init);
      WriteExtendsTail(Run(data, init), p);
      LastAppend(|data|, Kept(|data|, init), KeptPart(|data|, Position(|data|, init), p));
    }
  }

  /** No write runs past the end of the array or exceeds it. */
  predicate Fits(cap: nat, ws: seq<seq<Byte>>) {
    ws == [] ||
    (Fits(cap, ws[..|ws| - 1]) &&
     var len := |ws[|ws| - 1]|; len == cap || Position(cap, ws[..|ws| - 1]) + len <= cap)
  }

  lemma {:induction false} KeptNoLonger(cap: nat, ws: seq<seq<Byte>>)
    ensures |Kept(cap, ws)| <= |Concat(ws)|
    ensures |Kept(cap, ws)| == |Concat(ws)| <==> Fits(cap, ws)
  {
    if ws != [] {
      KeptNoLonger(cap, ws[..|ws| - 1]);
    }
  }

  /** The kept stream is the true output exactly when every write fits. */
  lemma {:induction false} KeptIsOutputIffFits(cap: nat, ws: seq<seq<Byte>>)
    ensures Kept(cap, ws) == Concat(ws) <==> Fits(cap, ws)
  {
    KeptNoLonger(cap, ws);
    if Fits(cap, ws) && ws != [] {
      KeptIsOutputIffFits(cap, ws[..|ws| - 1]);
    }
  }

  lemma MulMonotone(a: int, b: int, c: int)
    requires a <= b && c >= 0
    ensures a * c <= b * c
  {
    assert 0 <= (b - a) * c == b * c - a * c;
  }

  /** With writes of one length, the position is always a multiple of it. */
  lemma {:induction false} UniformPosition(cap: nat, k: nat, ws: seq<seq<Byte>>, len: nat) returns (j: nat)
    requires cap == k * len && len > 0 && k > 0 && cap > 0
    requires forall p :: p in ws ==> |p| == len
    ensures j < k && Position(cap, ws) == j * len && Fits(cap, ws)
  {
    j := 0;
    if ws != [] {
      j := UniformPosition(cap, k, ws[..|ws| - 1], len);
      MulMonotone(1, k, len);
      MulMonotone(j + 1, k, len);
      var next := j * len + len;
      assert next == (j + 1) * len;
      if j + 2 <= k {
        MulMonotone(j + 2, k, len);
        assert (j + 2) * len == next + len;
      }
      j := if j + 1 < k then j + 1 else 0;
    }
  }

  lemma ModIs(q: int, c: int, r: int)
    requires 0 <= r < c
    ensures (q * c + r) % c == r
  {
    var x := q * c + r;
    var d := x / c - q;
    assert d >= 1 ==> d * c >= c;
    assert d <= -1 ==> d * c <= -c;
    assert d * c == r - x % c by { assert x == (x / c) * c + x % c; }
  }

  /** Writes of one length that divides the capacity lose nothing but the oldest bytes. */
  lemma UniformWritesAreExact(data: seq<Byte>, ws: seq<seq<Byte>>, len: nat)
    requires len > 0 && |data| > 0 && |data| % len == 0
    requires forall p :: p in ws ==> |p| == len
    ensures Bytes(Run(data, ws)) == Last(|data|, Concat(ws))
  {
    var k := |data| / len;
    assert |data| == k * len;
    assert k > 0;
    var j := UniformPosition(|data|, k, ws, len);
    KeptIsOutputIffFits(|data|, ws);
    RingIsStreamTail(data, ws);
  }

  /** The smallest loss: two three-byte writes into a four-byte buffer. */
  lemma StraddlingWriteLosesTail()
    ensures var ws := [[1, 2, 3], [4, 5, 6]];
      Bytes(Run([0, 0, 0, 0], ws)) == [1, 2, 3, 4] != Last(4, Concat(ws))
  {
    var w0, w1: seq<Byte> := [1, 2, 3], [4, 5, 6];
    var ws := [w0, w1];
    assert ws[..1] == [w0];
    assert Run([0, 0, 0, 0], [w0]) == Write(Empty([0, 0, 0, 0]), w0) == Ring([1, 2, 3, 0], 3, false);
    assert Run([0, 0, 0, 0], ws) == Write(Ring([1, 2, 3, 0], 3, false), w1);
    assert Write(Ring([1, 2, 3, 0], 3, false), w1).data == [1, 2, 3, 4];
    assert Concat([w0]) == [] + w0;
    assert Concat(ws) == [1, 2, 3, 4, 5, 6];
  }

  // ---------------------------------------------------------------------------
  // When the content is right
  // ---------------------------------------------------------------------------

  /** A short write that runs past the end of the array. */
  predicate Straddles(cap: nat, pos: nat, len: nat) { len < cap && pos + len > cap }

  predicate AnyStraddles(cap: nat, ws: seq<seq<Byte>>) {
    ws != [] &&
    (AnyStraddles(cap, ws[..|ws| - 1]) || Straddles(cap, Position(cap, ws[..|ws| - 1]), |ws[|ws| - 1]|))
  }

  /** The bytes written after the last straddling write, or all of them. */
  function SinceLoss(cap: nat, ws: seq<seq<Byte>>): nat {
    if ws == [] || Straddles(cap, Position(cap, ws[..|ws| - 1]), |ws[|ws| - 1]|) then 0
    else SinceLoss(cap, ws[..|ws| - 1]) + |ws[|ws| - 1]|
  }

  /** Any loss is followed by enough bytes to fill the array. */
  predicate Settled(cap: nat, ws: seq<seq<Byte>>) {
    AnyStraddles(cap, ws) ==> SinceLoss(cap, ws) >= cap
  }

  function Agreeing(cap: nat, ws: seq<seq<Byte>>): nat {
    if Settled(cap, ws) then cap else SinceLoss(cap, ws)
  }

  lemma LastAgrees<T>(a: seq<T>, b: seq<T>, p: seq<T>, m: nat, n: nat)
    requires Last(m, a) == Last(m, b) && n <= m + |p|
    ensures Last(n, a + p) == Last(n, b + p)
  {
    if |a| < m || |b| < m {
      assert a == b;
    } else if n > |p| {
      assert a[|a| - m..] == b[|b| - m..];
      assert a[|a| - (n - |p|)..] == a[|a| - m..][m - (n - |p|)..];
      assert b[|b| - (n - |p|)..] == b[|b| - m..][m - (n - |p|)..];
      assert (a + p)[|a| + |p| - n..] == a[|a| - (n - |p|)..] + p;
      assert (b + p)[|b| + |p| - n..] == b[|b| - (n - |p|)..] + p;
    } else {
      assert (a + p)[|a| + |p| - n..] == p[|p| - n..] == (b + p)[|b| + |p| - n..];
    }
  }

  lemma LastOfLong<T>(a: seq<T>, b: seq<T>, p: seq<T>, cap: nat, n: nat)
    requires n <= cap <= |p|
    ensures Last(n, a + p[|p| - cap..]) == Last(n, b + p)
  {
    assert Last(n, b + p) == p[|p| - n..];
    assert Last(n, a + p[|p| - cap..]) == p[|p| - cap..][cap - n..];
  }

  /** The kept stream and the output end alike, as far back as the array reaches or the
      last loss allows. */
  lemma {:induction false} EndsAgree(cap: nat, ws: seq<seq<Byte>>)
    ensures Last(Agreeing(cap, ws), Kept(cap, ws)) == Last(Agreeing(cap, ws), Concat(ws))
  {
    if ws != [] {
      var init, p := ws[..|ws| - 1], ws[|ws| - 1];
      EndsAgree(cap, init);
      if |p| >= cap {
        LastOfLong(Kept(cap, init), Concat(init), p, cap, Agreeing(cap, ws));
      } else if !Straddles(cap, Position(cap, init), |p|) {
        assert KeptPart(cap, Position(cap, init), p) == p;
        LastAgrees(Kept(cap, init), Concat(init), p, Agreeing(cap, init), Agreeing(cap, ws));
      }
    }
  }

  predicate SameLengths(a: seq<seq<Byte>>, b: seq<seq<Byte>>) {
    |a| == |b| && forall i | 0 <= i < |a| :: |a[i]| == |b[i]|
  }

  lemma {:induction false} LengthsDecide(cap: nat, a: seq<seq<Byte>>, b: seq<seq<Byte>>)
    requires SameLengths(a, b)
    ensures Position(cap, a) == Position(cap, b) && AnyStraddles(cap, a) == AnyStraddles(cap, b)
    ensures SinceLoss(cap, a) == SinceLoss(cap, b)
  {
    if a != [] { LengthsDecide(cap, a[..|a| - 1], b[..|b| - 1]); }
  }

  function Fill(n: nat, b: Byte): (s: seq<Byte>)
    ensures |s| == n && forall i | 0 <= i < n :: s[i] == b
  {
    seq(n, i => b)
  }

  /** Writes of the same lengths, with ones for the bytes that are lost to the array's end. */
  function Marked(cap: nat, ws: seq<seq<Byte>>): (r: seq<seq<Byte>>)
    ensures SameLengths(ws, r)
  {
    if ws == [] then []
    else
      var init, len := ws[..|ws| - 1], |ws[|ws| - 1]|;
      var pos := Position(cap, init);
      Marked(cap, init) +
        [if Straddles(cap, pos, len) then Fill(cap - pos, 0) + Fill(len - (cap - pos), 1) else Fill(len, 0)]
  }

  lemma {:induction false} MarksAreLost(cap: nat, ws: seq<seq<Byte>>)
    ensures var m := Marked(cap, ws);
      && (forall b | b in Kept(cap, m) :: b == 0)
      && (AnyStraddles(cap, ws) ==>
            SinceLoss(cap, ws) < |Concat(m)| && Concat(m)[|Concat(m)| - 1 - SinceLoss(cap, ws)] == 1)
  {
    if ws != [] {
      var init, m := ws[..|ws| - 1], Marked(cap, ws);
      assert m[..|m| - 1] == Marked(cap, init);
      LengthsDecide(cap, init, Marked(cap, init));
      MarksAreLost(cap, init);
    }
  }

  predicate IsRight(data: seq<Byte>, ws: seq<seq<Byte>>) {
    Bytes(Run(data, ws)) == Last(|data|, Concat(ws))
  }

  lemma ZerosAndOne(cap: nat, kept: seq<Byte>, all: seq<Byte>, n: nat)
    requires (forall b | b in kept :: b == 0) && n < |all| && all[|all| - 1 - n] == 1 && n < cap
    ensures Last(cap, kept) != Last(cap, all)
  {
    var right, got := Last(cap, all), Last(cap, kept);
    assert right[|right| - 1 - n] == 1;
    forall i | 0 <= i < |got| ensures got[i] == 0 { assert got[i] in kept; }
  }

  lemma UnsettledIsWrong(data: seq<Byte>, ws: seq<seq<Byte>>)
    requires !Settled(|data|, ws)
    ensures !IsRight(data, Marked(|data|, ws))
  {
    hide Kept, Concat, Marked, SinceLoss, AnyStraddles, Bytes, Run, Last, Position;
    var cap, m, n := |data|, Marked(|data|, ws), SinceLoss(|data|, ws);
    MarksAreLost(cap, ws);
    RingIsStreamTail(data, m);
    ZerosAndOne(cap, Kept(cap, m), Concat(m), n);
  }

  /** Whatever the bytes written, the content is the tail of the output, if and only if the
      lengths leave no loss, or enough bytes after it to fill the array. */
  lemma ContentIsRightIffSettled(data: seq<Byte>, ws: seq<seq<Byte>>)
    ensures Settled(|data|, ws) <==>
      forall ws': seq<seq<Byte>> | SameLengths(ws, ws') :: IsRight(data, ws')
  {
    if Settled(|data|, ws) {
      forall ws': seq<seq<Byte>> | SameLengths(ws, ws') ensures IsRight(data, ws') {
        LengthsDecide(|data|, ws, ws');
        EndsAgree(|data|, ws');
        RingIsStreamTail(data, ws');
      }
    } else {
      UnsettledIsWrong(data, ws);
      assert SameLengths(ws, Marked(|data|, ws));
    }
  }

  // ---------------------------------------------------------------------------
  // The follower
  // ---------------------------------------------------------------------------

  datatype Op = Put(p: seq<Byte>) | Poll

  /** A buffer, everything put into it, the offset the follower keeps, the bytes it has
      been sent, and how many non-empty chunks it was sent from a full buffer. */
  datatype Follower = Follower(ring: Ring, puts: seq<seq<Byte>>, last: nat, out: seq<Byte>, late: nat)

  function Step(f: Follower, op: Op): (f': Follower)
    requires f.ring.Valid()
    ensures f'.ring.Valid() && |f'.ring.data| == |f.ring.data|
  {
    match op
    case Put(p) => f.(ring := Write(f.ring, p), puts := f.puts + [p])
    case Poll =>
      var (chunk, total) := SinceOffset(f.ring, f.last);
      if chunk == [] then f
      else f.(last := total, out := f.out + chunk, late := f.late + if f.ring.full then 1 else 0)
  }

  function Follow(data: seq<Byte>, ops: seq<Op>): (f: Follower)
    ensures f.ring.Valid() && |f.ring.data| == |data|
  {
    if ops == [] then Follower(Empty(data), [], 0, [], 0)
    else Step(Follow(data, ops[..|ops| - 1]), ops[|ops| - 1])
  }

  /** Before the buffer fills, the follower holds a prefix of the output. Afterwards it
      received at most one more chunk, the whole array. */
  ghost predicate FollowerInv(f: Follower)
    requires f.ring.Valid()
  {
    var cap := |f.ring.data|;
    && (!f.ring.full ==> f.ring.data[..f.ring.off] == Concat(f.puts) && f.last <= f.ring.off)
    && (f.late == 0 ==> f.last == |f.out| && (f.last < cap || f.last == 0) && f.out <= Concat(f.puts))
    && (f.late != 0 ==> f.late == 1 && f.ring.full && f.last == 2 * cap && |f.out| < 2 * cap)
  }

  lemma ConcatSnoc<T>(ws: seq<seq<T>>, p: seq<T>)
    ensures Concat(ws + [p]) == Concat(ws) + p
  {
    assert (ws + [p])[..|ws|] == ws;
  }

  lemma PollBeforeFull(f: Follower)
    requires f.ring.Valid() && FollowerInv(f) && !f.ring.full
    ensures Step(f, Poll).out == Concat(f.puts) && FollowerInv(Step(f, Poll))
  {
    var r := f.ring;
    if f.last < r.off {
      assert SinceOffset(r, f.last).0 == r.data[f.last..r.off] by {
        ModIs(0, |r.data|, f.last);
        ModIs(0, |r.data|, r.off);
      }
      assert f.out == Concat(f.puts)[..f.last];
      assert f.out + r.data[f.last..r.off] == r.data[..r.off];
    }
  }

  lemma PollWhenFull(f: Follower)
    requires f.ring.Valid() && FollowerInv(f) && f.ring.full
    ensures FollowerInv(Step(f, Poll))
    ensures f.late == 0 && f.ring.data != [] ==> Step(f, Poll).out == f.out + f.ring.data
    ensures f.late != 0 ==> Step(f, Poll) == f
  {
    var cap := |f.ring.data|;
    if f.late == 0 && cap > 0 {
      assert cap % cap == 0 && (2 * cap) % cap == 0 by { ModIs(1, cap, 0); ModIs(2, cap, 0); }
      assert SinceOffset(f.ring, f.last).0 == f.ring.data;
    }
  }

  lemma PutKeepsFollower(f: Follower, p: seq<Byte>)
    requires f.ring.Valid() && FollowerInv(f)
    ensures FollowerInv(Step(f, Put(p)))
  {
    ConcatSnoc(f.puts, p);
    WriteExtendsTail(f.ring, p);
    var f' := Step(f, Put(p));
    if !f'.ring.full {
      assert f'.ring.data[..f'.ring.off] == f.ring.data[..f.ring.off] + p;
    }
  }

  lemma {:induction false} FollowKeepsInv(data: seq<Byte>, ops: seq<Op>)
    ensures FollowerInv(Follow(data, ops))
  {
    if ops != [] {
      var f := Follow(data, ops[..|ops| - 1]);
      FollowKeepsInv(data, ops[..|ops| - 1]);
      match ops[|ops| - 1]
      case Put(p) => PutKeepsFollower(f, p);
      case Poll => if f.ring.full { PollWhenFull(f); } else { PollBeforeFull(f); }
    }
  }

  /** Until the buffer first fills, polls deliver exactly the output: no gap, no repeat. */
  lemma FollowerExactUntilFull(data: seq<Byte>, ops: seq<Op>)
    requires !Follow(data, ops).ring.full
    ensures Follow(data, ops).out <= Concat(Follow(data, ops).puts)
    ensures Follow(data, ops + [Poll]).out == Concat(Follow(data, ops).puts)
  {
    FollowKeepsInv(data, ops);
    PollBeforeFull(Follow(data, ops));
    assert (ops + [Poll])[..|ops|] == ops;
  }

  /** Over any run a full buffer yields at most one chunk, and a follower of a buffer
      of cap bytes receives at most 2 * cap - 1 bytes in all. */
  lemma FollowerBounded(data: seq<Byte>, ops: seq<Op>)
    requires data != []
    ensures Follow(data, ops).late <= 1
    ensures |Follow(data, ops).out| <= 2 * |data| - 1
  {
    FollowKeepsInv(data, ops);
  }

  /** The bound is reached: cap - 1 bytes, a poll, one more byte, a poll. */
  lemma FollowerBoundIsTight(data: seq<Byte>, p: seq<Byte>, b: Byte)
    requires |p| + 1 == |data| && |p| > 0
    ensures |Follow(data, [Put(p), Poll, Put([b]), Poll]).out| == 2 * |data| - 1
  {
    var o1, o2, o3, o4 := Put(p), Poll, Put([b]), Poll;
    var ops := [o1, o2, o3, o4];
    assert ops[..3] == [o1, o2, o3] && [o1, o2, o3][..2] == [o1, o2] && [o1, o2][..1] == [o1];
    var f1 := Follow(data, [o1]);
    assert f1 == Step(Follow(data, []), o1);
    FollowKeepsInv(data, [o1]);
    ConcatSnoc([], p);
    assert [] + [p] == [p];
    PollBeforeFull(f1);
    var f2 := Follow(data, [o1, o2]);
    assert f2 == Step(f1, o2);
    var f3 := Follow(data, [o1, o2, o3]);
    assert f3 == Step(f2, o3);
    assert f3.ring.full && f3.late == 0;
    FollowKeepsInv(data, [o1, o2, o3]);
    PollWhenFull(f3);
    assert Follow(data, ops) == Step(f3, o4);
  }

  /** The chunk from a full buffer is the array in array order: the buffer's contents
      rotated, so it is in output order when the write position is 0. */
  lemma LateChunkIsRotated(r: Ring, last: nat)
    requires r.Valid() && r.full && last < |r.data|
    ensures SinceOffset(r, last).0 ==
      Bytes(r)[|r.data| - r.off..] + Bytes(r)[..|r.data| - r.off]
  {
    var cap := |r.data|;
    assert cap % cap == 0 && (2 * cap) % cap == 0 by { ModIs(1, cap, 0); ModIs(2, cap, 0); }
    assert SinceOffset(r, last).0 == r.data;
  }

  // ---------------------------------------------------------------------------
  // The buffer as the program has it
  // ---------------------------------------------------------------------------

  /** The offset after a write up to the array's end. */
  function Wrapped(pos: nat, cap: nat): (r: nat)
    requires 0 < pos == cap
    ensures r == 0
  {
    pos % cap
  }

  class Buffer {
    const data: array<Byte>
    var off: nat
    var full: bool

    ghost function View(): Ring
      reads this, data
    {
      Ring(data[..], off, full)
    }

    constructor (cap: nat)
      ensures fresh(data) && data.Length == cap
      ensures View() == Empty(data[..])
    {
      data := new Byte[cap](_ => 0);
      off, full := 0, false;
    }

    method Put(p: seq<Byte>)
      requires View().Valid()
      modifies this, data
      ensures View() == Write(old(View()), p)
    {
      var cap := data.Length;
      if |p| >= cap {
        forall i | 0 <= i < cap { data[i] := p[|p| - cap + i]; }
        full := true;
        off := 0;
        assert data[..] == p[|p| - cap..];
        return;
      }
      var n := Room(cap, off, |p|);
      forall i | 0 <= i < n { data[off + i] := p[i]; }
      assert data[..] == old(data[..off]) + p[..n] + old(data[..])[off + n..];
      if off + n >= cap {
        off := Wrapped(off + n, cap);
        full := true;
      } else {
        off := off + n;
      }
    }

    method Contents() returns (s: seq<Byte>)
      requires View().Valid()
      ensures s == Bytes(View())
    {
      if !full { return data[..off]; }
      s := data[off..] + data[..off];
    }

    method Since(last: nat) returns (chunk: seq<Byte>, total: nat)
      requires View().Valid()
      ensures (chunk, total) == SinceOffset(View(), last)
    {
      var cap := data.Length;
      var cur := off;
      if full { cur := 2 * cap; }
      if cur <= last { return [], last; }
      var added := cur - last;
      if added > cap { added := cap; }
      var start, end := (cur - added) % cap, cur % cap;
      if start < end {
        chunk := data[start..end];
      } else {
        chunk := data[start..] + data[..end];
      }
      total := cur;
    }
  }
}
