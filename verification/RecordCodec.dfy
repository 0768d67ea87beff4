/** The laws assumed of the log's codec can be met: a plain code for log records, numbers in
    unary, that has them all. It stands for no part of the program. */
module RecordCodec {
  import opened Process
  import opened Sequences
  import opened Journal
  import opened Framing

  // ---------------------------------------------------------------------------
  // A record as a list of strings and a list of numbers
  // ---------------------------------------------------------------------------

  ghost function Listed(env: Env): seq<string> {
    if env == map[] then []
    else
      var k :| k in env;
      [k, env[k]] + Listed(env - {k})
  }

  lemma {:induction false} ListedIsInjective(a: Env, b: Env)
    requires Listed(a) == Listed(b)
    ensures a == b
    decreases a.Keys
  {
    if a != map[] && b != map[] {
      var k := Listed(a)[0];
      assert k in a && k in b && a[k] == Listed(a)[1] == b[k];
      assert Listed(a - {k}) == Listed(a)[2..] == Listed(b - {k});
      ListedIsInjective(a - {k}, b - {k});
      assert a == (a - {k})[k := a[k]] && b == (b - {k})[k := b[k]];
    }
  }

  datatype Fields = Fields(strings: seq<string>, numbers: seq<int>)

  function StateNumber(s: PState): int {
    match s
    case Unspecified => 0 case New => 1 case Ready => 2 case Running => 3 case Paused => 4
    case Migrating => 5 case Exited => 6 case Stopped => 7 case Restarting => 8
  }

  function ResourceNumbers(r: Option<Resources>): seq<int> {
    match r
    case None => [0, 0, 0, 0, 0, 0]
    case Some(v) => [1, v.cpuShares, v.cpuQuotaPct, v.memLimit, v.ioWeight, v.pidsLimit]
  }

  ghost function ProgramFields(p: Program): Fields {
    Fields([p.tenant, p.execPath, p.workingDir, p.stateDumpPath] + (Listed(p.env) + p.argv),
           [p.maxRestarts, |Listed(p.env)|] + ResourceNumbers(p.resources))
  }

  lemma ProgramFieldsAreInjective(p: Program, q: Program)
    requires ProgramFields(p) == ProgramFields(q)
    ensures p == q
  {
    var x, y := ProgramFields(p), ProgramFields(q);
    assert x.strings[0] == y.strings[0] && x.strings[1] == y.strings[1];
    assert x.strings[2] == y.strings[2] && x.strings[3] == y.strings[3];
    assert x.numbers[0] == y.numbers[0] && x.numbers[1] == y.numbers[1];
    var n := |Listed(p.env)|;
    assert x.strings[4..] == Listed(p.env) + p.argv && y.strings[4..] == Listed(q.env) + q.argv;
    assert x.strings[4..][..n] == Listed(p.env) && y.strings[4..][..n] == Listed(q.env);
    assert x.strings[4..][n..] == p.argv && y.strings[4..][n..] == q.argv;
    ListedIsInjective(p.env, q.env);
    assert x.numbers[2..] == ResourceNumbers(p.resources) && y.numbers[2..] == ResourceNumbers(q.resources);
    ResourcesAreInjective(p.resources, q.resources);
  }

  lemma ResourcesAreInjective(a: Option<Resources>, b: Option<Resources>)
    requires ResourceNumbers(a) == ResourceNumbers(b)
    ensures a == b
  {
    var x, y := ResourceNumbers(a), ResourceNumbers(b);
    assert x[0] == y[0] && x[1] == y[1] && x[2] == y[2] && x[3] == y[3] && x[4] == y[4] && x[5] == y[5];
  }

  ghost function InfoFields(i: Info): Fields {
    var p := ProgramFields(i.program);
    Fields([i.id, i.lord] + p.strings,
           [StateNumber(i.state), i.localPid, i.exitCode, i.exitSignal, i.restarts] + p.numbers)
  }

  lemma InfoFieldsAreInjective(i: Info, j: Info)
    requires InfoFields(i) == InfoFields(j)
    ensures i == j
  {
    var x, y := InfoFields(i), InfoFields(j);
    assert x.strings[0] == y.strings[0] && x.strings[1] == y.strings[1];
    assert x.strings[2..] == ProgramFields(i.program).strings && y.strings[2..] == ProgramFields(j.program).strings;
    assert x.numbers[0] == y.numbers[0] && x.numbers[1] == y.numbers[1] && x.numbers[2] == y.numbers[2];
    assert x.numbers[3] == y.numbers[3] && x.numbers[4] == y.numbers[4];
    assert x.numbers[5..] == ProgramFields(i.program).numbers && y.numbers[5..] == ProgramFields(j.program).numbers;
    hide ProgramFields;
    ProgramFieldsAreInjective(i.program, j.program);
  }

  ghost function RecordFields(r: Record): Fields {
    var i := if r.info.Some? then InfoFields(r.info.value) else Fields([], []);
    Fields([r.kind, r.processId, r.stateName, r.lord] + i.strings,
           [r.localPid, r.exitCode, r.exitSignal, if r.info.Some? then 1 else 0] + i.numbers)
  }

  lemma RecordFieldsAreInjective(r: Record, s: Record)
    requires RecordFields(r) == RecordFields(s)
    ensures r == s
  {
    hide InfoFields;
    var x, y := RecordFields(r), RecordFields(s);
    assert x.strings[0] == y.strings[0] && x.strings[1] == y.strings[1];
    assert x.strings[2] == y.strings[2] && x.strings[3] == y.strings[3];
    assert x.numbers[0] == y.numbers[0] && x.numbers[1] == y.numbers[1];
    assert x.numbers[2] == y.numbers[2] && x.numbers[3] == y.numbers[3];
    if r.info.Some? {
      assert x.strings[4..] == InfoFields(r.info.value).strings && y.strings[4..] == InfoFields(s.info.value).strings;
      assert x.numbers[4..] == InfoFields(r.info.value).numbers && y.numbers[4..] == InfoFields(s.info.value).numbers;
      InfoFieldsAreInjective(r.info.value, s.info.value);
    }
  }

  // ---------------------------------------------------------------------------
  // Lists as naturals
  // ---------------------------------------------------------------------------

  function Natural(n: int): nat { if n >= 0 then 2 * n else -2 * n - 1 }

  function Naturals(ns: seq<int>): seq<nat> { seq(|ns|, i requires 0 <= i < |ns| => Natural(ns[i])) }

  lemma NaturalsAreInjective(a: seq<int>, b: seq<int>)
    requires Naturals(a) == Naturals(b)
    ensures a == b
  {
    assert |Naturals(a)| == |Naturals(b)|;
    forall i | 0 <= i < |a| ensures a[i] == b[i] { assert Naturals(a)[i] == Naturals(b)[i]; }
  }

  function Chars(s: string): (r: seq<nat>)
    ensures |r| == |s|
  {
    seq(|s|, i requires 0 <= i < |s| => s[i] as nat)
  }

  lemma CharsAreInjective(s: string, t: string)
    requires Chars(s) == Chars(t)
    ensures s == t
  {
    assert |Chars(s)| == |Chars(t)|;
    forall i | 0 <= i < |s| ensures s[i] == t[i] { assert Chars(s)[i] == Chars(t)[i]; }
  }

  function Strings(ss: seq<string>): seq<nat> {
    if ss == [] then [] else [|ss[0]|] + Chars(ss[0]) + Strings(ss[1..])
  }

  lemma StringsCons(a: seq<string>, x: seq<nat>)
    requires a != []
    ensures Strings(a) + x == [|a[0]|] + (Chars(a[0]) + (Strings(a[1..]) + x))
  {
  }

  lemma Prefixed(u: seq<nat>, v: seq<nat>, w: seq<nat>, z: seq<nat>)
    requires [|u|] + (u + v) == [|w|] + (w + z)
    ensures u == w && v == z
  {
    var p, q := [|u|] + (u + v), [|w|] + (w + z);
    assert p[0] == q[0] && p[1..] == u + v && q[1..] == w + z;
    assert u == p[1..][..|u|] && v == p[1..][|u|..];
  }

  lemma {:induction false} StringsSplit(a: seq<string>, b: seq<string>, x: seq<nat>, y: seq<nat>)
    requires |a| == |b| && Strings(a) + x == Strings(b) + y
    ensures a == b && x == y
  {
    if a == [] {
      assert Strings(a) + x == x && Strings(b) + y == y;
    } else {
      StringsCons(a, x);
      StringsCons(b, y);
      hide Strings, Chars;
      Prefixed(Chars(a[0]), Strings(a[1..]) + x, Chars(b[0]), Strings(b[1..]) + y);
      CharsAreInjective(a[0], b[0]);
      StringsSplit(a[1..], b[1..], x, y);
      assert a == [a[0]] + a[1..] && b == [b[0]] + b[1..];
    }
  }

  function Tokens(f: Fields): seq<nat> {
    [|f.strings|] + (Strings(f.strings) + Naturals(f.numbers))
  }

  lemma TokensAreInjective(f: Fields, g: Fields)
    requires Tokens(f) == Tokens(g)
    ensures f == g
  {
    assert Tokens(f)[0] == Tokens(g)[0];
    assert Tokens(f)[1..] == Strings(f.strings) + Naturals(f.numbers);
    assert Tokens(g)[1..] == Strings(g.strings) + Naturals(g.numbers);
    StringsSplit(f.strings, g.strings, Naturals(f.numbers), Naturals(g.numbers));
    NaturalsAreInjective(f.numbers, g.numbers);
  }

  // ---------------------------------------------------------------------------
  // Naturals as bytes
  // ---------------------------------------------------------------------------

  const ONE: Byte := 1
  const STOP: Byte := 2
  const END: Byte := 3

  /** Each number in unary, and an end mark. */
  function Unary(ns: seq<nat>): (s: seq<Byte>)
    ensures |s| > 0 && s[|s| - 1] == END && forall i | 0 <= i < |s| - 1 :: s[i] in {ONE, STOP}
    decreases |ns|, if ns == [] then 0 else ns[0]
  {
    if ns == [] then [END]
    else if ns[0] == 0 then [STOP] + Unary(ns[1..])
    else [ONE] + Unary([ns[0] - 1] + ns[1..])
  }

  lemma {:induction false} UnaryIsInjective(a: seq<nat>, b: seq<nat>)
    requires Unary(a) == Unary(b)
    ensures a == b
    decreases |a|, if a == [] then 0 else a[0]
  {
    if a == [] || b == [] {
      assert Unary(a)[0] == Unary(b)[0];
    } else {
      assert Unary(a)[0] == Unary(b)[0];
      if a[0] == 0 {
        assert Unary(a)[1..] == Unary(a[1..]) && Unary(b)[1..] == Unary(b[1..]);
        UnaryIsInjective(a[1..], b[1..]);
      } else {
        var x, y := [a[0] - 1] + a[1..], [b[0] - 1] + b[1..];
        assert Unary(a)[1..] == Unary(x) && Unary(b)[1..] == Unary(y);
        UnaryIsInjective(x, y);
        assert x[0] == y[0] && x[1..] == a[1..] && y[1..] == b[1..];
      }
      assert a == [a[0]] + a[1..] && b == [b[0]] + b[1..];
    }
  }

  ghost function Encode(r: Record): seq<Byte> { Unary(Tokens(RecordFields(r))) }

  ghost function Decode(s: seq<Byte>): Option<Record> {
    if exists r :: Encode(r) == s then
      var r :| Encode(r) == s;
      Some(r)
    else None
  }

  lemma EncodeIsInjective(r: Record, s: Record)
    requires Encode(r) == Encode(s)
    ensures r == s
  {
    UnaryIsInjective(Tokens(RecordFields(r)), Tokens(RecordFields(s)));
    TokensAreInjective(RecordFields(r), RecordFields(s));
    RecordFieldsAreInjective(r, s);
  }

  lemma NoEndNoRecord(s: seq<Byte>)
    requires END !in s
    ensures Decode(s) == None
  {
    forall r ensures Encode(r) != s {
      var e := Encode(r);
      assert END == e[|e| - 1] && END in e;
    }
  }

  /** There is a codec of log records that meets the laws. */
  lemma LawsHaveAModel() returns (c: Codec<Record>)
    ensures Lawful(c)
  {
    c := Codec(r => Encode(r), s => Decode(s));
    forall r ensures Decode(Encode(r)) == Some(r) {
      var s := Decode(Encode(r)).value;
      EncodeIsInjective(r, s);
    }
    forall r ensures NL !in Encode(r) && CR !in Encode(r) {}
    forall r, k | 0 <= k < |Encode(r)| ensures Decode(Encode(r)[..k]) == None {
      NoEndNoRecord(Encode(r)[..k]);
    }
    forall k | 0 <= k <= |HEADER| ensures Decode(HEADER[..k]) == None {
      NoEndNoRecord(HEADER[..k]);
    }
  }
}
