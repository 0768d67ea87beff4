/** The log file as bytes: one encoded record a line, read back by a line scanner. */
module Framing {
  import opened Process
  import opened Sequences

  const NL: Byte := 10
  const CR: Byte := 13

  /** "ETRONIUM_WAL_v1" */
  const HEADER: seq<Byte> := [69, 84, 82, 79, 78, 73, 85, 77, 95, 87, 65, 76, 95, 118, 49]

  /** The record codec is a parameter: the JSON library is not modelled. */
  datatype Codec<!R> = Codec(enc: R -> seq<Byte>, dec: seq<Byte> -> Option<R>)

  /** What the log needs of the codec: it round-trips, an encoding holds no line break,
      a strict prefix of an encoding does not decode, and neither does the header. */
  ghost predicate Lawful<R(!new)>(c: Codec<R>) {
    && (forall r :: c.dec(c.enc(r)) == Some(r))
    && (forall r :: NL !in c.enc(r) && CR !in c.enc(r))
    && (forall r, k | 0 <= k < |c.enc(r)| :: c.dec(c.enc(r)[..k]) == None)
    && (forall k | 0 <= k <= |HEADER| :: c.dec(HEADER[..k]) == None)
  }

  // ---------------------------------------------------------------------------
  // Reading
  // ---------------------------------------------------------------------------

  function DropCR(line: seq<Byte>): (r: seq<Byte>)
    ensures r <= line
  {
    if line != [] && line[|line| - 1] == CR then line[..|line| - 1] else line
  }

  /** The position of the first line break, or the length when there is none. */
  function LineEnd(file: seq<Byte>): (n: nat)
    ensures n <= |file| && NL !in file[..n]
    ensures n < |file| ==> file[n] == NL
  {
    if file == [] || file[0] == NL then 0
    else
      var n := LineEnd(file[1..]);
      assert file[..n + 1] == [file[0]] + file[1..][..n];
      n + 1
  }

  lemma LineEndUnique(file: seq<Byte>, n: nat)
    requires n <= |file| && NL !in file[..n] && (n < |file| ==> file[n] == NL)
    ensures LineEnd(file) == n
  {
    if n > 0 {
      assert file[..n][0] == file[0];
      assert file[1..][..n - 1] == file[..n][1..];
      LineEndUnique(file[1..], n - 1);
    }
  }

  /** The scanner's lines: a last line without a line break counts, an empty one does not. */
  function ScanLines(file: seq<Byte>): seq<seq<Byte>> {
    if file == [] then []
    else
      var n := LineEnd(file);
      [DropCR(file[..n])] + if n == |file| then [] else ScanLines(file[n + 1..])
  }

  function DecodeAll<R>(c: Codec<R>, lines: seq<seq<Byte>>): seq<R> {
    if lines == [] then []
    else (match c.dec(lines[0]) case Some(r) => [r] case None => []) + DecodeAll(c, lines[1..])
  }

  /** The records a reader finds: a first line equal to the header is passed over, as are
      lines that do not decode. */
  function ReadRecords<R>(c: Codec<R>, file: seq<Byte>): seq<R> {
    var lines := ScanLines(file);
    DecodeAll(c, if lines != [] && lines[0] == HEADER then lines[1..] else lines)
  }

  lemma DecodeAllSnoc<R>(c: Codec<R>, lines: seq<seq<Byte>>, line: seq<Byte>)
    ensures DecodeAll(c, lines + [line]) ==
      DecodeAll(c, lines) + match c.dec(line) case Some(r) => [r] case None => []
  {
    if lines != [] {
      assert (lines + [line])[1..] == lines[1..] + [line];
      DecodeAllSnoc(c, lines[1..], line);
    } else {
      assert (lines + [line])[1..] == [];
    }
  }

  // ---------------------------------------------------------------------------
  // Writing
  // ---------------------------------------------------------------------------

  /** A line of the file: an appended record, or bytes that no reader takes for one. */
  datatype Line<R> = Appended(rec: R) | Noise(bytes: seq<Byte>)

  ghost predicate Inert<R>(c: Codec<R>, bytes: seq<Byte>) {
    NL !in bytes && forall k | 0 <= k <= |bytes| :: c.dec(bytes[..k]) == None
  }

  ghost predicate Readable<R>(c: Codec<R>, lines: seq<Line<R>>) {
    forall l | l in lines :: l.Noise? ==> Inert(c, l.bytes)
  }

  function LineBytes<R>(c: Codec<R>, l: Line<R>): seq<Byte> {
    match l case Appended(r) => c.enc(r) case Noise(b) => b
  }

  function File<R>(c: Codec<R>, lines: seq<Line<R>>): seq<Byte> {
    if lines == [] then [] else LineBytes(c, lines[0]) + [NL] + File(c, lines[1..])
  }

  function Records<R>(lines: seq<Line<R>>): seq<R> {
    if lines == [] then []
    else (match lines[0] case Appended(r) => [r] case Noise(_) => []) + Records(lines[1..])
  }

  /** Appending a record to the file appends one line. */
  lemma {:induction false} FileSnoc<R>(c: Codec<R>, lines: seq<Line<R>>, r: R)
    ensures File(c, lines + [Appended(r)]) == File(c, lines) + c.enc(r) + [NL]
    ensures Records(lines + [Appended(r)]) == Records(lines) + [r]
  {
    if lines == [] {
      assert (lines + [Appended(r)])[1..] == [];
    } else {
      assert (lines + [Appended(r)])[1..] == lines[1..] + [Appended(r)];
      FileSnoc(c, lines[1..], r);
    }
  }

  // ---------------------------------------------------------------------------
  // Crash consistency
  // ---------------------------------------------------------------------------

  /** How many records lie complete within the first n bytes of the file. A record whose
      line break alone is missing is complete. */
  function Survivors<R>(c: Codec<R>, lines: seq<Line<R>>, n: nat): (k: nat)
    ensures k <= |Records(lines)|
  {
    if lines == [] then 0
    else
      var len := |LineBytes(c, lines[0])|;
      if n < len then 0
      else (if lines[0].Appended? then 1 else 0) + if n == len then 0 else Survivors(c, lines[1..], n - len - 1)
  }

  lemma HeaderIsPassedOver<R(!new)>(c: Codec<R>, file: seq<Byte>)
    requires Lawful(c)
    ensures ReadRecords(c, file) == DecodeAll(c, ScanLines(file))
  {
    assert HEADER[..|HEADER|] == HEADER;
  }

  lemma LineDecodes<R(!new)>(c: Codec<R>, l: Line<R>, n: nat)
    requires Lawful(c) && Readable(c, [l]) && n <= |LineBytes(c, l)|
    ensures var cut := DropCR(LineBytes(c, l)[..n]);
      c.dec(cut) == if l.Appended? && n == |LineBytes(c, l)| then Some(l.rec) else None
  {
    assert l in [l];
    var b := LineBytes(c, l);
    var cut := DropCR(b[..n]);
    assert cut == b[..|cut|];
    if l.Appended? && n == |b| {
      assert b[..n] == b;
      assert cut == b by { if b != [] { assert b[|b| - 1] in b; } }
    }
  }

  /** A cut within the first line, and one beyond its line break, as the scanner sees them. */
  lemma ScanCut(b: seq<Byte>, rest: seq<Byte>, n: nat)
    requires NL !in b && n <= |b| + 1 + |rest|
    ensures n == 0 ==> ScanLines((b + [NL] + rest)[..n]) == []
    ensures 0 < n <= |b| ==> ScanLines((b + [NL] + rest)[..n]) == [DropCR(b[..n])]
    ensures n > |b| ==>
      ScanLines((b + [NL] + rest)[..n]) == [DropCR(b)] + ScanLines(rest[..n - |b| - 1])
  {
    var cut := (b + [NL] + rest)[..n];
    if n <= |b| {
      assert cut == b[..n] == cut[..n];
      LineEndUnique(cut, n);
    } else {
      assert cut[..|b|] == b && cut[|b|] == NL;
      LineEndUnique(cut, |b|);
      assert cut[|b| + 1..] == rest[..n - |b| - 1];
    }
  }

  lemma DecodeAllCons<R>(c: Codec<R>, line: seq<Byte>, lines: seq<seq<Byte>>)
    ensures DecodeAll(c, [line] + lines) ==
      (match c.dec(line) case Some(r) => [r] case None => []) + DecodeAll(c, lines)
  {
    assert ([line] + lines)[1..] == lines;
  }

  lemma LineIsClean<R(!new)>(c: Codec<R>, l: Line<R>)
    requires Lawful(c) && Readable(c, [l])
    ensures NL !in LineBytes(c, l) && (l.Appended? ==> LineBytes(c, l) != [])
  {
    assert l in [l];
    assert HEADER[..0] == [];
  }

  lemma CutFirstLine<R(!new)>(c: Codec<R>, l: Line<R>, rest: seq<Byte>, n: nat)
    requires Lawful(c) && Readable(c, [l])
    requires n <= |LineBytes(c, l)| + 1 + |rest|
    ensures var b := LineBytes(c, l);
      DecodeAll(c, ScanLines((b + [NL] + rest)[..n])) ==
        (if l.Appended? && n >= |b| then [l.rec] else [])
        + if n <= |b| then [] else DecodeAll(c, ScanLines(rest[..n - |b| - 1]))
  {
    var b := LineBytes(c, l);
    LineIsClean(c, l);
    ScanCut(b, rest, n);
    LineDecodes(c, l, if n <= |b| then n else |b|);
    if 0 < n <= |b| {
      DecodeAllCons(c, DropCR(b[..n]), []);
    } else if n > |b| {
      assert b[..|b|] == b;
      DecodeAllCons(c, DropCR(b), ScanLines(rest[..n - |b| - 1]));
    }
  }

  lemma CutCons<R>(c: Codec<R>, lines: seq<Line<R>>, n: nat, found: seq<R>, later: seq<R>)
    requires lines != []
    requires found == (if lines[0].Appended? && n >= |LineBytes(c, lines[0])| then [lines[0].rec] else []) + later
    requires n <= |LineBytes(c, lines[0])| ==> later == []
    requires n > |LineBytes(c, lines[0])| ==>
      later == Records(lines[1..])[..Survivors(c, lines[1..], n - |LineBytes(c, lines[0])| - 1)]
    ensures found == Records(lines)[..Survivors(c, lines, n)]
  {
  }

  lemma ReadableSplit<R>(c: Codec<R>, lines: seq<Line<R>>)
    requires lines != [] && Readable(c, lines)
    ensures Readable(c, [lines[0]]) && Readable(c, lines[1..])
  {
  }

  /** Cut the file anywhere: the reader finds exactly the records complete before the cut. */
  lemma {:induction false} CutFile<R(!new)>(c: Codec<R>, lines: seq<Line<R>>, n: nat)
    requires Lawful(c) && Readable(c, lines) && n <= |File(c, lines)|
    ensures DecodeAll(c, ScanLines(File(c, lines)[..n])) == Records(lines)[..Survivors(c, lines, n)]
  {
    if lines != [] {
      ReadableSplit(c, lines);
      CutFirstLine(c, lines[0], File(c, lines[1..]), n);
      var left := n - |LineBytes(c, lines[0])| - 1;
      if left >= 0 { CutFile(c, lines[1..], left); }
      var later := if left < 0 then [] else DecodeAll(c, ScanLines(File(c, lines[1..])[..left]));
      CutCons(c, lines, n, DecodeAll(c, ScanLines(File(c, lines)[..n])), later);
    }
  }

  /** A file that starts with the header line, or without it. */
  function Image<R>(c: Codec<R>, header: bool, lines: seq<Line<R>>): seq<Byte> {
    (if header then HEADER + [NL] else []) + File(c, lines)
  }

  /** The same for such a file; a cut within the header line keeps no record. */
  function SurvivorsIn<R>(c: Codec<R>, header: bool, lines: seq<Line<R>>, n: nat): nat {
    if !header then Survivors(c, lines, n)
    else if n <= |HEADER| then 0
    else Survivors(c, lines, n - |HEADER| - 1)
  }

  lemma HeaderLine<R(!new)>(c: Codec<R>, lines: seq<Line<R>>, n: nat)
    requires Lawful(c) && Readable(c, lines)
    ensures Readable(c, [Noise(HEADER)] + lines)
    ensures File(c, [Noise(HEADER)] + lines) == Image(c, true, lines)
    ensures Records([Noise(HEADER)] + lines) == Records(lines)
    ensures Survivors(c, [Noise(HEADER)] + lines, n) == SurvivorsIn(c, true, lines, n)
  {
    var all := [Noise(HEADER)] + lines;
    assert all[0] == Noise(HEADER) && all[1..] == lines;
    assert NL !in HEADER;
  }

  /** With or without the header line, and with undecodable lines among the records, every
      cut reads back as a prefix of the records: those complete before the cut. */
  lemma CrashConsistency<R(!new)>(c: Codec<R>, header: bool, lines: seq<Line<R>>, n: nat)
    requires Lawful(c) && Readable(c, lines) && n <= |Image(c, header, lines)|
    ensures SurvivorsIn(c, header, lines, n) <= |Records(lines)|
    ensures ReadRecords(c, Image(c, header, lines)[..n]) == Records(lines)[..SurvivorsIn(c, header, lines, n)]
  {
    HeaderIsPassedOver(c, Image(c, header, lines)[..n]);
    if header {
      HeaderLine(c, lines, n);
      CutFile(c, [Noise(HEADER)] + lines, n);
    } else {
      assert Image(c, header, lines) == File(c, lines);
      CutFile(c, lines, n);
    }
  }

  lemma {:induction false} SurvivorsSnoc<R>(c: Codec<R>, lines: seq<Line<R>>, r: R, k: nat)
    requires k <= |c.enc(r)| && c.enc(r) != []
    ensures Survivors(c, lines + [Appended(r)], |File(c, lines)| + k) ==
            |Records(lines)| + if k == |c.enc(r)| then 1 else 0
  {
    var all := lines + [Appended(r)];
    if lines == [] {
      assert all[0] == Appended(r) && all[1..] == [];
    } else {
      assert all[0] == lines[0] && all[1..] == lines[1..] + [Appended(r)];
      SurvivorsSnoc(c, lines[1..], r, k);
    }
  }

  lemma EncodingNotEmpty<R(!new)>(c: Codec<R>, r: R)
    requires Lawful(c)
    ensures c.enc(r) != []
  {
    assert HEADER[..0] == [];
  }

  lemma ReadableSnoc<R>(c: Codec<R>, lines: seq<Line<R>>, r: R)
    requires Readable(c, lines)
    ensures Readable(c, lines + [Appended(r)])
  {
  }

  lemma CutInLast<T>(a: seq<T>, b: seq<T>, c: seq<T>, k: nat)
    requires k <= |b|
    ensures (a + b + c)[..|a| + k] == a + b[..k]
  {
  }

  lemma ImageSnoc<R>(c: Codec<R>, header: bool, lines: seq<Line<R>>, r: R)
    ensures Image(c, header, lines + [Appended(r)]) == Image(c, header, lines) + c.enc(r) + [NL]
  {
    FileSnoc(c, lines, r);
    var h := if header then HEADER + [NL] else [];
    assert h + (File(c, lines) + c.enc(r) + [NL]) == h + File(c, lines) + c.enc(r) + [NL];
  }

  lemma SurvivorsInSnoc<R>(c: Codec<R>, header: bool, lines: seq<Line<R>>, r: R, k: nat)
    requires k <= |c.enc(r)| && c.enc(r) != []
    ensures SurvivorsIn(c, header, lines + [Appended(r)], |Image(c, header, lines)| + k) ==
            |Records(lines)| + if k == |c.enc(r)| then 1 else 0
  {
    hide *;
    SurvivorsSnoc(c, lines, r, k);
    ImageLength(c, header, lines);
    SurvivorsBehindHeader(c, header, lines + [Appended(r)], |File(c, lines)| + k);
  }

  function HeaderLength(header: bool): nat { if header then |HEADER| + 1 else 0 }

  lemma SurvivorsBehindHeader<R>(c: Codec<R>, header: bool, lines: seq<Line<R>>, n: nat)
    ensures SurvivorsIn(c, header, lines, HeaderLength(header) + n) == Survivors(c, lines, n)
  {
    hide Survivors;
  }

  lemma ImageLength<R>(c: Codec<R>, header: bool, lines: seq<Line<R>>)
    ensures |Image(c, header, lines)| == HeaderLength(header) + |File(c, lines)|
  {
    hide File;
  }

  /** A crash in the middle of an append: the record in the unfinished last line is lost,
      or kept if its line break alone is missing; all before it are found. */
  lemma TornTail<R(!new)>(c: Codec<R>, header: bool, lines: seq<Line<R>>, r: R, k: nat)
    requires Lawful(c) && Readable(c, lines) && k <= |c.enc(r)|
    ensures ReadRecords(c, Image(c, header, lines) + c.enc(r)[..k]) ==
            Records(lines) + if k == |c.enc(r)| then [r] else []
  {
    hide *;
    var all := lines + [Appended(r)];
    EncodingNotEmpty(c, r);
    ReadableSnoc(c, lines, r);
    SurvivorsInSnoc(c, header, lines, r, k);
    ImageSnoc(c, header, lines, r);
    CutInLast(Image(c, header, lines), c.enc(r), [NL], k);
    FileSnoc(c, lines, r);
    CrashConsistency(c, header, all, |Image(c, header, lines)| + k);
  }

  lemma {:induction false} AllSurvive<R>(c: Codec<R>, lines: seq<Line<R>>)
    ensures Survivors(c, lines, |File(c, lines)|) == |Records(lines)|
  {
    if lines != [] { AllSurvive(c, lines[1..]); }
  }

  lemma AllSurviveIn<R>(c: Codec<R>, header: bool, lines: seq<Line<R>>)
    ensures SurvivorsIn(c, header, lines, |Image(c, header, lines)|) == |Records(lines)|
  {
    hide *;
    AllSurvive(c, lines);
    ImageLength(c, header, lines);
    SurvivorsBehindHeader(c, header, lines, |File(c, lines)|);
  }

  /** The uncut file gives back every record. */
  lemma IntactFile<R(!new)>(c: Codec<R>, header: bool, lines: seq<Line<R>>)
    requires Lawful(c) && Readable(c, lines)
    ensures ReadRecords(c, Image(c, header, lines)) == Records(lines)
  {
    hide *;
    var file := Image(c, header, lines);
    CrashConsistency(c, header, lines, |file|);
    AllSurviveIn(c, header, lines);
    assert file[..|file|] == file;
  }
}
