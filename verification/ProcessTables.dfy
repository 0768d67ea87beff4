/** The log, the table and its entries as the program has them: objects updated in place,
    each update proved against the functions of Journal. */
module ProcessTables {
  import opened Process
  import opened Sequences
  import opened Journal
  import opened Framing
  import Lifecycle

  /** The log file, open for appending. */
  class Wal {
    const codec: Codec<Record>
    var file: seq<Byte>
    ghost var header: bool
    ghost var lines: seq<Line<Record>>

    ghost predicate Valid()
      reads this
    {
      file == Image(codec, header, lines)
    }

    ghost function Log(): seq<Record>
      reads this
    {
      Records(lines)
    }

    constructor (codec: Codec<Record>, file: seq<Byte>, ghost header: bool, ghost lines: seq<Line<Record>>)
      ensures this.codec == codec && this.file == file && this.header == header && this.lines == lines
    {
      this.codec, this.file, this.header, this.lines := codec, file, header, lines;
    }

    method Append(r: Record)
      requires Valid()
      modifies this
      ensures Valid() && header == old(header)
      ensures file == old(file) + codec.enc(r) + [NL]
      ensures Log() == old(Log()) + [r]
    {
      ImageSnoc(codec, header, lines, r);
      FileSnoc(codec, lines, r);
      hide Image, File, Records;
      var line := codec.enc(r) + [NL];
      assert file + line == file + codec.enc(r) + [NL];
      file := file + line;
      lines := lines + [Appended(r)];
    }
  }

  class ProcessEntry {
    const table: ProcessTable
    var info: Info
    var closes: nat
    ghost var hist: seq<PState>

    ghost function View(): Entry
      reads this
    {
      Entry(info, closes, hist)
    }

    constructor (table: ProcessTable, info: Info)
      ensures this.table == table && View() == NewEntry(info)
    {
      this.table, this.info, this.closes, this.hist := table, info, 0, [info.state];
    }

    ghost predicate Member()
      reads this, table, table.entries, table.wal
    {
      table.Valid() && info.id in table.byID && table.byID[info.id] == this
    }

    /** Overwrite the fields, keeping the id. */
    method Replace(i: Info, c: nat, ghost h: seq<PState>)
      requires Member() && i.id == info.id
      modifies this, table`core
      ensures Member() && View() == Entry(i, c, h)
      ensures table.core == old(table.core).(table := old(table.core.table)[i.id := Entry(i, c, h)])
    {
      info, closes, hist := i, c, h;
      table.core := table.core.(table := table.core.table[i.id := Entry(i, c, h)]);
    }

    /** Log the change, make it, and close `exited` on the first final state. */
    method UpdateState(st: PState, lord: LordId, localPid: int)
      requires Member()
      modifies this, table`core, table.wal
      ensures Member() && info.id == old(info.id)
      ensures table.core == table.Seen(Journal.UpdateState(old(table.core), old(info.id), st, lord, localPid))
    {
      ghost var next := SetState(View(), st, lord, localPid);
      assert View() == table.core.table[info.id];
      table.Note(StateRecord(info.id, st, lord, localPid));
      var i := info.(state := st);
      if lord != "" { i := i.(lord := lord); }
      if localPid != 0 { i := i.(localPid := localPid); }
      var c := if Final(st) && closes == 0 then closes + 1 else closes;
      assert Entry(i, c, hist + [st]) == next;
      hide SetState;
      Replace(i, c, hist + [st]);
    }

    method UpdateResult(code: int, signal: int)
      requires Member()
      modifies this, table`core, table.wal
      ensures Member() && info.id == old(info.id)
      ensures table.core == table.Seen(Journal.UpdateResult(old(table.core), old(info.id), code, signal))
    {
      table.Note(ResultRecord(info.id, code, signal));
      Replace(info.(exitCode := code, exitSignal := signal), closes, hist);
    }

    /** A lord change and a restart count that are not logged. */
    method Reassign(lord: LordId, restarts: nat)
      requires Member()
      modifies this, table`core
      ensures Member() && info.id == old(info.id)
      ensures table.core == Journal.Reassign(old(table.core), old(info.id), lord, restarts)
    {
      Replace(info.(lord := lord, restarts := restarts), closes, hist);
    }

    /** RESTARTING on the new lord; the lord and the restart spent are not logged. */
    method Mark(lord: LordId)
      requires Member() && table.wal != null
      modifies this, table`core, table.wal
      ensures Member() && info.id == old(info.id)
      ensures table.core == Lifecycle.MarkRestarting(old(table.core), old(info.id), lord)
    {
      UpdateState(Restarting, "", 0);
      Reassign(lord, info.restarts + 1);
    }

    method MoveFrom(from: LordId, to: LordId)
      requires Member()
      modifies this, table`core
      ensures Member()
      ensures var (t, id) := (old(table.core.table), old(info.id));
        table.core == old(table.core).(table := t[id := Moved(t[id], from, to)])
    {
      if info.lord == from {
        Replace(info.(lord := to), closes, hist);
      } else {
        assert table.core.table == table.core.table[info.id := View()];
      }
    }
  }

  class ProcessTable {
    var byID: map<ProcId, ProcessEntry>
    var wal: Wal?
    ghost var core: Core
    ghost var entries: set<ProcessEntry>

    /** `core` is what the entries and the log hold; `entries` has the entries, and may have
        some that a later one with the same id replaced. */
    ghost predicate Valid()
      reads this, entries, wal
    {
      && Indexed()
      && (if wal == null then core.log == [] else wal.Valid() && core.log == wal.Log())
    }

    ghost predicate Indexed()
      reads this, entries
    {
      && byID.Keys == core.table.Keys
      && (forall id {:trigger byID[id]} | id in byID ::
            && byID[id] in entries && byID[id].info.id == id && byID[id].table == this
            && byID[id].View() == core.table[id])
    }

    /** Without a log attached, nothing is logged. */
    ghost function Seen(c: Core): Core
      reads this
    {
      if wal == null then Core(c.table, []) else c
    }

    constructor ()
      ensures Valid() && wal == null && core == Core(map[], []) && byID == map[] && entries == {}
    {
      byID, wal, core, entries := map[], null, Core(map[], []), {};
    }

    method AttachWal(w: Wal)
      requires Valid() && wal == null
      modifies this
      ensures Indexed() && (w.Valid() ==> Valid())
      ensures wal == w && byID == old(byID) && entries == old(entries)
      ensures core == Core(old(core.table), w.Log())
    {
      wal := w;
      core := Core(core.table, w.Log());
    }

    /** Append to the attached log, if any; the entries stay as they are. */
    method Note(r: Record)
      requires Valid()
      modifies this`core, wal
      ensures Valid() && core == Seen(Core(old(core.table), old(core.log) + [r]))
    {
      if wal != null {
        wal.Append(r);
        core := Core(core.table, core.log + [r]);
      }
    }

    method Create(info: Info) returns (entry: ProcessEntry)
      requires Valid()
      modifies this, wal
      ensures fresh(entry) && entry.Member() && entry.table == this && entry.info == info && wal == old(wal)
      ensures byID == old(byID)[info.id := entry] && entries == old(entries) + {entry}
      ensures core == Seen(Journal.Create(old(core), info))
    {
      entry := new ProcessEntry(this, info);
      Note(CreateRecord(info));
      byID, entries := byID[info.id := entry], entries + {entry};
      core := core.(table := core.table[info.id := entry.View()]);
    }

    /** Every process on one lord now counts as on another; the number of them is returned. */
    method UpdateLordForHostname(from: LordId, to: LordId) returns (n: nat)
      requires Valid()
      modifies entries, this`core
      ensures Valid() && core == Rebind(old(core), from, to)
      ensures n == if from == "" || to == "" || from == to then 0 else |OnLord(old(core.table), from)|
    {
      if from == "" || to == "" || from == to { return 0; }
      hide Rebound, Moved, OnLord;
      n := 0;
      var todo := byID.Keys;
      ghost var c0 := core;
      OnLordAll(c0.table, from);
      ReboundNone(c0, from, to);
      while todo != {}
        invariant todo <= byID.Keys == c0.table.Keys && Valid()
        invariant core == Rebound(c0, from, to, todo)
        invariant n == |OnLord(c0.table, from) - todo|
        decreases todo
      {
        var id :| id in todo;
        ReboundStep(c0, from, to, todo, id);
        OnLordStep(c0.table, from, todo, id);
        assert byID[id].View() == core.table[id];
        if byID[id].info.lord == from { n := n + 1; }
        byID[id].MoveFrom(from, to);
        todo := todo - {id};
      }
      ReboundAll(c0, from, to);
    }

    /** These entries are in the table, under these ids. */
    ghost predicate Holds(entries: seq<ProcessEntry>, ids: seq<ProcId>)
      reads this`byID
    {
      && |entries| == |ids|
      && forall i | 0 <= i < |ids| :: ids[i] in byID && byID[ids[i]] == entries[i]
    }

    /** The processes on a lord that a recovery takes up, each once: in whatever state but
        RESTARTING and the final ones. */
    method ListByLord(lord: LordId) returns (out: seq<ProcessEntry>, ghost ids: seq<ProcId>)
      requires Valid()
      ensures Holds(out, ids) && Distinct(ids)
      ensures forall id :: id in ids <==>
        id in core.table && core.table[id].info.lord == lord
        && core.table[id].info.state in {Running, Ready, Paused, Migrating}
    {
      out, ids := [], [];
      var todo := byID.Keys;
      while todo != {}
        invariant todo <= byID.Keys && Holds(out, ids) && Distinct(ids)
        invariant forall id :: id in ids <==>
                    id in core.table && id !in todo && Lifecycle.IsCandidate(core.table[id].info, lord)
        decreases todo
      {
        var id :| id in todo;
        todo := todo - {id};
        var e := byID[id];
        if Lifecycle.IsCandidate(e.info, lord) {
          out, ids := out + [e], ids + [id];
        }
      }
    }
  }

  function OnLord(t: Table, lord: LordId): set<ProcId> {
    set id | id in t && t[id].info.lord == lord
  }

  lemma OnLordAll(t: Table, lord: LordId)
    ensures OnLord(t, lord) - t.Keys == {} && OnLord(t, lord) - {} == OnLord(t, lord)
  {
  }

  lemma OnLordStep(t: Table, lord: LordId, todo: set<ProcId>, id: ProcId)
    requires id in t && id in todo
    ensures |OnLord(t, lord) - (todo - {id})| == |OnLord(t, lord) - todo| + if t[id].info.lord == lord then 1 else 0
  {
    assert OnLord(t, lord) - (todo - {id}) == (OnLord(t, lord) - todo) + if t[id].info.lord == lord then {id} else {};
  }

  /** A re-bind when the processes in `todo` are still to be moved. */
  ghost function Rebound(c: Core, from: LordId, to: LordId, todo: set<ProcId>): Core {
    c.(table := map id | id in c.table :: if id !in todo then Moved(c.table[id], from, to) else c.table[id])
  }

  function Moved(e: Entry, from: LordId, to: LordId): Entry {
    if e.info.lord == from then e.(info := e.info.(lord := to)) else e
  }

  lemma ReboundNone(c: Core, from: LordId, to: LordId)
    ensures Rebound(c, from, to, c.table.Keys) == c
  {
    assert Rebound(c, from, to, c.table.Keys).table == c.table;
  }

  lemma ReboundAll(c: Core, from: LordId, to: LordId)
    requires from != "" && to != "" && from != to
    ensures Rebound(c, from, to, {}) == Rebind(c, from, to)
  {
  }

  lemma ReboundStep(c: Core, from: LordId, to: LordId, todo: set<ProcId>, id: ProcId)
    requires id in c.table && id in todo
    ensures var b := Rebound(c, from, to, todo);
      b.table.Keys == c.table.Keys && b.table[id] == c.table[id] &&
      Rebound(c, from, to, todo - {id}) == b.(table := b.table[id := Moved(b.table[id], from, to)])
  {
  }

  // ---------------------------------------------------------------------------
  // Replay
  // ---------------------------------------------------------------------------

  method FindLineEnd(file: seq<Byte>, pos: nat) returns (end: nat)
    requires pos <= |file|
    ensures pos <= end <= |file| && NL !in file[pos..end]
    ensures end < |file| ==> file[end] == NL
  {
    end := pos;
    while end < |file| && file[end] != NL
      invariant pos <= end <= |file| && NL !in file[pos..end]
    {
      end := end + 1;
    }
  }

  lemma ScanStep(file: seq<Byte>, pos: nat, end: nat)
    requires pos < |file| && pos <= end <= |file| && NL !in file[pos..end] && (end < |file| ==> file[end] == NL)
    ensures ScanLines(file[pos..]) ==
      [DropCR(file[pos..end])] + if end == |file| then [] else ScanLines(file[end + 1..])
  {
    var rest := file[pos..];
    assert rest[..end - pos] == file[pos..end];
    LineEndUnique(rest, end - pos);
    if end < |file| { assert rest[end - pos + 1..] == file[end + 1..]; }
  }

  /** The line scanner. */
  method ScanFile(file: seq<Byte>) returns (lines: seq<seq<Byte>>)
    ensures lines == ScanLines(file)
  {
    lines := [];
    var pos := 0;
    ghost var rest := ScanLines(file);
    while pos < |file|
      invariant pos <= |file| && rest == ScanLines(file[pos..])
      invariant ScanLines(file) == lines + rest
    {
      var end := FindLineEnd(file, pos);
      ScanStep(file, pos, end);
      lines := lines + [DropCR(file[pos..end])];
      pos := if end == |file| then end else end + 1;
      rest := ScanLines(file[pos..]);
    }
  }

  /** Replay a log file into a table that has no log attached yet. */
  method ReplayWal(file: seq<Byte>, codec: Codec<Record>, table: ProcessTable) returns (n: Counts)
    requires table.Valid() && table.wal == null
    modifies table, table.entries
    ensures table.Valid() && table.wal == null
    ensures fresh(table.entries - old(table.entries))
    ensures table.core.table == ReplayOnto(old(table.core.table), ReadRecords(codec, file))
    ensures n == TallyAll(old(table.core.table), ReadRecords(codec, file))
  {
    var lines := ScanFile(file);
    if lines != [] && lines[0] == HEADER { lines := lines[1..]; }
    assert ReadRecords(codec, file) == DecodeAll(codec, lines);
    assert table.core == old(table.core);
    n := ReplayLines(lines, codec, table);
  }

  method ReplayLines(lines: seq<seq<Byte>>, codec: Codec<Record>, table: ProcessTable) returns (n: Counts)
    requires table.Valid() && table.wal == null
    modifies table, table.entries
    ensures table.Valid() && table.wal == null
    ensures fresh(table.entries - old(table.entries))
    ensures table.core.table == ReplayOnto(old(table.core.table), DecodeAll(codec, lines))
    ensures n == TallyAll(old(table.core.table), DecodeAll(codec, lines))
  {
    n := Counts(0, 0, 0);
    ghost var t0 := table.core.table;
    ghost var seen: seq<Record> := [];
    for i := 0 to |lines|
      invariant table.Valid() && table.wal == null
      invariant fresh(table.entries - old(table.entries))
      invariant seen == DecodeAll(codec, lines[..i])
      invariant table.core.table == ReplayOnto(t0, seen)
      invariant n == TallyAll(t0, seen)
    {
      assert lines[..i + 1] == lines[..i] + [lines[i]];
      DecodeAllSnoc(codec, lines[..i], lines[i]);
      var ev := codec.dec(lines[i]);
      if ev.Some? {
        ReplaySnoc(t0, seen, ev.value);
        n := ReplayOne(ev.value, table, n);
        seen := seen + [ev.value];
      }
    }
    assert lines[..|lines|] == lines;
  }

  method ReplayOne(r: Record, table: ProcessTable, n: Counts) returns (n': Counts)
    requires table.Valid() && table.wal == null
    modifies table, table.entries
    ensures table.Valid() && table.wal == null
    ensures fresh(table.entries - old(table.entries))
    ensures table.core.table == Apply(old(table.core.table), r)
    ensures n' == Tally(old(table.core.table), r, n)
  {
    n' := n;
    if r.kind == "create" {
      if r.info.Some? {
        var e := table.Create(r.info.value);
        n' := n.(creates := n.creates + 1);
      }
    } else if r.kind == "state" {
      if r.processId in table.byID {
        var st := StateByName(r.stateName);
        if st.Some? {
          table.byID[r.processId].UpdateState(st.value, r.lord, r.localPid);
          n' := n.(states := n.states + 1);
        }
      }
    } else if r.kind == "result" {
      if r.processId in table.byID {
        table.byID[r.processId].UpdateResult(r.exitCode, r.exitSignal);
        n' := n.(results := n.results + 1);
      }
    }
  }

  /** What is on disk when the log is read: the file, or what the header's writer made. */
  function OnDisk(file: Option<seq<Byte>>, headerWritten: bool): seq<Byte> {
    match file
    case Some(bytes) => bytes
    case None => if headerWritten then HEADER + [NL] else []
  }

  /** A scheduler start: write the header if there is no file, replay, then attach the log,
      each of which may fail but the replay. Whatever the file, the table is the replay of
      what a reader finds in it; unless it ends in an unfinished line, table and log are then
      those of the restart step. */
  method Start(file: Option<seq<Byte>>, codec: Codec<Record>, headerWritten: bool, attached: bool,
               ghost header: bool, ghost lines: seq<Line<Record>>, ghost torn: seq<Byte>)
    returns (table: ProcessTable)
    requires Lawful(codec) && Readable(codec, lines)
    requires OnDisk(file, headerWritten) == Image(codec, header, lines) + torn
    ensures fresh(table) && table.Indexed() && (table.wal != null <==> attached)
    ensures table.core.table == Replay(ReadRecords(codec, OnDisk(file, headerWritten)))
    ensures attached ==> table.wal.file == OnDisk(file, headerWritten)
    ensures !attached ==> table.Valid()
    ensures attached && torn == [] ==> table.Valid() && table.core == Core(Replay(Records(lines)), Records(lines))
  {
    var bytes := OnDisk(file, headerWritten);
    table := new ProcessTable();
    var n := ReplayWal(bytes, codec, table);
    if attached {
      IntactFile(codec, header, lines);
      var wal := new Wal(codec, bytes, header, lines);
      table.AttachWal(wal);
      assert torn == [] ==> Image(codec, header, lines) + torn == Image(codec, header, lines);
    }
  }
}
