/** The inspection tool itself: an object bound to a detail level and a storage
    snapshot, whose operations write to standard output (the `out` field) and return a
    status. Each operation is proved to behave exactly as its specification in module
    Inspection, so the lemmas of module Properties hold of it. */
module Tool {
  import opened Errors
  import opened Seqs
  import opened Storage
  import opened Runs
  import opened Indentation
  import opened Inspection

  /** Removes the hidden names from the first `a.Length` entries of `a`, keeping the
      others in order at the front, and returns how many remain (the erase/remove_if
      idiom on the listing of table directories). */
  method EraseHidden(a: array<string>) returns (n: nat)
    modifies a
    ensures n <= a.Length
    ensures a[..n] == Visible(old(a[..]))
  {
    ghost var original := a[..];
    var kept := 0;
    for scanned := 0 to a.Length
      invariant kept <= scanned
      invariant a[..kept] == Visible(original[..scanned])
      invariant forall j :: scanned <= j < a.Length ==> a[j] == original[j]
    {
      assert original[..scanned + 1][..scanned] == original[..scanned];
      if !Hidden(a[scanned]) {
        a[kept] := a[scanned];
        kept := kept + 1;
      }
    }
    assert original[..a.Length] == original;
    n := kept;
  }

  /** A hidden child of a table directory adds nothing to the walk. */
  lemma ChildSkipped(st: Storage, level: DetailLevel, tableDir: Path, children: seq<string>, c: nat)
    requires c < |children| && Hidden(children[c])
    ensures Sequence(children[..c + 1], ChildStep(st, level, tableDir))
      == Sequence(children[..c], ChildStep(st, level, tableDir))
  {
    SequenceStep(children, ChildStep(st, level, tableDir), c);
    ThenDone(Sequence(children[..c], ChildStep(st, level, tableDir)));
  }

  /** A visible child of a table directory adds its label line and its scan. */
  lemma ChildScanned(st: Storage, level: DetailLevel, tableDir: Path, children: seq<string>, c: nat,
                     out0: seq<string>, trace0: seq<Access>, line: string, out: seq<string>, trace: seq<Access>)
    requires c < |children| && !Hidden(children[c])
    requires Sequence(children[..c], ChildStep(st, level, tableDir)).status.Ok?
    requires line == ChildLabel(st, children[c], st.join(tableDir, children[c]))
    requires out == out0 + Sequence(children[..c], ChildStep(st, level, tableDir)).lines + [line]
                    + SegmentsRun(st, level, st.join(tableDir, children[c])).lines
    requires trace == trace0 + Sequence(children[..c], ChildStep(st, level, tableDir)).trace
                      + SegmentsRun(st, level, st.join(tableDir, children[c])).trace
    ensures var next := Sequence(children[..c + 1], ChildStep(st, level, tableDir));
      && next.status == SegmentsRun(st, level, st.join(tableDir, children[c])).status
      && out == out0 + next.lines && trace == trace0 + next.trace
  {
    var done := Sequence(children[..c], ChildStep(st, level, tableDir));
    var scan := SegmentsRun(st, level, st.join(tableDir, children[c]));
    SequenceStep(children, ChildStep(st, level, tableDir), c);
    ThenExtends(out0 + done.lines, trace0 + done.trace, Emit(line), scan);
    ThenExtends(out0, trace0, done, Then(Emit(line), scan));
  }

  class FsTool {
    const level: DetailLevel
    const storage: Storage
    var initialized: bool
    /** Everything written to standard output so far, one element per output statement. */
    var out: seq<string>
    /** The segment directory scans and segment opens made so far. */
    ghost var trace: seq<Access>

    constructor (level: DetailLevel, storage: Storage)
      ensures this.level == level && this.storage == storage
      ensures !initialized && out == [] && trace == []
    {
      this.level := level;
      this.storage := storage;
      initialized := false;
      out := [];
      trace := [];
    }

    /** Opens the storage manager read-only; may be called once. */
    method Init() returns (s: Status)
      requires !initialized
      modifies this`initialized
      ensures s == storage.openStatus
      ensures initialized <==> s.Ok?
    {
      s := storage.openStatus;
      if s.Error? {
        return;
      }
      initialized := true;
    }

    method PrintLogSegmentHeader(path: Path, indent: nat) returns (s: Status)
      modifies this`out, this`trace
      ensures s == HeaderRun(storage, path, indent).status
      ensures out == old(out) + HeaderRun(storage, path, indent).lines
      ensures trace == old(trace) + HeaderRun(storage, path, indent).trace
    {
      var segment := ReadSegment(storage, path);
      trace := trace + [OpenSegment(path)];
      if segment.Failure? && segment.code == Uninitialized {
        return Ok;
      }
      if segment.Failure? && segment.code == Corruption {
        return Ok;
      }
      if segment.Failure? {
        return Prepend(segment.ErrorStatus(), "Unexpected error reading log segment " + path);
      }
      out := out + [Spaces(indent) + "Size: " + segment.value.sizeText];
      out := out + [Spaces(indent) + "Header: "];
      out := out + [IndentString(segment.value.headerText, indent)];
      s := Ok;
    }

    method ListSegmentsInDir(dir: Path) returns (s: Status)
      modifies this`out, this`trace
      ensures s == SegmentsRun(storage, level, dir).status
      ensures out == old(out) + SegmentsRun(storage, level, dir).lines
      ensures trace == old(trace) + SegmentsRun(storage, level, dir).trace
    {
      trace := trace + [ListSegments(dir)];
      var listing := ListDir(storage, dir);
      if listing.Failure? {
        return Prepend(listing.ErrorStatus(), "Unable to list log segments");
      }
      var segments := listing.value;
      out := out + ["Segments in " + dir + ":"];
      ghost var scan := Run(Ok, ["Segments in " + dir + ":"], [ListSegments(dir)]);
      ghost var out0, trace0 := out, trace;
      ghost var step := SegmentStep(storage, level, dir);
      ghost var done := Done();
      for i := 0 to |segments|
        invariant done == Sequence(segments[..i], step) && done.status.Ok?
        invariant out == out0 + done.lines && trace == trace0 + done.trace
      {
        SequenceStep(segments, step, i);
        var segment := segments[i];
        if !IsLogFileName(storage, segment) {
          ThenDone(done);
          done := Then(done, step(segment));
          continue;
        }
        if AtLeastHeaders(level) {
          var line := "Segment: " + segment;
          out := out + [line];
          var path := Join(storage, dir, segment);
          var status := PrintLogSegmentHeader(path, 2);
          ThenExtends(out0 + done.lines, trace0 + done.trace, Emit(line), HeaderRun(storage, path, 2));
          ThenExtends(out0, trace0, done, step(segment));
          done := Then(done, step(segment));
          if status.Error? {
            SequenceStops(segments, step, i + 1);
            ThenExtends(old(out), old(trace), scan, done);
            return status;
          }
        } else {
          out := out + ["\t" + segment];
          ThenExtends(out0, trace0, done, step(segment));
          done := Then(done, step(segment));
        }
      }
      assert segments[..|segments|] == segments;
      ThenExtends(old(out), old(trace), scan, done);
      s := Ok;
    }

    method ListAllLogSegments() returns (s: Status)
      requires initialized
      modifies this`out, this`trace
      ensures s == AllLogSegmentsRun(storage, level).status
      ensures out == old(out) + AllLogSegmentsRun(storage, level).lines
      ensures trace == old(trace) + AllLogSegmentsRun(storage, level).trace
    {
      var walRootDirs := storage.walRootDirs;
      ghost var rootStep := RootStep(storage, level);
      ghost var done := Done();
      for k := 0 to |walRootDirs|
        invariant done == Sequence(walRootDirs[..k], rootStep) && done.status.Ok?
        invariant out == old(out) + done.lines && trace == old(trace) + done.trace
      {
        SequenceStep(walRootDirs, rootStep, k);
        var status := ListWalRoot(walRootDirs[k]);
        ThenExtends(old(out), old(trace), done, rootStep(walRootDirs[k]));
        done := Then(done, rootStep(walRootDirs[k]));
        if status.Error? {
          SequenceStops(walRootDirs, rootStep, k + 1);
          return status;
        }
      }
      assert walRootDirs[..|walRootDirs|] == walRootDirs;
      s := Ok;
    }

    /** The body of the loop over WAL roots in ListAllLogSegments, for one root. */
    method ListWalRoot(walsDir: Path) returns (s: Status)
      modifies this`out, this`trace
      ensures s == RootRun(storage, level, walsDir).status
      ensures out == old(out) + RootRun(storage, level, walsDir).lines
      ensures trace == old(trace) + RootRun(storage, level, walsDir).trace
    {
      if !PathExists(storage, walsDir) {
        return MissingRoot(walsDir);
      }
      var rootLine := "Root log directory: " + walsDir;
      out := out + [rootLine];
      var listed := ListDir(storage, walsDir);
      if listed.Failure? {
        return Prepend(listed.ErrorStatus(), "Could not list table directories");
      }
      var buffer := new string[|listed.value|](j requires 0 <= j < |listed.value| => listed.value[j]);
      assert buffer[..] == listed.value;
      var count := EraseHidden(buffer);
      var tables := buffer[..count];
      ghost var outRoot, traceRoot := out, trace;
      ghost var tableStep := TableStep(storage, level, walsDir);
      ghost var done := Done();
      for t := 0 to |tables|
        invariant done == Sequence(tables[..t], tableStep) && done.status.Ok?
        invariant out == outRoot + done.lines && trace == traceRoot + done.trace
      {
        SequenceStep(tables, tableStep, t);
        var status := ListTableWalDir(walsDir, tables[t]);
        ThenExtends(outRoot, traceRoot, done, tableStep(tables[t]));
        done := Then(done, tableStep(tables[t]));
        if status.Error? {
          SequenceStops(tables, tableStep, t + 1);
          ThenExtends(old(out), old(trace), Emit(rootLine), done);
          return status;
        }
      }
      assert tables[..|tables|] == tables;
      ThenExtends(old(out), old(trace), Emit(rootLine), done);
      s := Ok;
    }

    /** The body of the loop over the table directories of a WAL root in
        ListAllLogSegments, for one table. */
    method ListTableWalDir(walsDir: Path, table: string) returns (s: Status)
      modifies this`out, this`trace
      ensures s == TableRun(storage, level, walsDir, table).status
      ensures out == old(out) + TableRun(storage, level, walsDir, table).lines
      ensures trace == old(trace) + TableRun(storage, level, walsDir, table).trace
    {
      var tableWalDir := Join(storage, walsDir, table);
      var listedChildren := ListDir(storage, tableWalDir);
      if listedChildren.Failure? {
        return Prepend(listedChildren.ErrorStatus(), "Could not list log directories");
      }
      var children := listedChildren.value;
      for c := 0 to |children|
        invariant Sequence(children[..c], ChildStep(storage, level, tableWalDir)).status.Ok?
        invariant out == old(out) + Sequence(children[..c], ChildStep(storage, level, tableWalDir)).lines
        invariant trace == old(trace) + Sequence(children[..c], ChildStep(storage, level, tableWalDir)).trace
      {
        var child := children[c];
        if Hidden(child) {
          ChildSkipped(storage, level, tableWalDir, children, c);
          continue;
        }
        var path := Join(storage, tableWalDir, child);
        var line;
        if IsRecoveryDir(storage, child) {
          line := "Log recovery dir found: " + path;
        } else {
          line := "Log directory: " + path;
        }
        out := out + [line];
        var status := ListSegmentsInDir(path);
        ChildScanned(storage, level, tableWalDir, children, c, old(out), old(trace), line, out, trace);
        if status.Error? {
          SequenceStops(children, ChildStep(storage, level, tableWalDir), c + 1);
          return status;
        }
      }
      assert children[..|children|] == children;
      s := Ok;
    }

    method ListLogSegmentsForTablet(tabletId: string) returns (s: Status)
      requires initialized
      modifies this`out, this`trace
      ensures s == TabletLogSegmentsRun(storage, level, tabletId).status
      ensures out == old(out) + TabletLogSegmentsRun(storage, level, tabletId).lines
      ensures trace == old(trace) + TabletLogSegmentsRun(storage, level, tabletId).trace
    {
      var loaded := LoadMeta(storage, tabletId);
      if loaded.Failure? {
        return loaded.ErrorStatus();
      }
      var tabletWalDir := loaded.value.walDir;
      if !PathExists(storage, tabletWalDir) {
        return NoLogs(tabletId, tabletWalDir);
      }
      var line := "Tablet WAL dir found: " + tabletWalDir;
      out := out + [line];
      s := ListSegmentsInDir(tabletWalDir);
      ghost var walk := Then(Emit(line), SegmentsRun(storage, level, tabletWalDir));
      ThenExtends(old(out), old(trace), Emit(line), SegmentsRun(storage, level, tabletWalDir));
      if s.Error? {
        return;
      }
      var recoveryDir := RecoveryDirOf(storage, tabletWalDir);
      if PathExists(storage, recoveryDir) {
        var recoveryLine := "Recovery dir found: " + recoveryDir;
        out := out + [recoveryLine];
        s := ListSegmentsInDir(recoveryDir);
        ghost var recovery := SegmentsRun(storage, level, recoveryDir);
        ThenExtends(old(out) + walk.lines, old(trace) + walk.trace, Emit(recoveryLine), recovery);
        ThenExtends(old(out), old(trace), walk, Then(Emit(recoveryLine), recovery));
      } else {
        ThenExtends(old(out), old(trace), walk, Done());
        ThenDone(walk);
      }
    }

    method PrintTabletMeta(tabletId: string, indent: nat) returns (s: Status)
      modifies this`out
      ensures s == TabletMetaRun(storage, tabletId, indent).status
      ensures out == old(out) + TabletMetaRun(storage, tabletId, indent).lines
    {
      var loaded := LoadMeta(storage, tabletId);
      if loaded.Failure? {
        return loaded.ErrorStatus();
      }
      var meta := loaded.value;
      out := out + [Spaces(indent) + "Partition: " + meta.partitionText];
      out := out + [Spaces(indent) + "Table name: " + meta.tableName + " Table id: " + meta.tableId];
      out := out + [Spaces(indent) + "Schema (version=" + Decimal(meta.schemaVersion) + "): " + meta.schemaText];
      if meta.superblock.Failure? {
        return Prepend(meta.superblock.ErrorStatus(), "Could not get superblock");
      }
      out := out + ["Superblock:\n" + meta.superblock.value];
      s := Ok;
    }

    method ListAllTablets() returns (s: Status)
      requires initialized
      modifies this`out
      ensures s == AllTabletsRun(storage, level).status
      ensures out == old(out) + AllTabletsRun(storage, level).lines
    {
      var listed := storage.tabletIds;
      if listed.Failure? {
        return listed.ErrorStatus();
      }
      var tablets := listed.value;
      ghost var step := TabletStep(storage, level);
      ghost var done := Done();
      for i := 0 to |tablets|
        invariant done == Sequence(tablets[..i], step) && done.status.Ok?
        invariant out == old(out) + done.lines
      {
        SequenceStep(tablets, step, i);
        var tablet := tablets[i];
        if AtLeastHeaders(level) {
          var line := "Tablet: " + tablet;
          out := out + [line];
          var status := PrintTabletMeta(tablet, 2);
          ThenExtends(old(out) + done.lines, [], Emit(line), TabletMetaRun(storage, tablet, 2));
          ThenExtends(old(out), [], done, step(tablet));
          done := Then(done, step(tablet));
          if status.Error? {
            SequenceStops(tablets, step, i + 1);
            return status;
          }
        } else {
          out := out + ["\t" + tablet];
          ThenExtends(old(out), [], done, step(tablet));
          done := Then(done, step(tablet));
        }
      }
      assert tablets[..|tablets|] == tablets;
      s := Ok;
    }

    method DumpTabletData(tabletId: string) returns (s: Status)
      requires initialized
      modifies this`out
      ensures s == DumpRun(storage, tabletId).status
      ensures out == old(out) + DumpRun(storage, tabletId).lines
    {
      var loaded := LoadMeta(storage, tabletId);
      if loaded.Failure? {
        return loaded.ErrorStatus();
      }
      var meta := loaded.value;
      var openStatus := OpenTablet(storage, meta);
      if openStatus.Error? {
        return Prepend(openStatus, "Couldn't open tablet");
      }
      var dumped := DumpTablet(storage, meta);
      if dumped.Failure? {
        return Prepend(dumped.ErrorStatus(), "Couldn't dump tablet");
      }
      var lines := dumped.value;
      for i := 0 to |lines|
        invariant out == old(out) + lines[..i]
      {
        out := out + [lines[i]];
      }
      assert lines[..|lines|] == lines;
      s := Ok;
    }

    method PrintUUID(indent: nat) returns (s: Status)
      modifies this`out
      ensures s == UuidRun(storage, indent).status
      ensures out == old(out) + UuidRun(storage, indent).lines
    {
      out := out + [Spaces(indent) + storage.uuid];
      s := Ok;
    }
  }
}
