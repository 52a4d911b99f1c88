/** What the inspection operations promise, proved about their specifications in
    module Inspection. */
module Properties {
  import opened Errors
  import opened Seqs
  import opened Storage
  import opened Runs
  import opened Indentation
  import opened Inspection

  /** `t` occurs in `s` at position `i`. */
  predicate OccursAt(s: string, t: string, i: int)
  {
    0 <= i <= |s| - |t| && s[i..i + |t|] == t
  }

  /** `t` occurs in `s`. */
  predicate Contains(s: string, t: string)
  {
    exists i :: 0 <= i <= |s| && OccursAt(s, t, i)
  }

  // ---------------------------------------------------------------------------
  // Log segment header reader

  /** The four outcomes of opening a segment: Uninitialized and Corruption are not
      errors and write nothing; any other failure is returned, with its kind, behind
      "Unexpected error reading log segment <path>"; a success writes exactly the size
      line, the header line and the header text, each starting with the indentation,
      and the header text can be read back. The segment is opened once either way. */
  lemma HeaderOutcomes(st: Storage, path: Path, indent: nat)
    ensures var r, o := HeaderRun(st, path, indent), st.openSegment(path);
      && r.trace == [OpenSegment(path)]
      && (r.status.Ok? <==> o.Success? || o.code == Uninitialized || o.code == Corruption)
      && (r.lines != [] <==> o.Success?)
      && (r.status.Error? ==>
            r.status.code == o.code
            && HasPrefix(r.status.message, "Unexpected error reading log segment " + path))
      && (o.Success? ==>
            |r.lines| == 3
            && HasPrefix(r.lines[0], Spaces(indent) + "Size: ")
            && HasPrefix(r.lines[1], Spaces(indent) + "Header: ")
            && HasPrefix(r.lines[2], Spaces(indent))
            && NewlinesPadded(r.lines[2], Spaces(indent))
            && Unindent(r.lines[2], indent) == o.value.headerText)
  {
    var o := st.openSegment(path);
    if o.Success? {
      var segment := o.value;
      var lines := HeaderLines(segment, indent);
      var pad := Spaces(indent);
      assert (pad + "Size: " + segment.sizeText)[..|pad + "Size: "|] == pad + "Size: ";
      assert (pad + "Header: ")[..|pad + "Header: "|] == pad + "Header: ";
      IndentStringPadsEveryLine(segment.headerText, indent);
      IndentStringRoundTrip(segment.headerText, indent);
    } else if o.code != Uninitialized && o.code != Corruption {
      var context := "Unexpected error reading log segment " + path;
      assert (context + ": " + o.message)[..|context|] == context;
    }
  }

  // ---------------------------------------------------------------------------
  // Segment catalog

  /** A listing entry makes one access, opening the segment at `dir` joined with its
      name, when it follows the segment naming convention at HEADERS_ONLY or above,
      and none otherwise. */
  lemma SegmentEntryTrace(st: Storage, level: DetailLevel, dir: Path, name: string)
    ensures SegmentEntry(st, level, dir, name).trace
      == if st.isLogFileName(name) && AtLeastHeaders(level) then [OpenSegment(st.join(dir, name))] else []
  {
    if st.isLogFileName(name) && AtLeastHeaders(level) {
      var header := HeaderRun(st, st.join(dir, name), 2);
      assert header.trace == [OpenSegment(st.join(dir, name))];
    }
  }

  /** The access made for opening segment `name` of `dir`. */
  function SegmentAccess(st: Storage, dir: Path): string -> Access
  {
    name => OpenSegment(st.join(dir, name))
  }

  /** ListSegmentsInDir below HEADERS_ONLY: a listing failure is returned behind
      "Unable to list log segments" and writes nothing; otherwise the "Segments in"
      line is followed by exactly the names that follow the segment naming convention,
      each after a tab, in listing order, and no segment is opened. */
  lemma SegmentCatalogIdOnly(st: Storage, level: DetailLevel, dir: Path)
    requires !AtLeastHeaders(level)
    ensures var r, listing := SegmentsRun(st, level, dir), st.listDir(dir);
      && (listing.Failure? ==>
            r.status == Prepend(listing.ErrorStatus(), "Unable to list log segments")
            && r.lines == [] && r.trace == [ListSegments(dir)])
      && (listing.Success? ==>
            r == Run(Ok, ["Segments in " + dir + ":"] + Map(Filter(listing.value, st.isLogFileName), Tabbed),
                     [ListSegments(dir)]))
  {
    var listing := st.listDir(dir);
    if listing.Success? {
      var names := listing.value;
      var step := SegmentStep(st, level, dir);
      var logs := Filter(names, st.isLogFileName);
      SequenceSkips(names, st.isLogFileName, step, step);
      forall x | x in logs
        ensures step(x) == Emit(Tabbed(x))
      {
        assert x in names && st.isLogFileName(x);
      }
      SequenceEmits(logs, step, Tabbed);
      assert Sequence(names, step) == Run(Ok, Map(logs, Tabbed), []);
    }
  }

  /** A segment as listed at HEADERS_ONLY or above: its name, then its header. */
  function ShownSegment(st: Storage, dir: Path): string -> Run
  {
    name => Then(Emit("Segment: " + name), HeaderRun(st, st.join(dir, name), 2))
  }

  /** ListSegmentsInDir at any detail level, when the directory cannot be listed: the
      failure is returned behind "Unable to list log segments", nothing is written and
      nothing is opened. */
  lemma SegmentCatalogListFailure(st: Storage, level: DetailLevel, dir: Path)
    requires st.listDir(dir).Failure?
    ensures var r := SegmentsRun(st, level, dir);
      && r.status == Prepend(st.listDir(dir).ErrorStatus(), "Unable to list log segments")
      && r.lines == [] && r.trace == [ListSegments(dir)]
  {
  }

  /** ListSegmentsInDir at HEADERS_ONLY or above, when the listing succeeds: the
      "Segments in" line comes first, followed by "Segment: <name>" and its header for
      exactly the names that follow the segment naming convention, in listing order,
      up to the first failure; each such name is opened once, at `dir` joined with the
      name, and when nothing fails, all of them are. */
  lemma SegmentCatalogOpens(st: Storage, level: DetailLevel, dir: Path)
    requires AtLeastHeaders(level) && st.listDir(dir).Success?
    ensures var r := SegmentsRun(st, level, dir);
      var logs := Filter(st.listDir(dir).value, st.isLogFileName);
      var opens := Map(logs, SegmentAccess(st, dir));
      && r == Then(Run(Ok, ["Segments in " + dir + ":"], [ListSegments(dir)]),
                   Sequence(logs, ShownSegment(st, dir)))
      && r.trace <= [ListSegments(dir)] + opens
      && (r.status.Ok? ==> r.trace == [ListSegments(dir)] + opens)
  {
    var names := st.listDir(dir).value;
    var logs := Filter(names, st.isLogFileName);
    var inner := Sequence(logs, ShownSegment(st, dir));
    SequenceSkips(names, st.isLogFileName, ShownSegment(st, dir), SegmentStep(st, level, dir));
    assert SegmentsRun(st, level, dir) == Then(Run(Ok, ["Segments in " + dir + ":"], [ListSegments(dir)]), inner);
    ShownSegmentsTrace(st, dir, logs);
    PrefixAfter(ListSegments(dir), inner.trace, Map(logs, SegmentAccess(st, dir)));
  }

  /** Showing segments opens each of them once, in order, up to the first failure. */
  lemma ShownSegmentsTrace(st: Storage, dir: Path, logs: seq<string>)
    ensures var inner, opens := Sequence(logs, ShownSegment(st, dir)), Map(logs, SegmentAccess(st, dir));
      inner.trace <= opens && (inner.status.Ok? ==> inner.trace == opens)
  {
    var shown := ShownSegment(st, dir);
    forall x | x in logs
      ensures shown(x).trace == [SegmentAccess(st, dir)(x)]
    {
      assert HeaderRun(st, st.join(dir, x), 2).trace == [OpenSegment(st.join(dir, x))];
    }
    SequenceOneAccessEach(logs, shown, SegmentAccess(st, dir));
  }

  // ---------------------------------------------------------------------------
  // Directory walker

  /** The label of a child names it a recovery directory exactly when its name ends
      with the recovery suffix, and a log directory otherwise: never both. */
  lemma ChildLabelClassifies(st: Storage, child: string, path: Path)
    ensures HasPrefix(ChildLabel(st, child, path), "Log recovery dir found: ") <==> IsRecoveryDir(st, child)
    ensures HasPrefix(ChildLabel(st, child, path), "Log directory: ") <==> !IsRecoveryDir(st, child)
  {
    var recovery, normal := "Log recovery dir found: ", "Log directory: ";
    var text := ChildLabel(st, child, path);
    if IsRecoveryDir(st, child) {
      assert text[..|recovery|] == recovery;
      assert text[4] == 'r' != normal[4];
    } else {
      assert text[..|normal|] == normal;
      assert text[4] == 'd' != recovery[4];
    }
  }

  /** Skipping hidden children inside the loop scans exactly the visible children,
      each labelled and then scanned, in listing order. */
  lemma TableScansVisibleChildren(st: Storage, level: DetailLevel, root: Path, table: string)
    requires st.listDir(st.join(root, table)).Success?
    ensures var tableDir := st.join(root, table);
      TableRun(st, level, root, table)
        == Sequence(Visible(st.listDir(tableDir).value), ChildRunStep(st, level, tableDir))
  {
    var tableDir := st.join(root, table);
    SequenceSkips(st.listDir(tableDir).value, IsVisible, ChildRunStep(st, level, tableDir),
                  ChildStep(st, level, tableDir));
  }

  /** The first WAL root that fails ends the walk: the roots after it are not visited. */
  lemma WalkStopsAtFailingRoot(st: Storage, level: DetailLevel, k: nat)
    requires k < |st.walRootDirs|
    requires Sequence(st.walRootDirs[..k], RootStep(st, level)).status.Ok?
    requires RootRun(st, level, st.walRootDirs[k]).status.Error?
    ensures AllLogSegmentsRun(st, level)
      == Then(Sequence(st.walRootDirs[..k], RootStep(st, level)), RootRun(st, level, st.walRootDirs[k]))
  {
    var roots := st.walRootDirs;
    SequenceStep(roots, RootStep(st, level), k);
    SequenceStops(roots, RootStep(st, level), k + 1);
  }

  /** A WAL root that does not exist ends the walk with Corruption naming it, and
      nothing is written or scanned for it or for any later root. */
  lemma MissingRootAborts(st: Storage, level: DetailLevel, k: nat)
    requires k < |st.walRootDirs|
    requires Sequence(st.walRootDirs[..k], RootStep(st, level)).status.Ok?
    requires !st.pathExists(st.walRootDirs[k])
    ensures var r, before := AllLogSegmentsRun(st, level), Sequence(st.walRootDirs[..k], RootStep(st, level));
      && r.status == Error(Corruption, "root log directory '" + st.walRootDirs[k] + "' does not exist")
      && r.lines == before.lines && r.trace == before.trace
  {
    WalkStopsAtFailingRoot(st, level, k);
  }

  /** A WAL root that cannot be listed ends the walk behind "Could not list table
      directories", after its "Root log directory" line. */
  lemma RootListFailureAborts(st: Storage, level: DetailLevel, k: nat)
    requires k < |st.walRootDirs|
    requires Sequence(st.walRootDirs[..k], RootStep(st, level)).status.Ok?
    requires st.pathExists(st.walRootDirs[k]) && st.listDir(st.walRootDirs[k]).Failure?
    ensures var r, before, root := AllLogSegmentsRun(st, level), Sequence(st.walRootDirs[..k], RootStep(st, level)), st.walRootDirs[k];
      && r.status == Prepend(st.listDir(root).ErrorStatus(), "Could not list table directories")
      && r.lines == before.lines + ["Root log directory: " + root] && r.trace == before.trace
  {
    WalkStopsAtFailingRoot(st, level, k);
  }

  /** A visible table directory that cannot be listed ends the walk behind "Could not
      list log directories". */
  lemma TableListFailureAborts(st: Storage, level: DetailLevel, k: nat, j: nat)
    requires k < |st.walRootDirs|
    requires Sequence(st.walRootDirs[..k], RootStep(st, level)).status.Ok?
    requires st.pathExists(st.walRootDirs[k]) && st.listDir(st.walRootDirs[k]).Success?
    requires j < |Visible(st.listDir(st.walRootDirs[k]).value)|
    requires Sequence(Visible(st.listDir(st.walRootDirs[k]).value)[..j], TableStep(st, level, st.walRootDirs[k])).status.Ok?
    requires st.listDir(st.join(st.walRootDirs[k], Visible(st.listDir(st.walRootDirs[k]).value)[j])).Failure?
    ensures var root := st.walRootDirs[k];
      var tables := Visible(st.listDir(root).value);
      var r, before, walked := AllLogSegmentsRun(st, level), Sequence(st.walRootDirs[..k], RootStep(st, level)),
                               Sequence(tables[..j], TableStep(st, level, root));
      && r.status == Prepend(st.listDir(st.join(root, tables[j])).ErrorStatus(), "Could not list log directories")
      && r.lines == before.lines + ["Root log directory: " + root] + walked.lines
      && r.trace == before.trace + walked.trace
  {
    var root := st.walRootDirs[k];
    var tables := Visible(st.listDir(root).value);
    var walked := Sequence(tables[..j], TableStep(st, level, root));
    var before := Sequence(st.walRootDirs[..k], RootStep(st, level));
    TableFailureInRoot(st, level, root, j);
    WalkStopsAtFailingRoot(st, level, k);
    AbortAfter(before, RootRun(st, level, root), "Root log directory: " + root, walked,
               Prepend(st.listDir(st.join(root, tables[j])).ErrorStatus(), "Could not list log directories"));
  }

  /** A run that fails after one line and the output of `walked`, coming after a
      successful `before`. */
  lemma AbortAfter(before: Run, failing: Run, line: string, walked: Run, s: Status)
    requires before.status.Ok? && s.Error?
    requires failing == Run(s, [line] + walked.lines, walked.trace)
    ensures Then(before, failing) == Run(s, before.lines + [line] + walked.lines, before.trace + walked.trace)
  {
    assert before.lines + ([line] + walked.lines) == before.lines + [line] + walked.lines;
  }

  /** Within one WAL root, a table directory that cannot be listed ends the root's
      walk after the root's line and the tables before it. */
  lemma TableFailureInRoot(st: Storage, level: DetailLevel, root: Path, j: nat)
    requires st.pathExists(root) && st.listDir(root).Success?
    requires j < |Visible(st.listDir(root).value)|
    requires Sequence(Visible(st.listDir(root).value)[..j], TableStep(st, level, root)).status.Ok?
    requires st.listDir(st.join(root, Visible(st.listDir(root).value)[j])).Failure?
    ensures var tables := Visible(st.listDir(root).value);
      var walked := Sequence(tables[..j], TableStep(st, level, root));
      RootRun(st, level, root)
        == Run(Prepend(st.listDir(st.join(root, tables[j])).ErrorStatus(), "Could not list log directories"),
               ["Root log directory: " + root] + walked.lines, walked.trace)
  {
    var tables := Visible(st.listDir(root).value);
    var walked := Sequence(tables[..j], TableStep(st, level, root));
    SequenceStep(tables, TableStep(st, level, root), j);
    SequenceStops(tables, TableStep(st, level, root), j + 1);
    var failing := TableRun(st, level, root, tables[j]);
    assert failing.lines == [] && failing.trace == [];
    assert walked.lines + failing.lines == walked.lines && walked.trace + failing.trace == walked.trace;
  }

  /** `dir` is a visible child of a visible table directory of a WAL root. */
  ghost predicate WalkedDir(st: Storage, dir: Path)
  {
    exists root, table, child ::
      && root in st.walRootDirs
      && table in Listed(st, root) && !Hidden(table)
      && child in Listed(st, st.join(root, table)) && !Hidden(child)
      && dir == st.join(st.join(root, table), child)
  }

  /** `path` is a segment of a walked directory: a listed name that follows the
      segment naming convention, joined to the directory. */
  ghost predicate WalkedSegment(st: Storage, path: Path)
  {
    exists dir, name ::
      WalkedDir(st, dir) && name in Listed(st, dir) && st.isLogFileName(name) && path == st.join(dir, name)
  }

  /** Every access of a segment scan is the scan of that directory or the opening of
      one of its log-named entries. */
  lemma SegmentsTrace(st: Storage, level: DetailLevel, dir: Path, a: Access)
    requires a in SegmentsRun(st, level, dir).trace
    ensures a == ListSegments(dir)
      || exists name :: name in Listed(st, dir) && st.isLogFileName(name) && a == OpenSegment(st.join(dir, name))
  {
    if st.listDir(dir).Success? && a != ListSegments(dir) {
      var names := st.listDir(dir).value;
      var step := SegmentStep(st, level, dir);
      ScanTrace(st, level, dir);
      SequenceTraceFrom(names, step, a);
      var name :| name in names && a in step(name).trace;
      SegmentEntryTrace(st, level, dir, name);
      assert name in Listed(st, dir) && st.isLogFileName(name) && a == OpenSegment(st.join(dir, name));
    }
  }

  /** The accesses of a successful listing's scan: the scan itself, then those of
      its entries. */
  lemma ScanTrace(st: Storage, level: DetailLevel, dir: Path)
    requires st.listDir(dir).Success?
    ensures SegmentsRun(st, level, dir).trace
      == [ListSegments(dir)] + Sequence(st.listDir(dir).value, SegmentStep(st, level, dir)).trace
  {
  }

  lemma TableTrace(st: Storage, level: DetailLevel, root: Path, table: string, a: Access)
    requires a in TableRun(st, level, root, table).trace
    ensures exists child ::
      && child in Listed(st, st.join(root, table)) && !Hidden(child)
      && a in SegmentsRun(st, level, st.join(st.join(root, table), child)).trace
  {
    var tableDir := st.join(root, table);
    var step := ChildStep(st, level, tableDir);
    SequenceTraceFrom(st.listDir(tableDir).value, step, a);
    var child :| child in st.listDir(tableDir).value && a in step(child).trace;
    assert !Hidden(child);
    assert a in SegmentsRun(st, level, st.join(tableDir, child)).trace;
  }

  lemma RootTrace(st: Storage, level: DetailLevel, root: Path, a: Access)
    requires a in RootRun(st, level, root).trace
    ensures exists table, child ::
      && table in Listed(st, root) && !Hidden(table)
      && child in Listed(st, st.join(root, table)) && !Hidden(child)
      && a in SegmentsRun(st, level, st.join(st.join(root, table), child)).trace
  {
    var step := TableStep(st, level, root);
    var tables := Visible(st.listDir(root).value);
    assert a in Sequence(tables, step).trace;
    SequenceTraceFrom(tables, step, a);
    var table :| table in tables && a in step(table).trace;
    TableTrace(st, level, root, table, a);
  }

  /** Hidden entries are never walked: every directory ListAllLogSegments scans is a
      visible child of a visible table directory of a WAL root, and every segment it
      opens is a log-named entry of such a directory. */
  lemma WalkTouchesOnlyVisible(st: Storage, level: DetailLevel, a: Access)
    requires a in AllLogSegmentsRun(st, level).trace
    ensures a.ListSegments? ==> WalkedDir(st, a.dir)
    ensures a.OpenSegment? ==> WalkedSegment(st, a.path)
  {
    SequenceTraceFrom(st.walRootDirs, RootStep(st, level), a);
    var root :| root in st.walRootDirs && a in RootStep(st, level)(root).trace;
    RootTrace(st, level, root, a);
    var table, child :|
      && table in Listed(st, root) && !Hidden(table)
      && child in Listed(st, st.join(root, table)) && !Hidden(child)
      && a in SegmentsRun(st, level, st.join(st.join(root, table), child)).trace;
    var dir := st.join(st.join(root, table), child);
    assert WalkedDir(st, dir);
    SegmentsTrace(st, level, dir, a);
    if a.OpenSegment? {
      var name :| name in Listed(st, dir) && st.isLogFileName(name) && a == OpenSegment(st.join(dir, name));
      assert WalkedSegment(st, a.path);
    }
  }

  // ---------------------------------------------------------------------------
  // Per-tablet walk

  /** ListLogSegmentsForTablet: a metadata failure is returned unchanged; a missing WAL
      dir gives NotFound naming the tablet and the directory, writing nothing; otherwise
      the WAL dir is announced and scanned first; a missing recovery dir is no error and
      is neither announced nor scanned, and an existing one is announced and scanned
      once the WAL dir scan succeeded. */
  lemma TabletWalkOutcomes(st: Storage, level: DetailLevel, tabletId: string)
    ensures var r, loaded := TabletLogSegmentsRun(st, level, tabletId), st.loadMeta(tabletId);
      && (loaded.Failure? ==> r == Fail(loaded.ErrorStatus()))
      && (loaded.Success? && !st.pathExists(loaded.value.walDir) ==>
            r.status.Error? && r.status.code == NotFound
            && Contains(r.status.message, tabletId) && Contains(r.status.message, loaded.value.walDir)
            && r.lines == [] && r.trace == [])
      && (loaded.Success? && st.pathExists(loaded.value.walDir) ==>
            r.lines[..1] == ["Tablet WAL dir found: " + loaded.value.walDir]
            && r.trace[..1] == [ListSegments(loaded.value.walDir)])
      && (loaded.Success? && st.pathExists(loaded.value.walDir)
          && !st.pathExists(st.recoveryDirOf(loaded.value.walDir)) ==>
            r == Then(Emit("Tablet WAL dir found: " + loaded.value.walDir),
                      SegmentsRun(st, level, loaded.value.walDir)))
      && (loaded.Success? && st.pathExists(loaded.value.walDir)
          && st.pathExists(st.recoveryDirOf(loaded.value.walDir)) ==>
            var walDir, recoveryDir := loaded.value.walDir, st.recoveryDirOf(loaded.value.walDir);
            r == Then(Then(Emit("Tablet WAL dir found: " + walDir), SegmentsRun(st, level, walDir)),
                      Then(Emit("Recovery dir found: " + recoveryDir), SegmentsRun(st, level, recoveryDir))))
  {
    var loaded := st.loadMeta(tabletId);
    if loaded.Success? {
      var walDir := loaded.value.walDir;
      if !st.pathExists(walDir) {
        var head, middle := "tablet '", "' has no logs in wals dir '";
        var m := NoLogs(tabletId, walDir).message;
        assert m == head + tabletId + middle + walDir + "'";
        assert OccursAt(m, tabletId, |head|);
        assert OccursAt(m, walDir, |head| + |tabletId| + |middle|);
      } else {
        var first := Then(Emit("Tablet WAL dir found: " + walDir), SegmentsRun(st, level, walDir));
        ThenDone(first);
      }
    }
  }

  /** The recovery dir is scanned only when it exists, and only after the tablet's WAL
      dir was scanned without error. */
  lemma RecoveryScannedOnlyIfPresent(st: Storage, level: DetailLevel, tabletId: string, dir: Path)
    requires st.loadMeta(tabletId).Success?
    requires dir == st.recoveryDirOf(st.loadMeta(tabletId).value.walDir)
    requires dir != st.loadMeta(tabletId).value.walDir
    requires ListSegments(dir) in TabletLogSegmentsRun(st, level, tabletId).trace
    ensures st.pathExists(dir)
    ensures SegmentsRun(st, level, st.loadMeta(tabletId).value.walDir).status.Ok?
  {
    var walDir := st.loadMeta(tabletId).value.walDir;
    var wal := SegmentsRun(st, level, walDir);
    if !st.pathExists(dir) || wal.status.Error? {
      assert ListSegments(dir) in wal.trace;
      SegmentsTrace(st, level, walDir, ListSegments(dir));
      assert false;
    }
  }

  // ---------------------------------------------------------------------------
  // Tablet list

  /** ListAllTablets below HEADERS_ONLY writes each tablet id after a tab, in order,
      and nothing else. */
  lemma TabletListIdOnly(st: Storage, level: DetailLevel)
    requires !AtLeastHeaders(level) && st.tabletIds.Success?
    ensures AllTabletsRun(st, level) == Run(Ok, Map(st.tabletIds.value, Tabbed), [])
  {
    SequenceEmits(st.tabletIds.value, TabletStep(st, level), Tabbed);
  }

  /** At HEADERS_ONLY or above, a tablet whose metadata prints without error gets
      five lines: "Tablet: <id>", then the four lines PrintTabletMeta writes for it
      (the partition, the table, the schema and the superblock). */
  lemma TabletEntryLines(st: Storage, level: DetailLevel, tabletId: string)
    requires AtLeastHeaders(level) && TabletMetaRun(st, tabletId, 2).status.Ok?
    ensures var entry, meta := TabletStep(st, level)(tabletId), TabletMetaRun(st, tabletId, 2);
      && entry.status.Ok? && |meta.lines| == 4
      && entry.lines == ["Tablet: " + tabletId] + meta.lines
  {
    var meta := st.loadMeta(tabletId).value;
    assert |MetaLines(meta, 2)| == 3;
  }

  /** The lines PrintTabletMeta writes for each tablet, at the indentation
      ListAllTablets uses. */
  function PrintedMeta(st: Storage): string -> seq<string>
  {
    tabletId => TabletMetaRun(st, tabletId, 2).lines
  }

  /** `lines` is one group of five lines per tablet of `ids`, in order: the
      "Tablet: <id>" line, then the four lines `meta` gives for that tablet. */
  predicate TabletGroups(lines: seq<string>, ids: seq<string>, meta: string -> seq<string>)
  {
    && |lines| == 5 * |ids|
    && forall i {:trigger ids[i]} :: 0 <= i < |ids| ==>
         lines[5 * i..5 * i + 5] == ["Tablet: " + ids[i]] + meta(ids[i])
  }

  lemma TabletGroupsAppend(lines: seq<string>, ids: seq<string>, meta: string -> seq<string>,
                           group: seq<string>, id: string)
    requires TabletGroups(lines, ids, meta)
    requires |meta(id)| == 4 && group == ["Tablet: " + id] + meta(id)
    ensures TabletGroups(lines + group, ids + [id], meta)
  {
    var all, allIds := lines + group, ids + [id];
    forall i | 0 <= i < |allIds|
      ensures all[5 * i..5 * i + 5] == ["Tablet: " + allIds[i]] + meta(allIds[i])
    {
      if i < |ids| {
        assert all[5 * i..5 * i + 5] == lines[5 * i..5 * i + 5];
      } else {
        assert all[5 * i..5 * i + 5] == group;
      }
    }
  }

  /** `entry` succeeds with the "Tablet: <id>" line followed by the four lines `meta`
      gives for that tablet. */
  predicate PrintsGroup(entry: Run, id: string, meta: string -> seq<string>)
  {
    entry.status.Ok? && |meta(id)| == 4 && entry.lines == ["Tablet: " + id] + meta(id)
  }

  /** A tablet's group after the groups of the tablets before it. */
  lemma TabletGroupsThen(done: Run, entry: Run, ids: seq<string>, meta: string -> seq<string>, id: string)
    requires done.status.Ok? && TabletGroups(done.lines, ids, meta)
    requires PrintsGroup(entry, id, meta)
    ensures Then(done, entry).status.Ok? && TabletGroups(Then(done, entry).lines, ids + [id], meta)
  {
    TabletGroupsAppend(done.lines, ids, meta, entry.lines, id);
  }

  /** Running steps that each succeed with the "Tablet: <id>" line followed by the
      four lines `meta` gives for that tablet yields those groups in order. */
  lemma {:induction false} SequenceTabletGroups(ids: seq<string>, step: string -> Run, meta: string -> seq<string>)
    requires forall id :: id in ids ==> PrintsGroup(step(id), id, meta)
    ensures Sequence(ids, step).status.Ok? && TabletGroups(Sequence(ids, step).lines, ids, meta)
  {
    if ids != [] {
      var init, last := ids[..|ids| - 1], ids[|ids| - 1];
      SplitLast(ids);
      SequenceTabletGroups(init, step, meta);
      var done := Sequence(init, step);
      assert Sequence(ids, step) == Then(done, step(last));
      TabletGroupsThen(done, step(last), init, meta, last);
    }
  }

  /** ListAllTablets at HEADERS_ONLY or above, when every tablet's metadata prints
      without error: for each tablet, in listing order, the "Tablet: <id>" line
      followed by exactly what PrintTabletMeta writes for that tablet. */
  lemma TabletListHeaders(st: Storage, level: DetailLevel)
    requires AtLeastHeaders(level) && st.tabletIds.Success?
    requires forall id :: id in st.tabletIds.value ==> TabletMetaRun(st, id, 2).status.Ok?
    ensures var r := AllTabletsRun(st, level);
      r.status.Ok? && TabletGroups(r.lines, st.tabletIds.value, PrintedMeta(st))
  {
    var ids := st.tabletIds.value;
    var step := TabletStep(st, level);
    var meta := PrintedMeta(st);
    forall id | id in ids
      ensures PrintsGroup(step(id), id, meta)
    {
      TabletEntryLines(st, level, id);
    }
    SequenceTabletGroups(ids, step, meta);
  }
}
