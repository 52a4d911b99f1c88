/** What each operation of the inspection tool does, as a function of the storage
    snapshot and the detail level: the status it returns, what it writes and which
    directories and segments it touches. The class in module Tool is proved to
    behave exactly like these functions; the lemmas here state what they promise. */
module Inspection {
  import opened Errors
  import opened Seqs
  import opened Storage
  import opened Runs
  import opened Indentation

  // ---------------------------------------------------------------------------
  // Log segment header reader

  /** The lines written for a successfully opened segment. */
  function HeaderLines(segment: Segment, indent: nat): seq<string>
  {
    [ Spaces(indent) + "Size: " + segment.sizeText,
      Spaces(indent) + "Header: ",
      IndentString(segment.headerText, indent) ]
  }

  /** PrintLogSegmentHeader(path, indent). */
  function HeaderRun(st: Storage, path: Path, indent: nat): Run
  {
    var access := [OpenSegment(path)];
    match st.openSegment(path)
    case Failure(Uninitialized, _) => Run(Ok, [], access)
    case Failure(Corruption, _) => Run(Ok, [], access)
    case Failure(code, message) =>
      Run(Prepend(Error(code, message), "Unexpected error reading log segment " + path), [], access)
    case Success(segment) => Run(Ok, HeaderLines(segment, indent), access)
  }

  // ---------------------------------------------------------------------------
  // Segment catalog

  /** A name as listed below HEADERS_ONLY: after a tab. */
  function Tabbed(name: string): string
  {
    "\t" + name
  }

  /** One entry of a segment directory listing. */
  function SegmentEntry(st: Storage, level: DetailLevel, dir: Path, name: string): Run
  {
    if !st.isLogFileName(name) then Done()
    else if AtLeastHeaders(level) then
      Then(Emit("Segment: " + name), HeaderRun(st, st.join(dir, name), 2))
    else Emit(Tabbed(name))
  }

  function SegmentStep(st: Storage, level: DetailLevel, dir: Path): string -> Run
  {
    name => SegmentEntry(st, level, dir, name)
  }

  /** ListSegmentsInDir(dir). */
  function SegmentsRun(st: Storage, level: DetailLevel, dir: Path): Run
  {
    var scan := [ListSegments(dir)];
    match st.listDir(dir)
    case Failure(code, message) =>
      Run(Prepend(Error(code, message), "Unable to list log segments"), [], scan)
    case Success(names) =>
      Then(Run(Ok, ["Segments in " + dir + ":"], scan), Sequence(names, SegmentStep(st, level, dir)))
  }

  // ---------------------------------------------------------------------------
  // Directory walker over all WAL roots

  /** The line naming a tablet WAL directory and saying whether it is a recovery one. */
  function ChildLabel(st: Storage, child: string, path: Path): string
  {
    if IsRecoveryDir(st, child) then "Log recovery dir found: " + path else "Log directory: " + path
  }

  /** A visible child of a table WAL directory: labelled, then scanned. */
  function ChildRun(st: Storage, level: DetailLevel, tableDir: Path, child: string): Run
  {
    var path := st.join(tableDir, child);
    Then(Emit(ChildLabel(st, child, path)), SegmentsRun(st, level, path))
  }

  function ChildRunStep(st: Storage, level: DetailLevel, tableDir: Path): string -> Run
  {
    child => ChildRun(st, level, tableDir, child)
  }

  /** One child entry as the loop sees it: hidden ones are skipped. */
  function ChildEntry(st: Storage, level: DetailLevel, tableDir: Path, child: string): Run
  {
    if Hidden(child) then Done() else ChildRun(st, level, tableDir, child)
  }

  function ChildStep(st: Storage, level: DetailLevel, tableDir: Path): string -> Run
  {
    child => ChildEntry(st, level, tableDir, child)
  }

  /** One (visible) table directory of a WAL root. */
  function TableRun(st: Storage, level: DetailLevel, root: Path, table: string): Run
  {
    var tableDir := st.join(root, table);
    match st.listDir(tableDir)
    case Failure(code, message) => Fail(Prepend(Error(code, message), "Could not list log directories"))
    case Success(children) => Sequence(children, ChildStep(st, level, tableDir))
  }

  function TableStep(st: Storage, level: DetailLevel, root: Path): string -> Run
  {
    table => TableRun(st, level, root, table)
  }

  /** The status returned for a WAL root that does not exist. */
  function MissingRoot(root: Path): Status
  {
    Error(Corruption, "root log directory '" + root + "' does not exist")
  }

  /** One WAL root. */
  function RootRun(st: Storage, level: DetailLevel, root: Path): Run
  {
    if !st.pathExists(root) then Fail(MissingRoot(root))
    else
      Then(Emit("Root log directory: " + root),
        match st.listDir(root)
        case Failure(code, message) => Fail(Prepend(Error(code, message), "Could not list table directories"))
        case Success(tables) => Sequence(Visible(tables), TableStep(st, level, root)))
  }

  function RootStep(st: Storage, level: DetailLevel): Path -> Run
  {
    root => RootRun(st, level, root)
  }

  /** ListAllLogSegments(). */
  function AllLogSegmentsRun(st: Storage, level: DetailLevel): Run
  {
    Sequence(st.walRootDirs, RootStep(st, level))
  }

  // ---------------------------------------------------------------------------
  // Per-tablet walk

  /** The recovery directory of a tablet, scanned only when it exists. */
  function RecoveryRun(st: Storage, level: DetailLevel, recoveryDir: Path): Run
  {
    if st.pathExists(recoveryDir) then
      Then(Emit("Recovery dir found: " + recoveryDir), SegmentsRun(st, level, recoveryDir))
    else Done()
  }

  /** The status returned when a tablet's WAL directory does not exist. */
  function NoLogs(tabletId: string, walDir: Path): Status
  {
    Error(NotFound, "tablet '" + tabletId + "' has no logs in wals dir '" + walDir + "'")
  }

  /** ListLogSegmentsForTablet(tablet_id). */
  function TabletLogSegmentsRun(st: Storage, level: DetailLevel, tabletId: string): Run
  {
    match st.loadMeta(tabletId)
    case Failure(code, message) => Fail(Error(code, message))
    case Success(meta) =>
      if !st.pathExists(meta.walDir) then Fail(NoLogs(tabletId, meta.walDir))
      else
        Then(Then(Emit("Tablet WAL dir found: " + meta.walDir), SegmentsRun(st, level, meta.walDir)),
             RecoveryRun(st, level, st.recoveryDirOf(meta.walDir)))
  }

  // ---------------------------------------------------------------------------
  // Tablet metadata, tablet list, tablet dump, uuid

  function DigitChar(d: nat): char
    requires d < 10
  {
    "0123456789"[d]
  }

  /** The decimal rendering of `n`. */
  function Decimal(n: nat): string
  {
    if n < 10 then [DigitChar(n)] else Decimal(n / 10) + [DigitChar(n % 10)]
  }

  /** The lines written for a loaded metadata record before its superblock. */
  function MetaLines(meta: TabletMeta, indent: nat): seq<string>
  {
    [ Spaces(indent) + "Partition: " + meta.partitionText,
      Spaces(indent) + "Table name: " + meta.tableName + " Table id: " + meta.tableId,
      Spaces(indent) + "Schema (version=" + Decimal(meta.schemaVersion) + "): " + meta.schemaText ]
  }

  /** PrintTabletMeta(tablet_id, indent). */
  function TabletMetaRun(st: Storage, tabletId: string, indent: nat): Run
  {
    match st.loadMeta(tabletId)
    case Failure(code, message) => Fail(Error(code, message))
    case Success(meta) =>
      Then(Run(Ok, MetaLines(meta, indent), []),
        match meta.superblock
        case Failure(code, message) => Fail(Prepend(Error(code, message), "Could not get superblock"))
        case Success(text) => Emit("Superblock:\n" + text))
  }

  /** One tablet of ListAllTablets. */
  function TabletEntry(st: Storage, level: DetailLevel, tabletId: string): Run
  {
    if AtLeastHeaders(level) then Then(Emit("Tablet: " + tabletId), TabletMetaRun(st, tabletId, 2))
    else Emit(Tabbed(tabletId))
  }

  function TabletStep(st: Storage, level: DetailLevel): string -> Run
  {
    tabletId => TabletEntry(st, level, tabletId)
  }

  /** ListAllTablets(). */
  function AllTabletsRun(st: Storage, level: DetailLevel): Run
  {
    match st.tabletIds
    case Failure(code, message) => Fail(Error(code, message))
    case Success(ids) => Sequence(ids, TabletStep(st, level))
  }

  /** DumpTabletData(tablet_id). */
  function DumpRun(st: Storage, tabletId: string): Run
  {
    match st.loadMeta(tabletId)
    case Failure(code, message) => Fail(Error(code, message))
    case Success(meta) =>
      var openStatus := st.openTablet(meta);
      if openStatus.Error? then Fail(Prepend(openStatus, "Couldn't open tablet"))
      else
        match st.dumpTablet(meta)
        case Failure(code, message) => Fail(Prepend(Error(code, message), "Couldn't dump tablet"))
        case Success(lines) => Run(Ok, lines, [])
  }

  /** PrintUUID(indent). */
  function UuidRun(st: Storage, indent: nat): Run
  {
    Emit(Spaces(indent) + st.uuid)
  }
}
