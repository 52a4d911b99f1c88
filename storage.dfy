/** What the inspection tool consumes from the storage manager and the log and
    tablet components, as one read-only snapshot. Every collaborator the tool calls
    is a field here, so the model says nothing about how they compute their answers. */
module Storage {
  import opened Errors
  import opened Seqs

  type Path = string

  /** How detailed the listings are; the levels are ordered ID_ONLY < HEADERS_ONLY < FULL. */
  datatype DetailLevel = IdOnly | HeadersOnly | Full

  function Rank(level: DetailLevel): nat
  {
    match level
    case IdOnly => 0
    case HeadersOnly => 1
    case Full => 2
  }

  /** `detail_level_ >= HEADERS_ONLY`. */
  predicate AtLeastHeaders(level: DetailLevel)
  {
    Rank(level) >= Rank(HeadersOnly)
  }

  /** An opened log segment, as far as the tool shows it: its size, already rendered
      in human-readable form, and the debug rendering of its header. */
  datatype Segment = Segment(sizeText: string, headerText: string)

  /** A loaded tablet metadata record, as far as the tool shows it. */
  datatype TabletMeta = TabletMeta(
    walDir: Path,
    partitionText: string,   // the partition rendered against the tablet's schema
    tableName: string,
    tableId: string,
    schemaVersion: nat,
    schemaText: string,
    superblock: Result<string>)  // conversion to a superblock, rendered; may fail

  /** The storage snapshot the tool inspects, and the collaborators it calls. */
  datatype Storage = Storage(
    openStatus: Status,                          // outcome of opening the storage manager read-only
    uuid: string,
    walRootDirs: seq<Path>,
    pathExists: Path -> bool,
    listDir: Path -> Result<seq<string>>,        // each call returns a fresh listing
    join: (Path, string) -> Path,                // path joining
    recoverySuffix: string,                      // the reserved suffix of recovery directories
    recoveryDirOf: Path -> Path,                 // a tablet WAL dir's recovery dir
    isLogFileName: string -> bool,               // the log-segment naming convention
    openSegment: Path -> Result<Segment>,        // open and parse one segment
    loadMeta: string -> Result<TabletMeta>,      // load a tablet's metadata by tablet id
    tabletIds: Result<seq<string>>,
    openTablet: TabletMeta -> Status,            // open an inspection-only tablet
    dumpTablet: TabletMeta -> Result<seq<string>>) // its debug dump, line by line

  // The collaborators as functions of the snapshot, for the tool's methods to call.

  function PathExists(st: Storage, path: Path): bool
  {
    st.pathExists(path)
  }

  function ListDir(st: Storage, dir: Path): Result<seq<string>>
  {
    st.listDir(dir)
  }

  function Join(st: Storage, dir: Path, name: string): Path
  {
    st.join(dir, name)
  }

  function RecoveryDirOf(st: Storage, walDir: Path): Path
  {
    st.recoveryDirOf(walDir)
  }

  function IsLogFileName(st: Storage, name: string): bool
  {
    st.isLogFileName(name)
  }

  function ReadSegment(st: Storage, path: Path): Result<Segment>
  {
    st.openSegment(path)
  }

  function LoadMeta(st: Storage, tabletId: string): Result<TabletMeta>
  {
    st.loadMeta(tabletId)
  }

  function OpenTablet(st: Storage, meta: TabletMeta): Status
  {
    st.openTablet(meta)
  }

  function DumpTablet(st: Storage, meta: TabletMeta): Result<seq<string>>
  {
    st.dumpTablet(meta)
  }

  /** The names listed in `dir`, or none when listing fails. */
  function Listed(st: Storage, dir: Path): seq<string>
  {
    if st.listDir(dir).Success? then st.listDir(dir).value else []
  }

  predicate HasPrefix(s: string, prefix: string)
  {
    |prefix| <= |s| && s[..|prefix|] == prefix
  }

  predicate HasSuffix(s: string, suffix: string)
  {
    |suffix| <= |s| && s[|s| - |suffix|..] == suffix
  }

  /** Hidden entries (".", ".." and dot files) start with a dot. */
  predicate Hidden(name: string)
  {
    HasPrefix(name, ".")
  }

  predicate IsVisible(name: string)
  {
    !Hidden(name)
  }

  /** The entries of a listing that are not hidden, in listing order. */
  function Visible(names: seq<string>): (r: seq<string>)
    ensures forall x :: x in r <==> x in names && !Hidden(x)
  {
    Filter(names, IsVisible)
  }

  /** A child directory of a table WAL directory is a recovery directory exactly when
      its name carries the reserved suffix. */
  predicate IsRecoveryDir(st: Storage, child: string)
  {
    HasSuffix(child, st.recoverySuffix)
  }
}
