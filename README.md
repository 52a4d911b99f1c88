# fs_tool: a verified model of YugabyteDB's read-only file system inspection tool

`FsTool` is an offline tool over a tablet server's data directories. It is built
for one detail level: ID_ONLY, HEADERS_ONLY or FULL. It can do four things:

- walk every WAL root and list the log segments of every table and tablet
  directory;
- list the segments of one tablet's WAL directory and of its recovery directory;
- list the tablets, with their metadata at HEADERS_ONLY or above;
- dump a tablet's data and print the file system's uuid.

Each operation writes lines to standard output. It returns a status, and the first
error stops the whole operation.

This project models that tool over one read-only storage snapshot. The snapshot is
the `Storage` datatype in `storage.dfy`. Every collaborator the tool calls is a
field of that snapshot:

- existence checks and directory listings;
- path joining and the recovery-directory name;
- the log-segment naming convention;
- opening a segment;
- loading tablet metadata and listing tablet ids;
- opening and dumping a tablet.

The model therefore says nothing about how these collaborators compute their answers.

The model is in three layers.

- **Specification** (`inspection.dfy`). A `Run` is what one call does: the status it
  returns, the lines it writes (one element per output statement) and the segment
  scans and segment opens it makes. There is one spec function per operation.
  `Runs.Then` composes two runs with early return on error. `Runs.Sequence` runs one
  step per item and stops at the first error, the way the source's `for` loops with
  `RETURN_NOT_OK` do.
- **Implementation** (`tool.dfy`). The class `FsTool` has the fields `initialized`,
  `out` (standard output) and a ghost `trace`. Its methods follow the source
  statement by statement, with the same loops, `continue`s and early returns, and the
  same in-place `erase(remove_if(...))` on an array. Each method is proved to write
  exactly the lines of its spec function, return its status and make its accesses.
- **Properties** (`properties.dfy`, `indentation.dfy`). These lemmas state what the
  tool promises. The main ones:
  - the four outcomes of reading a segment header;
  - the segment catalog at each detail level;
  - the recovery/normal classification of a child directory;
  - the aborts of the WAL walk;
  - hidden entries are never walked;
  - the per-tablet walk;
  - the indentation arithmetic and its inverse.

Error statuses carry a code and a message. `RETURN_NOT_OK_PREPEND(s, context)` keeps
the code of `s` and makes its message `context + ": " + message` (`Errors.Prepend`).

Two behaviours of the code that a reader might not expect:

- A missing WAL root makes `ListAllLogSegments` return **Corruption** (fs_tool.cc:121),
  not NotFound.
- A failing `ListDir` in `ListSegmentsInDir` writes nothing. The "Segments in" line
  comes only after a successful listing (fs_tool.cc:198-200).

## Model

| member | source | states |
|---|---|---|
| Errors.Prepend | src/yb/tools/fs_tool.cc:129-130 | prepending context keeps success as success and an error's code; the error's message becomes the context, ": ", then the original message |
| Indentation.Spaces | src/yb/tools/fs_tool.cc:75-77 | `Indent(n)` is exactly `n` characters, all spaces |
| Indentation.IndentStringLength | src/yb/tools/fs_tool.cc:79-81 | the indented text is `n` characters longer than the original for its first line, plus `n` more per newline |
| Indentation.ReplaceNewlinesLength | src/yb/tools/fs_tool.cc:80 | replacing each newline by newline plus pad adds `|pad|` characters per newline |
| Indentation.IndentStringZero | src/yb/tools/fs_tool.cc:79-81 | indenting by zero returns the text unchanged |
| Indentation.ReplaceNewlinesEmptyPad | src/yb/tools/fs_tool.cc:80 | replacing newlines by themselves changes nothing |
| Indentation.IndentStringRoundTrip | src/yb/tools/fs_tool.cc:79-81 | dropping the leading indentation and the indentation after each newline recovers the original text |
| Indentation.DropAfterReplace | src/yb/tools/fs_tool.cc:80 | dropping the pad after each newline undoes the newline replacement |
| Indentation.IndentStringPadsEveryLine | src/yb/tools/fs_tool.cc:79-81 | the indented text starts with `n` spaces and every newline in it is followed by `n` spaces |
| Indentation.ReplaceNewlinesPads | src/yb/tools/fs_tool.cc:80 | after the replacement, every newline is followed by the pad, provided the pad has no newline |
| Indentation.PaddedAfterHead | src/yb/tools/fs_tool.cc:80 | putting one replaced character in front of a text whose newlines are padded keeps every newline padded |
| Storage.Visible | src/yb/tools/fs_tool.cc:131-134 | the visible names are exactly the listed names without a "." prefix |
| Runs.SequenceStops | src/yb/tools/fs_tool.cc:151 | once an item returns an error, the items after it never run |
| Runs.SequenceSkips | src/yb/tools/fs_tool.cc:139-144 | a loop that `continue`s past rejected items does the same as running only the accepted items, in order |
| Runs.SequenceEmits | src/yb/tools/fs_tool.cc:185-192 | items that each write one line write one line per item, in order, and succeed |
| Runs.SequenceOneAccessEach | src/yb/tools/fs_tool.cc:201-212 | items that each make one access make those accesses in item order, all of them when the loop succeeds |
| Runs.SequenceTraceFrom | src/yb/tools/fs_tool.cc:135-153 | every access made by a loop was made by one of its items |
| Properties.HeaderOutcomes | src/yb/tools/fs_tool.cc:216-239 | Uninitialized and Corruption from opening a segment give OK with no output. Any other error keeps its code behind "Unexpected error reading log segment <path>". Success writes exactly three lines: "Size: ", "Header: " and the header text, each at the indent, with every header line padded and the text recoverable. The segment is opened exactly once |
| Properties.SegmentEntryTrace | src/yb/tools/fs_tool.cc:202-211 | a listing entry opens exactly `dir/name` once when it is a log file name at HEADERS_ONLY or above, and makes no access otherwise |
| Properties.SegmentCatalogIdOnly | src/yb/tools/fs_tool.cc:196-214 | below HEADERS_ONLY, a listing failure comes back behind "Unable to list log segments" with nothing written. Otherwise the output is "Segments in <dir>:" followed by "\t" + name for exactly the log-file names, in listing order. No segment is opened |
| Properties.SegmentCatalogListFailure | src/yb/tools/fs_tool.cc:196-200 | at every detail level, a directory that cannot be listed gives the listing error behind "Unable to list log segments". Nothing is written and no segment is opened |
| Properties.SegmentCatalogOpens | src/yb/tools/fs_tool.cc:196-214 | at HEADERS_ONLY or above, after a successful listing, "Segments in <dir>:" comes first. Then comes "Segment: <name>" followed by that segment's header, for exactly the log-named entries, in listing order, up to the first failure. Each such entry is opened once, at `dir/name`, and all of them are when the scan succeeds |
| Properties.ShownSegmentsTrace | src/yb/tools/fs_tool.cc:201-211 | listing segments with their headers opens them one at a time, in order, up to the first failure, and opens all of them when none fails |
| Properties.SegmentsTrace | src/yb/tools/fs_tool.cc:196-214 | every access of a segment scan is the scan of that directory or the opening of one of its log-named entries |
| Properties.ChildLabelClassifies | src/yb/tools/fs_tool.cc:145-150 | a child is announced as "Log recovery dir found: " exactly when its name ends with the recovery suffix, and as "Log directory: " exactly when it does not |
| Properties.TableScansVisibleChildren | src/yb/tools/fs_tool.cc:137-152 | a table directory's walk labels and scans exactly its visible children, in listing order |
| Properties.WalkStopsAtFailingRoot | src/yb/tools/fs_tool.cc:119-154 | the first WAL root whose walk fails ends the walk, and later roots are not visited |
| Properties.MissingRootAborts | src/yb/tools/fs_tool.cc:120-123 | a missing WAL root ends the walk with Corruption naming the root. Nothing is written or scanned for it or any later root |
| Properties.RootListFailureAborts | src/yb/tools/fs_tool.cc:125-130 | a WAL root that cannot be listed ends the walk behind "Could not list table directories", right after its "Root log directory" line |
| Properties.TableListFailureAborts | src/yb/tools/fs_tool.cc:135-138 | a visible table directory that cannot be listed ends the whole walk behind "Could not list log directories". What was written and scanned is exactly the earlier roots' output, this root's line and the earlier tables' output; no later table or root writes or scans anything |
| Properties.TableFailureInRoot | src/yb/tools/fs_tool.cc:124-153 | within one WAL root, a table directory that cannot be listed ends the root's walk after the root's line and the output of the tables before it |
| Properties.TableTrace | src/yb/tools/fs_tool.cc:139-151 | every access of a table directory's walk belongs to the scan of one of its visible children |
| Properties.RootTrace | src/yb/tools/fs_tool.cc:129-152 | every access of a WAL root's walk belongs to the scan of a visible child of a visible table directory |
| Properties.WalkTouchesOnlyVisible | src/yb/tools/fs_tool.cc:131-151 | every directory the walk scans is a visible child of a visible table directory of a WAL root. Every segment it opens is a log-named entry of such a directory |
| Properties.TabletWalkOutcomes | src/yb/tools/fs_tool.cc:158-177 | a metadata failure is returned unchanged. A missing WAL dir gives NotFound, with a message naming the tablet and the directory, and writes nothing. Otherwise "Tablet WAL dir found" is written and the WAL dir is scanned first. Without a recovery dir the call ends there without error. With one, after a successful WAL scan, "Recovery dir found: <dir>" is written and the recovery dir is scanned |
| Properties.RecoveryScannedOnlyIfPresent | src/yb/tools/fs_tool.cc:170-175 | the recovery dir is scanned only if it exists and only after the WAL dir scan succeeded |
| Properties.TabletListIdOnly | src/yb/tools/fs_tool.cc:185-192 | below HEADERS_ONLY, ListAllTablets writes "\t" + id for each tablet, in order, and nothing else |
| Properties.TabletEntryLines | src/yb/tools/fs_tool.cc:186-188 | at HEADERS_ONLY or above, a tablet whose metadata prints gets "Tablet: <id>" followed by exactly the four lines PrintTabletMeta writes for it |
| Properties.SequenceTabletGroups | src/yb/tools/fs_tool.cc:185-192 | tablets that each print their heading and then their own four metadata lines give those groups in listing order |
| Properties.TabletGroupsAppend | src/yb/tools/fs_tool.cc:185-192 | one more tablet group extends the grouping by that tablet |
| Properties.TabletListHeaders | src/yb/tools/fs_tool.cc:180-194 | at HEADERS_ONLY or above, when every tablet's metadata prints, ListAllTablets succeeds. For each tablet, in listing order, it writes "Tablet: <id>" followed by exactly what PrintTabletMeta writes for that tablet |
| Tool.EraseHidden | src/yb/tools/fs_tool.cc:131-134 | the in-place erase/remove_if leaves at the front of the array exactly the visible names, in their original order, and returns how many there are |
| Tool.ChildSkipped | src/yb/tools/fs_tool.cc:140-144 | a hidden child adds nothing to the table directory's walk |
| Tool.ChildScanned | src/yb/tools/fs_tool.cc:145-151 | a visible child adds its label line and its scan to the walk, and the walk's status becomes the scan's |
| Tool.FsTool.constructor | src/yb/tools/fs_tool.cc:84-87 | a new tool is bound to its detail level and storage, is not initialized, and has written nothing |
| Tool.FsTool.Init | src/yb/tools/fs_tool.cc:92-106 | may be called only on an uninitialized tool. It returns the outcome of opening the storage manager and marks the tool initialized exactly when that succeeds |
| Tool.FsTool.PrintLogSegmentHeader | src/yb/tools/fs_tool.cc:216-239 | returns the status, writes the lines and makes the access of the header specification, whose outcomes Properties.HeaderOutcomes states |
| Tool.FsTool.ListSegmentsInDir | src/yb/tools/fs_tool.cc:196-214 | the loop writes exactly the segment catalog's lines, makes its accesses and returns its status (see the SegmentCatalog lemmas) |
| Tool.FsTool.ListAllLogSegments | src/yb/tools/fs_tool.cc:115-156 | the loop over WAL roots does exactly the walk of all roots, stopping at the first failing root (see the walk lemmas) |
| Tool.FsTool.ListWalRoot | src/yb/tools/fs_tool.cc:119-154 | one WAL root: existence check, its line, its listing erased of hidden names, then each table in turn up to the first failure |
| Tool.FsTool.ListTableWalDir | src/yb/tools/fs_tool.cc:135-153 | one table directory: its listing, then each visible child labelled and scanned, up to the first failure |
| Tool.FsTool.ListLogSegmentsForTablet | src/yb/tools/fs_tool.cc:158-177 | does exactly the per-tablet walk specified by TabletLogSegmentsRun, whose outcomes Properties.TabletWalkOutcomes states |
| Tool.FsTool.PrintTabletMeta | src/yb/tools/fs_tool.cc:241-260 | a load failure is returned unchanged. Otherwise the partition, table and schema lines are written at the indent, then the superblock, or the superblock error behind "Could not get superblock" |
| Tool.FsTool.ListAllTablets | src/yb/tools/fs_tool.cc:180-194 | a failure to list tablet ids is returned. Otherwise each tablet is listed in order at the detail level, stopping at the first metadata failure |
| Tool.FsTool.DumpTabletData | src/yb/tools/fs_tool.cc:262-279 | load, open and dump failures come back behind their contexts. Otherwise the dumped lines are written in order |
| Tool.FsTool.PrintUUID | src/yb/tools/fs_tool.cc:281-284 | writes the uuid after `indent` spaces and succeeds |

## Left out

- `FsManager` construction, `Env::Default()` and the internals of `FsManager::Open`
  (fs_tool.cc:92-101) are not modelled. The outcome of `Open` is the snapshot's
  `openStatus`, and the storage is given to the tool at construction.
- `FsTree` / `DumpFileSystemTree` (fs_tool.cc:108-113) is not modelled: it only
  forwards the whole output to the storage manager.
- `LOG` and `VLOG` diagnostics go to the log, not to standard output. They are not
  modelled.
- `HumanReadableNumBytes`, protobuf `DebugString`, `PartitionDebugString`,
  `Schema::ToString` and `ToSuperBlock` are already-rendered strings or `Result`s in
  the snapshot. Their formats belong to other components.
- `log::IsLogFileName`, `ReadableLogSegment::Open`, `TabletMetadata::Load`,
  `ListTabletIds`, `JoinPathSegments` and `GetTabletWalRecoveryDir` are uninterpreted
  fields of the snapshot. `kWalsRecoveryDirSuffix` is the field `recoverySuffix`.
- The `Tablet` engine in `DumpTabletData` is not modelled. Opening it is a `Status`
  field and its debug dump is a `Result` of lines.
- `ListDir` is assumed to return a fresh listing on every call. The source reuses the
  `children` vector across tables (fs_tool.cc:127, 137), and whether `ListDir`
  clears it cannot be seen in this file.
- Races with a live server between listing and opening are not modelled. The
  snapshot is fixed.
- The `DCHECK(initialized_)` guards are preconditions `requires initialized`. The
  `CHECK(!initialized_)` of `Init` is `requires !initialized`.
- The `int indent` parameters are `nat`: every caller passes 0 or 2.
- Tool.FsTool.ListAllLogSegments: the bodies of its loops over WAL roots and over
  table directories are the helper methods `ListWalRoot` and `ListTableWalDir`. The
  statements and their order are those of the source, but the nesting is split
  across three methods.
- Output is a sequence of strings, one per output statement, without the `endl`.
  The indented header text, written without `endl`, is its own element.
- There is no claim that FULL output is a line-for-line superset of HEADERS_ONLY
  output. The code prints different lines per level (fs_tool.cc:206 vs 210) and
  promises no such relation.
