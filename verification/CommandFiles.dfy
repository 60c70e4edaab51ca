/** Opening and truncating the files a command reads and writes
    (`src/command_runner/internal/io_files.rs`).

    The file system knows names, directory entries and files apart, so that hard
    links (two entries of one file) and symbolic links (two names of one entry) are
    both there.  Any operation may also fail for a reason of its own. */
module CommandFiles {
  import opened Basics

  type Inode = nat
  type Place = nat

  /** A file's kind, with the content of a regular file. */
  datatype Node = Regular(content: seq<Byte>) | Irregular

  /** Where a path leads: a plain name lies in its directory entry, if its parent
      exists; a symbolic link has an entry of its own and leads elsewhere. */
  datatype Name = Plain(place: Option<Place>) | Link(own: Place, target: Option<Place>) {
    function Target(): Option<Place> {
      if Plain? then place else target
    }

    function Own(): Option<Place> {
      if Plain? then place else Some(own)
    }
  }

  datatype FileError =
    | OpenInputFailed(path: Path, source: IoError)
    | NonRegularInputFile(path: Path)
    | OpenOutputFailed(stream: Stream, path: Path, source: IoError)
    | NonRegularOutputFile(stream: Stream, path: Path)
    | InspectIoFileFailed(path: Path, source: IoError)
    | InputOutputConflict(input: Path, stream: Stream, output: Path)
    | OutputFilesConflict(stdout: Path, stderr: Path)

  predicate IsConflict(error: FileError) {
    error.InputOutputConflict? || error.OutputFilesConflict?
  }

  /** An open file with the path it was opened by. */
  datatype OpenFile = OpenFile(path: Path, inode: Inode)

  /** Existing files keep kind and content; new ones are empty regular files. */
  ghost predicate OnlyCreates(before: map<Inode, Node>, after: map<Inode, Node>) {
    && (forall i :: i in before ==> i in after && after[i] == before[i])
    && (forall i :: i in after && i !in before ==> after[i] == Regular([]))
  }

  ghost predicate AtMostOneMore(before: map<Inode, Node>, after: map<Inode, Node>) {
    forall i, j :: i in after && i !in before && j in after && j !in before ==> i == j
  }

  class FileSystem {
    var names: Path -> Name
    var entries: map<Place, Inode>
    var nodes: map<Inode, Node>
    var next: Inode

    ghost predicate Valid()
      reads this
    {
      && (forall p :: p in entries ==> entries[p] in nodes)
      && (forall i :: i in nodes ==> i < next)
    }

    constructor (names: Path -> Name)
      ensures Valid() && this.names == names && entries == map[] && nodes == map[]
    {
      this.names := names;
      entries, nodes, next := map[], map[], 0;
    }

    /** The file that opening `path` reaches. */
    function Lookup(path: Path): Option<Inode>
      reads this
    {
      var place := names(path).Target();
      if place.Some? && place.value in entries then Some(entries[place.value]) else None
    }

    /** An unrelated failure, never "not found". */
    method Fault() returns (fault: Option<IoError>)
      ensures fault.Some? ==> !fault.value.kind.NotFound?
    {
      var e: IoError := *;
      var fails: bool := *;
      fault := if fails && !e.kind.NotFound? then Some(e) else None;
    }

    method Metadata(path: Path) returns (isFile: Result<bool, IoError>)
      requires Valid()
      ensures isFile.Ok? ==> Lookup(path).Some? && isFile.value == nodes[Lookup(path).value].Regular?
      ensures isFile.Err? && isFile.error.kind.NotFound? ==> Lookup(path).None?
      ensures Lookup(path).None? ==> isFile.Err?
    {
      var fault := Fault();
      if fault.Some? {
        return Err(fault.value);
      }
      match Lookup(path) {
        case Some(inode) => isFile := Ok(nodes[inode].Regular?);
        case None => isFile := Err(IoError(0, NotFound));
      }
    }

    /** Like `Metadata`, for the name itself: a dangling link is found. */
    method SymlinkMetadata(path: Path) returns (fault: Option<IoError>)
      ensures fault.None? ==> names(path).Link? || Lookup(path).Some?
      ensures fault.Some? && fault.value.kind.NotFound? ==> names(path).Plain? && Lookup(path).None?
    {
      fault := Fault();
      if fault.None? && names(path).Plain? && Lookup(path).None? {
        fault := Some(IoError(0, NotFound));
      }
    }

    method OpenRead(path: Path) returns (file: Result<Inode, IoError>)
      requires Valid()
      ensures file.Ok? ==> Lookup(path) == Some(file.value) && file.value in nodes
    {
      var fault := Fault();
      if fault.Some? {
        return Err(fault.value);
      }
      match Lookup(path) {
        case Some(inode) => file := Ok(inode);
        case None => file := Err(IoError(0, NotFound));
      }
    }

    /** Opens for writing without truncating; a missing file is created empty. */
    method OpenCreate(path: Path) returns (file: Result<Inode, IoError>)
      requires Valid()
      modifies this`entries, this`nodes, this`next
      ensures Valid() && OnlyCreates(old(nodes), nodes) && AtMostOneMore(old(nodes), nodes)
      ensures file.Ok? ==> Lookup(path) == Some(file.value) && file.value in nodes
      ensures file.Ok? && old(Lookup(path)).Some? ==> file.value == old(Lookup(path)).value
      ensures file.Err? || old(Lookup(path)).Some? ==> nodes == old(nodes) && entries == old(entries)
      ensures forall p :: p in old(entries) ==> p in entries && entries[p] == old(entries)[p]
    {
      var fault := Fault();
      if fault.Some? {
        return Err(fault.value);
      }
      var place := names(path).Target();
      if place.None? {
        return Err(IoError(0, NotFound));
      }
      if place.value in entries {
        return Ok(entries[place.value]);
      }
      file := Ok(next);
      nodes := nodes[next := Regular([])];
      entries := entries[place.value := next];
      next := next + 1;
    }

    /** `File::metadata`: the kind of an open file. */
    method HandleIsFile(file: Inode) returns (isFile: Result<bool, IoError>)
      requires file in nodes
      ensures isFile.Ok? ==> isFile.value == nodes[file].Regular?
    {
      var fault := Fault();
      isFile := if fault.Some? then Err(fault.value) else Ok(nodes[file].Regular?);
    }

    /** Whatever other processes do; an open file stays a file. */
    method OthersChange(handle: Option<Inode>)
      requires Valid()
      modifies this
      ensures Valid() && (handle.Some? && handle.value in old(nodes) ==> handle.value in nodes)
    {
      names := *;
      var bound: nat :| bound >= 0;
      var content: Node := *;
      var files: map<Inode, Node> := *;
      var places: map<Place, Inode> := *;
      var kept: set<Inode> := if handle.Some? && handle.value in nodes then {handle.value} else {};
      nodes := (map i: Inode | i in files && i < bound :: files[i]) + (map i: Inode | i in kept :: content);
      entries := map p | p in places && places[p] in nodes :: places[p];
      next := if handle.Some? && handle.value >= bound then handle.value + 1 else bound;
    }

    method Truncate(file: Inode) returns (fault: Option<IoError>)
      requires Valid() && file in nodes
      modifies this`nodes
      ensures Valid()
      ensures nodes == if fault.Some? then old(nodes) else old(nodes)[file := Regular([])]
    {
      fault := Fault();
      if fault.None? {
        nodes := nodes[file := Regular([])];
      }
    }
  }

  // ---------------------------------------------------------------------
  // Checks

  method EnsureRegularInput(fs: FileSystem, path: Path) returns (error: Option<FileError>)
    requires fs.Valid()
    ensures error.None? ==> fs.Lookup(path).Some? && fs.nodes[fs.Lookup(path).value].Regular?
    ensures error.Some? ==> match error.value
      case NonRegularInputFile(p) => p == path && fs.Lookup(p).Some? && fs.nodes[fs.Lookup(p).value].Irregular?
      case OpenInputFailed(p, _) => p == path
      case _ => false
  {
    var isFile := fs.Metadata(path);
    error := match isFile
      case Err(source) => Some(OpenInputFailed(path, source))
      case Ok(regular) => if regular then None else Some(NonRegularInputFile(path));
  }

  /** An output must be a regular file, or absent under a name that is not a link. */
  predicate UsableOutput(fs: FileSystem, path: Path)
    requires fs.Valid()
    reads fs
  {
    match fs.Lookup(path)
    case Some(inode) => fs.nodes[inode].Regular?
    case None => fs.names(path).Plain?
  }

  method EnsureRegularOutput(fs: FileSystem, s: Stream, path: Path) returns (error: Option<FileError>)
    requires fs.Valid()
    ensures error.None? ==> UsableOutput(fs, path)
    ensures error.Some? && error.value.NonRegularOutputFile? ==> !UsableOutput(fs, path)
    ensures error.Some? ==> match error.value
      case NonRegularOutputFile(stream, p) => stream == s && p == path
      case InspectIoFileFailed(p, _) => p == path
      case _ => false
  {
    var isFile := fs.Metadata(path);
    match isFile {
      case Ok(regular) => error := if regular then None else Some(NonRegularOutputFile(s, path));
      case Err(source) =>
        if source.kind.NotFound? {
          var inspected := fs.SymlinkMetadata(path);
          match inspected {
            case None => error := Some(NonRegularOutputFile(s, path));
            case Some(e) => error := if e.kind.NotFound? then None else Some(InspectIoFileFailed(path, e));
          }
        } else {
          error := Some(InspectIoFileFailed(path, source));
        }
    }
  }

  /** Where a path is said to lie: its file's entry, else its own entry, if known. */
  function NormalizedPlace(fs: FileSystem, path: Path): Option<Place>
    reads fs
  {
    if fs.Lookup(path).Some? then fs.names(path).Target() else fs.names(path).Own()
  }

  function NormalizedPlaceOf(fs: FileSystem, path: Option<Path>): Option<Place>
    reads fs
  {
    if path.Some? then NormalizedPlace(fs, path.value) else None
  }

  method NormalizedPath(fs: FileSystem, path: Option<Path>) returns (place: Result<Option<Place>, FileError>)
    ensures place.Ok? ==> place.value == NormalizedPlaceOf(fs, path)
    ensures place.Err? ==> place.error.InspectIoFileFailed? && path == Some(place.error.path)
  {
    match path {
      case None => place := Ok(None);
      case Some(p) =>
        var fault := fs.Fault();
        place := if fault.Some? then Err(InspectIoFileFailed(p, fault.value)) else Ok(NormalizedPlace(fs, p));
    }
  }

  predicate Same<T(==)>(a: Option<T>, b: Option<T>) {
    a.Some? && a == b
  }

  /** Two paths lead to one directory entry. */
  predicate SameEntry(fs: FileSystem, p: Path, q: Path)
    reads fs
  {
    Same(fs.names(p).Target(), fs.names(q).Target())
  }

  /** Two paths have a directory entry in common: one they lead to, or their own. */
  predicate ShareEntry(fs: FileSystem, p: Path, q: Path)
    reads fs
  {
    || SameEntry(fs, p, q) || Same(fs.names(p).Own(), fs.names(q).Own())
    || Same(fs.names(p).Own(), fs.names(q).Target()) || Same(fs.names(p).Target(), fs.names(q).Own())
  }

  /** Normalizing finds every pair of paths that lead to one entry, unless one of them
      is a link that leads nowhere, and finds only paths that share an entry. */
  lemma NormalizedMeansEntry(fs: FileSystem, p: Path, q: Path)
    ensures SameEntry(fs, p, q) && (fs.Lookup(p).None? ==> fs.names(p).Plain?)
            && (fs.Lookup(q).None? ==> fs.names(q).Plain?) ==>
              Same(NormalizedPlace(fs, p), NormalizedPlace(fs, q))
    ensures Same(NormalizedPlace(fs, p), NormalizedPlace(fs, q)) ==> ShareEntry(fs, p, q)
  {
  }

  /** Neither of two paths, as far as configured, leads to the other's entry. */
  predicate Apart(fs: FileSystem, p: Option<Path>, q: Option<Path>)
    reads fs
  {
    p.Some? && q.Some? ==> !SameEntry(fs, p.value, q.value)
  }

  function PathOf(s: Stream, stdout: Option<Path>, stderr: Option<Path>): Option<Path> {
    if s.Stdout? then stdout else stderr
  }

  /** An error found before anything is opened for writing names the configured paths,
      and an objection it raises is true. */
  predicate ObjectionIsReal(fs: FileSystem, error: FileError, stdin: Option<Path>, stdout: Option<Path>,
                            stderr: Option<Path>)
    requires fs.Valid()
    reads fs
  {
    match error
    case OpenInputFailed(p, _) => stdin == Some(p)
    case NonRegularInputFile(p) =>
      stdin == Some(p) && fs.Lookup(p).Some? && fs.nodes[fs.Lookup(p).value].Irregular?
    case OpenOutputFailed(s, p, _) => PathOf(s, stdout, stderr) == Some(p)
    case NonRegularOutputFile(s, p) => PathOf(s, stdout, stderr) == Some(p) && !UsableOutput(fs, p)
    case InspectIoFileFailed(p, _) => stdin == Some(p) || stdout == Some(p) || stderr == Some(p)
    case InputOutputConflict(p, s, q) =>
      stdin == Some(p) && PathOf(s, stdout, stderr) == Some(q) && ShareEntry(fs, p, q)
    case OutputFilesConflict(p, q) => stdout == Some(p) && stderr == Some(q) && ShareEntry(fs, p, q)
  }

  /** Rejects two configured paths with one normalized place, before anything is opened for writing. */
  method ValidateNormalizedPaths(fs: FileSystem, stdin: Option<Path>, stdout: Option<Path>, stderr: Option<Path>)
    returns (error: Option<FileError>)
    ensures error.None? ==>
      && !Same(NormalizedPlaceOf(fs, stdin), NormalizedPlaceOf(fs, stdout))
      && !Same(NormalizedPlaceOf(fs, stdin), NormalizedPlaceOf(fs, stderr))
      && !Same(NormalizedPlaceOf(fs, stdout), NormalizedPlaceOf(fs, stderr))
    ensures error.Some? && error.value.InputOutputConflict? ==>
      Same(NormalizedPlaceOf(fs, stdin), NormalizedPlaceOf(fs, if error.value.stream.Stdout? then stdout else stderr))
    ensures error.Some? && error.value.OutputFilesConflict? ==>
      Same(NormalizedPlaceOf(fs, stdout), NormalizedPlaceOf(fs, stderr))
    ensures error.Some? && fs.Valid() ==> ObjectionIsReal(fs, error.value, stdin, stdout, stderr)
  {
    if stdin.Some? && stdout.Some? {
      NormalizedMeansEntry(fs, stdin.value, stdout.value);
    }
    if stdin.Some? && stderr.Some? {
      NormalizedMeansEntry(fs, stdin.value, stderr.value);
    }
    if stdout.Some? && stderr.Some? {
      NormalizedMeansEntry(fs, stdout.value, stderr.value);
    }
    var input := NormalizedPath(fs, stdin);
    if input.Err? {
      return Some(input.error);
    }
    var out := NormalizedPath(fs, stdout);
    if out.Err? {
      return Some(out.error);
    }
    var err := NormalizedPath(fs, stderr);
    if err.Err? {
      return Some(err.error);
    }
    if Same(input.value, out.value) {
      return Some(InputOutputConflict(stdin.value, Stdout, stdout.value));
    }
    if Same(input.value, err.value) {
      return Some(InputOutputConflict(stdin.value, Stderr, stderr.value));
    }
    if Same(out.value, err.value) {
      return Some(OutputFilesConflict(stdout.value, stderr.value));
    }
    error := None;
  }

  function InodeOf(file: Option<OpenFile>): Option<Inode> {
    if file.Some? then Some(file.value.inode) else None
  }

  ghost predicate Distinct(stdin: Option<OpenFile>, stdout: Option<OpenFile>, stderr: Option<OpenFile>) {
    && !Same(InodeOf(stdin), InodeOf(stdout))
    && !Same(InodeOf(stdin), InodeOf(stderr))
    && !Same(InodeOf(stdout), InodeOf(stderr))
  }

  /** The identity behind a handle; duplicating or inspecting it may fail. */
  method FileHandle(fs: FileSystem, file: Option<OpenFile>) returns (handle: Result<Option<Inode>, FileError>)
    ensures handle.Ok? ==> handle.value == InodeOf(file)
    ensures handle.Err? ==>
      handle.error.InspectIoFileFailed? && file.Some? && handle.error.path == file.value.path
  {
    match file {
      case None => handle := Ok(None);
      case Some(f) =>
        var fault := fs.Fault();
        handle := if fault.Some? then Err(InspectIoFileFailed(f.path, fault.value)) else Ok(Some(f.inode));
    }
  }

  predicate HasPath(file: Option<OpenFile>, p: Path) {
    file.Some? && file.value.path == p
  }

  predicate NamesOpenFiles(error: FileError, stdin: Option<OpenFile>, stdout: Option<OpenFile>,
                           stderr: Option<OpenFile>)
  {
    match error
    case InputOutputConflict(p, s, q) => HasPath(stdin, p) && HasPath(if s.Stdout? then stdout else stderr, q)
    case OutputFilesConflict(p, q) => HasPath(stdout, p) && HasPath(stderr, q)
    case InspectIoFileFailed(p, _) => HasPath(stdin, p) || HasPath(stdout, p) || HasPath(stderr, p)
    case _ => true
  }

  method ValidateFileIdentities(fs: FileSystem, stdin: Option<OpenFile>, stdout: Option<OpenFile>,
                                stderr: Option<OpenFile>)
    returns (error: Option<FileError>)
    ensures error.None? ==> Distinct(stdin, stdout, stderr)
    ensures error.Some? && error.value.InputOutputConflict? ==>
      Same(InodeOf(stdin), InodeOf(if error.value.stream.Stdout? then stdout else stderr))
    ensures error.Some? && error.value.OutputFilesConflict? ==> Same(InodeOf(stdout), InodeOf(stderr))
    ensures error.Some? ==> IsConflict(error.value) || error.value.InspectIoFileFailed?
    ensures error.Some? ==> NamesOpenFiles(error.value, stdin, stdout, stderr)
  {
    var input := FileHandle(fs, stdin);
    if input.Err? {
      return Some(input.error);
    }
    var out := FileHandle(fs, stdout);
    if out.Err? {
      return Some(out.error);
    }
    var err := FileHandle(fs, stderr);
    if err.Err? {
      return Some(err.error);
    }
    if Same(input.value, out.value) {
      return Some(InputOutputConflict(stdin.value.path, Stdout, stdout.value.path));
    }
    if Same(input.value, err.value) {
      return Some(InputOutputConflict(stdin.value.path, Stderr, stderr.value.path));
    }
    if Same(out.value, err.value) {
      return Some(OutputFilesConflict(stdout.value.path, stderr.value.path));
    }
    error := None;
  }

  // ---------------------------------------------------------------------
  // Opening and truncating

  ghost predicate OpenedAs(fs: FileSystem, path: Option<Path>, file: Option<OpenFile>)
    reads fs
  {
    && (path.Some? <==> file.Some?)
    && (file.Some? ==> path == Some(file.value.path) && fs.Lookup(file.value.path) == Some(file.value.inode)
                       && file.value.inode in fs.nodes)
  }

  /** Opening an output creates at most one empty file and truncates nothing. */
  method OpenOutput(fs: FileSystem, s: Stream, path: Option<Path>) returns (file: Result<Option<OpenFile>, FileError>)
    requires fs.Valid()
    modifies fs`entries, fs`nodes, fs`next
    ensures fs.Valid() && OnlyCreates(old(fs.nodes), fs.nodes) && AtMostOneMore(old(fs.nodes), fs.nodes)
    ensures file.Ok? ==> OpenedAs(fs, path, file.value)
    ensures file.Ok? && file.value.Some? ==> fs.nodes[file.value.value.inode].Regular?
    ensures file.Err? ==> match file.error
      case NonRegularOutputFile(stream, p) => stream == s && path == Some(p) && !UsableOutput(fs, p)
      case OpenOutputFailed(stream, p, _) => stream == s && path == Some(p)
      case InspectIoFileFailed(p, _) => path == Some(p)
      case _ => false
    ensures forall q :: old(fs.Lookup(q)).Some? ==> fs.Lookup(q) == old(fs.Lookup(q))
  {
    if path.None? {
      return Ok(None);
    }
    var unusable := EnsureRegularOutput(fs, s, path.value);
    if unusable.Some? {
      return Err(unusable.value);
    }
    var handle := fs.OpenCreate(path.value);
    if handle.Err? {
      return Err(OpenOutputFailed(s, path.value, handle.error));
    }
    var isFile := fs.HandleIsFile(handle.value);
    match isFile {
      case Err(source) => return Err(OpenOutputFailed(s, path.value, source));
      case Ok(regular) =>
        if !regular {
          return Err(NonRegularOutputFile(s, path.value));
        }
    }
    var fault := fs.Fault();
    if fault.Some? {
      return Err(OpenOutputFailed(s, path.value, fault.value));
    }
    file := Ok(Some(OpenFile(path.value, handle.value)));
  }

  /** A commit's error names the configured paths; a conflict means that the two paths
      really lead to one file, and an unusable output really is unusable. */
  predicate CommitErrorIsReal(fs: FileSystem, error: FileError, input: Option<OpenFile>,
                              stdout: Option<Path>, stderr: Option<Path>)
    requires fs.Valid()
    reads fs
  {
    match error
    case OutputFilesConflict(p, q) =>
      stdout == Some(p) && stderr == Some(q) && Same(fs.Lookup(p), fs.Lookup(q))
    case InputOutputConflict(p, s, q) =>
      && input.Some? && input.value.path == p && PathOf(s, stdout, stderr) == Some(q)
      && fs.Lookup(q) == Some(input.value.inode)
    case NonRegularOutputFile(s, p) => PathOf(s, stdout, stderr) == Some(p) && !UsableOutput(fs, p)
    case OpenOutputFailed(s, p, _) => PathOf(s, stdout, stderr) == Some(p)
    case InspectIoFileFailed(p, _) => stdout == Some(p) || stderr == Some(p) || (input.Some? && input.value.path == p)
    case _ => false
  }

  predicate IsRegular(nodes: map<Inode, Node>, file: Option<OpenFile>) {
    file.Some? ==> file.value.inode in nodes && nodes[file.value.inode].Regular?
  }

  /** The part of a commit that cannot change an existing file. */
  method OpenAndIdentify(fs: FileSystem, stdin: Option<OpenFile>, stdout: Option<Path>, stderr: Option<Path>)
    returns (error: Option<FileError>, out: Option<OpenFile>, err: Option<OpenFile>)
    requires fs.Valid()
    modifies fs`entries, fs`nodes, fs`next
    ensures fs.Valid() && OnlyCreates(old(fs.nodes), fs.nodes)
    ensures error.None? ==> Distinct(stdin, out, err) && OpenedAs(fs, stdout, out) && OpenedAs(fs, stderr, err)
    ensures error.None? ==> IsRegular(fs.nodes, out) && IsRegular(fs.nodes, err)
    ensures error.Some? ==> CommitErrorIsReal(fs, error.value, stdin, stdout, stderr)
  {
    out, err := None, None;
    var stdoutTee := OpenOutput(fs, Stdout, stdout);
    if stdoutTee.Err? {
      return Some(stdoutTee.error), out, err;
    }
    var stderrTee := OpenOutput(fs, Stderr, stderr);
    if stderrTee.Err? {
      return Some(stderrTee.error), out, err;
    }
    out, err := stdoutTee.value, stderrTee.value;
    error := ValidateFileIdentities(fs, stdin, out, err);
  }

  method TruncateOutput(fs: FileSystem, s: Stream, file: Option<OpenFile>) returns (error: Option<FileError>)
    requires fs.Valid() && (file.Some? ==> file.value.inode in fs.nodes)
    modifies fs`nodes
    ensures fs.Valid()
    ensures error.Some? || file.None? ==> fs.nodes == old(fs.nodes)
    ensures error.Some? ==> file.Some? && match error.value
      case NonRegularOutputFile(stream, p) => !IsRegular(old(fs.nodes), file)
      case OpenOutputFailed(stream, p, _) => stream == s && p == file.value.path
      case InspectIoFileFailed(p, _) => p == file.value.path
      case _ => false
    ensures error.None? && file.Some? ==> fs.nodes == old(fs.nodes)[file.value.inode := Regular([])]
  {
    if file.None? {
      return None;
    }
    var isFile := fs.HandleIsFile(file.value.inode);
    match isFile {
      case Err(source) => return Some(InspectIoFileFailed(file.value.path, source));
      case Ok(regular) =>
        if !regular {
          return Some(NonRegularOutputFile(s, file.value.path));
        }
    }
    var fault := fs.Truncate(file.value.inode);
    error := if fault.Some? then Some(OpenOutputFailed(s, file.value.path, fault.value)) else None;
  }

  predicate IsFileOf(i: Inode, file: Option<OpenFile>) {
    file.Some? && file.value.inode == i
  }

  /** Stdout is truncated before stderr; a failure stops there. */
  method TruncateOutputs(fs: FileSystem, stdout: Option<OpenFile>, stderr: Option<OpenFile>)
    returns (error: Option<FileError>)
    requires fs.Valid()
    requires (stdout.Some? ==> stdout.value.inode in fs.nodes) && (stderr.Some? ==> stderr.value.inode in fs.nodes)
    modifies fs`nodes
    ensures fs.Valid()
    ensures error.Some? && old(IsRegular(fs.nodes, stdout) && IsRegular(fs.nodes, stderr)) ==> match error.value
      case OpenOutputFailed(s, p, _) => HasPath(if s.Stdout? then stdout else stderr, p)
      case InspectIoFileFailed(p, _) => HasPath(stdout, p) || HasPath(stderr, p)
      case _ => false
    ensures Truncated(old(fs.nodes), fs.nodes, error, stdout, stderr)
  {
    error := TruncateOutput(fs, Stdout, stdout);
    if error.Some? {
      return;
    }
    error := TruncateOutput(fs, Stderr, stderr);
  }

  // ---------------------------------------------------------------------
  // Prepare and commit

  datatype CommandStdin = NullInput | Inherit | Bytes(bytes: seq<Byte>) | FromPath(path: Path)

  /** What the process builder was told to connect to the child's stdin. */
  datatype ChildStdin = Unset | Nothing | Inherited | Pipe | FromFile(file: Inode)

  class IoFiles {
    var stdinBytes: Option<seq<Byte>>
    var stdinPath: Option<Path>
    var stdinFile: Option<Inode>
    var stdoutTee: Option<OpenFile>
    var stderrTee: Option<OpenFile>
    var childStdin: ChildStdin

    function StdinOpen(): Option<OpenFile>
      reads this
    {
      if stdinPath.Some? && stdinFile.Some? then Some(OpenFile(stdinPath.value, stdinFile.value)) else None
    }

    ghost predicate Prepared(fs: FileSystem)
      reads this, fs
    {
      && fs.Valid()
      && (stdinPath.Some? <==> stdinFile.Some?)
      && (stdinFile.Some? ==> stdinFile.value in fs.nodes)
    }

    constructor (path: Option<Path>, file: Option<Inode>, bytes: Option<seq<Byte>>, child: ChildStdin)
      ensures stdinPath == path && stdinFile == file && stdinBytes == bytes && childStdin == child
      ensures stdoutTee == None && stderrTee == None
    {
      stdinPath, stdinFile, stdinBytes, childStdin := path, file, bytes, child;
      stdoutTee, stderrTee := None, None;
    }

    /** Opens both outputs, checks that no two of the three files are one, and only
        then truncates.  `out`, `err` and `checked` say how far it got. */
    method Commit(fs: FileSystem, stdout: Option<Path>, stderr: Option<Path>)
      returns (error: Option<FileError>, ghost out: Option<OpenFile>, ghost err: Option<OpenFile>, ghost checked: bool)
      requires Prepared(fs)
      modifies fs`entries, fs`nodes, fs`next, this
      ensures fs.Valid() && Committed(old(StdinOpen()), old(fs.nodes), fs.nodes, error, out, err, checked)
      ensures stdinFile == if error.None? then None else old(stdinFile)
      ensures childStdin == (
        if error.None? && old(stdinFile).Some? then FromFile(old(stdinFile).value) else old(childStdin))
      ensures if error.None? then stdoutTee == out && stderrTee == err
              else stdoutTee == old(stdoutTee) && stderrTee == old(stderrTee)
      ensures checked ==> OpenedAs(fs, stdout, out) && OpenedAs(fs, stderr, err)
      ensures error.Some? ==> CommitErrorIsReal(fs, error.value, old(StdinOpen()), stdout, stderr)
    {
      hide OnlyCreates, Distinct, Committed;
      assert InodeOf(StdinOpen()) == stdinFile;
      var stdoutTee', stderrTee';
      error, stdoutTee', stderrTee' := OpenAndIdentify(fs, StdinOpen(), stdout, stderr);
      out, err, checked := stdoutTee', stderrTee', error.None?;
      if error.Some? {
        UncheckedCommit(old(StdinOpen()), old(fs.nodes), fs.nodes, error, out, err);
        return;
      }
      ghost var middle := fs.nodes;
      error := TruncateOutputs(fs, stdoutTee', stderrTee');
      CheckedCommit(old(StdinOpen()), old(fs.nodes), middle, fs.nodes, error, out, err);
      if error.Some? {
        return;
      }
      if stdinFile.Some? {
        childStdin := FromFile(stdinFile.value);
        stdinFile := None;
      }
      stdoutTee, stderrTee := stdoutTee', stderrTee';
    }
  }

  /** What a commit may do to files, however it ends: nothing that existed changes
      before all identity checks passed; then only the outputs may be emptied, only
      stdout's after a failure, and the input never. */
  ghost predicate Committed(stdin: Option<OpenFile>, before: map<Inode, Node>, after: map<Inode, Node>,
                            error: Option<FileError>, out: Option<OpenFile>, err: Option<OpenFile>, checked: bool)
  {
    && (!checked ==> error.Some? && OnlyCreates(before, after))
    && (checked ==> Distinct(stdin, out, err))
    && (forall i :: i in before ==> i in after)
    && (forall i :: i in before && after[i] != before[i] ==>
          checked && after[i] == Regular([]) && (IsFileOf(i, out) || (error.None? && IsFileOf(i, err))))
    && (error.None? ==> checked && IsEmptyFile(after, out) && IsEmptyFile(after, err))
    && (stdin.Some? ==> stdin.value.inode in before && after[stdin.value.inode] == before[stdin.value.inode])
  }

  /** What truncating did, as a relation on file contents. */
  ghost predicate Truncated(before: map<Inode, Node>, after: map<Inode, Node>, error: Option<FileError>,
                            stdout: Option<OpenFile>, stderr: Option<OpenFile>)
  {
    && after.Keys == before.Keys
    && (error.None? ==> forall i :: i in after ==>
          after[i] == if IsFileOf(i, stdout) || IsFileOf(i, stderr) then Regular([]) else before[i])
    && (error.Some? ==> forall i :: i in after ==>
          after[i] == before[i] || (IsFileOf(i, stdout) && after[i] == Regular([])))
  }

  lemma UncheckedCommit(stdin: Option<OpenFile>, before: map<Inode, Node>, after: map<Inode, Node>,
                        error: Option<FileError>, out: Option<OpenFile>, err: Option<OpenFile>)
    requires error.Some? && OnlyCreates(before, after)
    requires stdin.Some? ==> stdin.value.inode in before
    ensures Committed(stdin, before, after, error, out, err, false)
  {
  }

  lemma CheckedCommit(stdin: Option<OpenFile>, before: map<Inode, Node>, middle: map<Inode, Node>,
                      after: map<Inode, Node>,
                      error: Option<FileError>, out: Option<OpenFile>, err: Option<OpenFile>)
    requires OnlyCreates(before, middle) && Distinct(stdin, out, err) && Truncated(middle, after, error, out, err)
    requires (stdin.Some? ==> stdin.value.inode in before)
    requires (out.Some? ==> out.value.inode in middle) && (err.Some? ==> err.value.inode in middle)
    ensures Committed(stdin, before, after, error, out, err, true)
  {
  }

  predicate IsEmptyFile(nodes: map<Inode, Node>, file: Option<OpenFile>) {
    file.Some? ==> file.value.inode in nodes && nodes[file.value.inode] == Regular([])
  }

  method OpenInput(fs: FileSystem, stdin: CommandStdin) returns (files: Result<IoFiles, FileError>)
    requires fs.Valid()
    ensures files.Ok? ==> fresh(files.value) && files.value.Prepared(fs) && OpenedInput(fs, stdin, files.value)
    ensures files.Err? ==> stdin.FromPath? && ObjectionIsReal(fs, files.error, Some(stdin.path), None, None)
  {
    var f;
    match stdin {
      case NullInput =>
        f := new IoFiles(None, None, None, Nothing);
      case Inherit =>
        f := new IoFiles(None, None, None, Inherited);
      case Bytes(bytes) =>
        f := new IoFiles(None, None, Some(bytes), Pipe);
      case FromPath(path) =>
        var irregular := EnsureRegularInput(fs, path);
        if irregular.Some? {
          return Err(irregular.value);
        }
        var file := fs.OpenRead(path);
        if file.Err? {
          return Err(OpenInputFailed(path, file.error));
        }
        var isFile := fs.HandleIsFile(file.value);
        match isFile {
          case Err(source) => return Err(OpenInputFailed(path, source));
          case Ok(regular) =>
            if !regular {
              return Err(NonRegularInputFile(path));
            }
        }
        var fault := fs.Fault();
        if fault.Some? {
          return Err(OpenInputFailed(path, fault.value));
        }
        f := new IoFiles(Some(path), Some(file.value), None, Unset);
    }
    files := Ok(f);
  }

  ghost predicate OpenedInput(fs: FileSystem, stdin: CommandStdin, files: IoFiles)
    requires fs.Valid()
    reads fs, files
  {
    && files.stdoutTee == None && files.stderrTee == None
    && match stdin
       case NullInput => files.StdinOpen() == None && files.childStdin == Nothing && files.stdinBytes == None
       case Inherit => files.StdinOpen() == None && files.childStdin == Inherited && files.stdinBytes == None
       case Bytes(bytes) => files.StdinOpen() == None && files.childStdin == Pipe && files.stdinBytes == Some(bytes)
       case FromPath(path) =>
         && fs.Lookup(path).Some? && fs.nodes[fs.Lookup(path).value].Regular?
         && files.StdinOpen() == Some(OpenFile(path, fs.Lookup(path).value))
         && files.childStdin == Unset && files.stdinBytes == None
  }

  function InputPath(stdin: CommandStdin): Option<Path> {
    if stdin.FromPath? then Some(stdin.path) else None
  }

  lemma UnequalPlacesAreApart(fs: FileSystem, p: Option<Path>, q: Option<Path>)
    requires fs.Valid() && !Same(NormalizedPlaceOf(fs, p), NormalizedPlaceOf(fs, q))
    requires p.Some? ==> fs.Lookup(p.value).Some? || fs.names(p.value).Plain?
    requires q.Some? ==> fs.Lookup(q.value).Some? || fs.names(q.value).Plain?
    ensures Apart(fs, p, q)
  {
    if p.Some? && q.Some? {
      NormalizedMeansEntry(fs, p.value, q.value);
    }
  }

  /** Opens the input and rejects paths that are known to collide or to be unusable;
      no file is created, truncated or changed. */
  method Prepare(fs: FileSystem, stdin: CommandStdin, stdout: Option<Path>, stderr: Option<Path>)
    returns (files: Result<IoFiles, FileError>)
    requires fs.Valid()
    ensures files.Ok? ==> fresh(files.value) && files.value.Prepared(fs) && OpenedInput(fs, stdin, files.value)
    ensures files.Ok? ==>
      && !Same(NormalizedPlaceOf(fs, InputPath(stdin)), NormalizedPlaceOf(fs, stdout))
      && !Same(NormalizedPlaceOf(fs, InputPath(stdin)), NormalizedPlaceOf(fs, stderr))
      && !Same(NormalizedPlaceOf(fs, stdout), NormalizedPlaceOf(fs, stderr))
      && (stdout.Some? ==> UsableOutput(fs, stdout.value)) && (stderr.Some? ==> UsableOutput(fs, stderr.value))
    ensures files.Ok? ==>
      Apart(fs, InputPath(stdin), stdout) && Apart(fs, InputPath(stdin), stderr) && Apart(fs, stdout, stderr)
    ensures files.Err? ==> ObjectionIsReal(fs, files.error, InputPath(stdin), stdout, stderr)
  {
    hide NormalizedPlace, ShareEntry;
    files := OpenInput(fs, stdin);
    if files.Err? {
      return;
    }
    var conflict := ValidateNormalizedPaths(fs, files.value.stdinPath, stdout, stderr);
    if conflict.Some? {
      return Err(conflict.value);
    }
    if stdout.Some? {
      var unusable := EnsureRegularOutput(fs, Stdout, stdout.value);
      if unusable.Some? {
        return Err(unusable.value);
      }
    }
    if stderr.Some? {
      var unusable := EnsureRegularOutput(fs, Stderr, stderr.value);
      if unusable.Some? {
        return Err(unusable.value);
      }
    }
    UnequalPlacesAreApart(fs, InputPath(stdin), stdout);
    UnequalPlacesAreApart(fs, InputPath(stdin), stderr);
    UnequalPlacesAreApart(fs, stdout, stderr);
  }


  /** From configuration to open files.  Other processes may change everything
      between preparing and committing; `input` is the file opened for stdin and
      `found` what the commit finds.  On success the outputs are empty and all three
      files are different; on every path the commit leaves the input as it found it. */
  method OpenAll(fs: FileSystem, stdin: CommandStdin, stdout: Option<Path>, stderr: Option<Path>)
    returns (files: Result<IoFiles, FileError>, ghost input: Option<Inode>, ghost found: map<Inode, Node>)
    requires fs.Valid()
    modifies fs
    ensures fs.Valid()
    ensures input.Some? ==> stdin.FromPath? && input == old(fs.Lookup(stdin.path))
    ensures input.Some? ==>
      input.value in found && input.value in fs.nodes && fs.nodes[input.value] == found[input.value]
    ensures forall i :: i in found ==> i in fs.nodes && (fs.nodes[i] == found[i] || fs.nodes[i] == Regular([]))
    ensures files.Ok? ==>
      && OpenedAs(fs, stdout, files.value.stdoutTee) && IsEmptyFile(fs.nodes, files.value.stdoutTee)
      && OpenedAs(fs, stderr, files.value.stderrTee) && IsEmptyFile(fs.nodes, files.value.stderrTee)
      && !Same(InodeOf(files.value.stdoutTee), InodeOf(files.value.stderrTee))
      && !Same(input, InodeOf(files.value.stdoutTee)) && !Same(input, InodeOf(files.value.stderrTee))
      && (stdin.FromPath? <==> input.Some?)
      && (input.Some? ==> files.value.childStdin == FromFile(input.value))
  {
    hide UsableOutput, NormalizedPlaceOf;
    files := Prepare(fs, stdin, stdout, stderr);
    input, found := None, fs.nodes;
    if files.Err? {
      return;
    }
    input := files.value.stdinFile;
    fs.OthersChange(files.value.stdinFile);
    found := fs.nodes;
    var error;
    ghost var out, err, checked;
    error, out, err, checked := files.value.Commit(fs, stdout, stderr);
    if error.Some? {
      files := Err(error.value);
    }
  }
}
