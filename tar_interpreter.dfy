/**
 * The per-entry decisions of the tar interpreter that extracts a base backup
 * to disk, and the recording of each file's outcome into the run's aggregate.
 *
 * The filesystem is a record of total oracles (what stat reports for a path,
 * whether each system call succeeds); the block-level unwrapping of a file's
 * payload is an oracle too. Each decision function returns the effects it
 * would perform, in order, together with the outcome it would record and the
 * error it would return.
 */
module TarInterpreter {
  import opened Common
  import opened Paths
  import opened UnwrapResults

  /** Type flags of archive/tar. */
  const TypeReg: char := '0'
  const TypeRegA: char := '\0'
  const TypeLink: char := '1'
  const TypeSymlink: char := '2'
  const TypeDir: char := '5'

  /** The permission (0755) every directory is created with. */
  const DirPerm: int := 493

  /** The fields of a tar header that the interpreter reads. */
  datatype Header = Header(name: string, typeflag: char, mode: Int64)

  /** The catalog entry of one file of the backup. */
  datatype FileDescription = FileDescription(isIncremented: bool)

  /** The immutable configuration of a FileTarInterpreter. */
  datatype InterpreterConfig = InterpreterConfig(
    dbDataDirectory: string,
    filesMetadata: map<string, FileDescription>,
    filesToUnwrap: Option<map<string, bool>>,
    createNewIncrementalFiles: bool)

  /** What os.Stat finds at a path; Existing is anything that is not a directory, with what isPagedFile reports about it. */
  datatype Probe = Absent | Directory | Existing(isPagedFile: bool)

  /** The error result of one system call: nil, or an error with its message. */
  datatype Outcome = Ok | Fail(cause: string)

  /** The filesystem as seen by one entry's extraction. */
  datatype FileSystem = FileSystem(
    stat: string -> Probe,
    mkdirAll: string -> Outcome,
    chmod: (string, UInt32) -> Outcome,
    link: (string, string) -> Outcome,
    symlink: (string, string) -> Outcome,
    openReadWrite: string -> Outcome,
    openCreate: string -> Outcome)

  datatype UnwrapperKind = DefaultBackupFileUnwrapper | CatchupBackupFileUnwrapper
  datatype BackupFileOptions = BackupFileOptions(isIncremented: bool, isPageFile: bool)
  datatype FileUnwrapper = FileUnwrapper(kind: UnwrapperKind, options: BackupFileOptions)
  datatype UnwrapCall = UnwrapNewFile | UnwrapExistingFile

  /** What an unwrapper returns: a result, or a non-nil error. */
  datatype UnwrapOutcome = Unwrapped(result: FileUnwrapResult) | UnwrapFailed(cause: string)

  /** The unwrapper as an oracle: (unwrapper, which entry point, header, fsync) to its outcome. */
  type Unwrapping = (FileUnwrapper, UnwrapCall, Header, bool) -> UnwrapOutcome

  /** One effect on the filesystem. */
  datatype Action =
    | MkdirAll(path: string, perm: int)
    | Chmod(path: string, mode: UInt32)
    | Link(oldname: string, newname: string)
    | Symlink(oldname: string, newname: string)
    | OpenReadWrite(path: string)         // os.OpenFile with O_RDWR, no truncation
    | OpenCreate(path: string)            // os.OpenFile with O_WRONLY|O_CREATE|O_TRUNC
    | Unwrap(unwrapper: FileUnwrapper, call: UnwrapCall)
    | Sync(path: string, fsync: bool)     // the deferred utility.LoggedSync
    | Close(path: string)                 // the deferred utility.LoggedClose

  /** The errors the interpreter returns, each as it is wrapped. */
  datatype Error =
    | MkdirFailed(path: string, cause: string)      // "failed to create all directories in %s"
    | ChmodFailed(cause: string)                    // "chmod failed"
    | HardlinkFailed(path: string, cause: string)   // "failed to create hardlink %s"
    | SymlinkFailed(path: string, cause: string)    // "failed to create symlink %s"
    | PrepareDirsFailed(cause: string)              // "failed to create all directories"
    | CreateFileFailed(path: string, cause: string) // "failed to create new file: '%s'"
    | OpenFailed(cause: string)                     // os.OpenFile's error, unwrapped
    | UnwrapError(cause: string)                    // the unwrapper's error, unwrapped

  /** Effects of a helper together with the error it returns. */
  datatype Effect<E> = Effect(actions: seq<Action>, err: Option<E>)

  /** The local file an entry is extracted into. */
  datatype LocalFile = LocalFile(actions: seq<Action>, isNewFile: bool, err: Option<Error>)

  /** Everything one Interpret call does: its effects, the outcome it records, the error it returns. */
  datatype Step = Step(actions: seq<Action>, recorded: Option<FileUnwrapResult>, err: Option<Error>)

  const NoOp := Step([], None, None)

  predicate IsRegular(typeflag: char) {
    typeflag == TypeReg || typeflag == TypeRegA
  }

  /** The selection filter: no filter, or the name is a key of it (whatever it maps to). */
  predicate Selected(config: InterpreterConfig, name: string)
    ensures config.filesToUnwrap.None? ==> Selected(config, name)
    ensures config.filesToUnwrap.Some? ==> (Selected(config, name) <==> name in config.filesToUnwrap.value)
    ensures config.filesToUnwrap == Some(map[]) ==> !Selected(config, name)
  {
    config.filesToUnwrap.None? || name in config.filesToUnwrap.value
  }

  /** os.FileMode(mode): the conversion of an int64 to uint32 keeps the low 32 bits. */
  function FileMode(mode: Int64): (m: UInt32)
    ensures (m as int - mode as int) % 0x1_0000_0000 == 0
    ensures 0 <= mode as int < 0x1_0000_0000 ==> m as int == mode as int
  {
    (mode as int % 0x1_0000_0000) as UInt32
  }

  /** The directory PrepareDirs hands to MkdirAll, or None when it creates nothing. */
  function DirToPrepare(fileName: string, targetPath: string): (r: Option<string>)
    ensures fileName == targetPath ==> r.None?
    ensures fileName != targetPath ==> r.Some? && HasPrefix(targetPath, r.value)
    ensures fileName != targetPath && HasSuffix(targetPath, Base(fileName)) ==> r.value + Base(fileName) == targetPath
    ensures fileName != targetPath && !HasSuffix(targetPath, Base(fileName)) ==> r.value == targetPath
  {
    if fileName == targetPath then None
    else Some(TrimSuffix(targetPath, Base(fileName)))
  }

  /** PrepareDirs: MkdirAll on DirToPrepare, returning MkdirAll's error. */
  function PrepareDirs(fileName: string, targetPath: string, fs: FileSystem): (r: Effect<string>)
    ensures fileName == targetPath ==> r == Effect([], None)
    ensures fileName != targetPath ==>
              var dir := TrimSuffix(targetPath, Base(fileName));
              && r.actions == [MkdirAll(dir, DirPerm)]
              && (r.err.None? <==> fs.mkdirAll(dir).Ok?)
              && (fs.mkdirAll(dir).Fail? ==> r.err == Some(fs.mkdirAll(dir).cause))
  {
    match DirToPrepare(fileName, targetPath)
    case None => Effect([], None)
    case Some(dir) =>
      Effect([MkdirAll(dir, DirPerm)], if fs.mkdirAll(dir).Fail? then Some(fs.mkdirAll(dir).cause) else None)
  }

  /**
   * For a clean data directory and a clean relative entry name, the directory
   * prepared for a new file is the data directory, a slash, and the name's
   * parent part (everything up to and including its last slash).
   */
  lemma PrepareDirsUnderDataDirectory(dbDataDirectory: string, name: string)
    requires IsCleanPath(dbDataDirectory) && IsCleanPath(name) && name[0] != '/'
    ensures DirToPrepare(name, Join(dbDataDirectory, name))
         == Some(dbDataDirectory + "/" + name[..|name| - |Base(name)|])
  {
    var target := dbDataDirectory + "/" + name;
    assert Join(dbDataDirectory, name) == target;
    assert |target| > |name|;
    TrimBaseOfJoined(dbDataDirectory + "/", name);
  }

  /** With an empty data directory the target path of a clean entry name is the name itself, so no directory is prepared. */
  lemma EmptyDataDirectoryPreparesNothing(name: string, fs: FileSystem)
    requires IsCleanPath(name)
    ensures PrepareDirs(name, Join("", name), fs) == Effect([], None)
  {
  }

  /** createLocalFile: prepare the parent directories, then create (truncating) the file. */
  function CreateLocalFile(targetPath: string, name: string, fs: FileSystem): (r: Effect<Error>)
    ensures forall a | a in r.actions :: a.MkdirAll? || a == OpenCreate(targetPath)
    ensures PrepareDirs(name, targetPath, fs).err.Some? ==>
              r == Effect(PrepareDirs(name, targetPath, fs).actions, Some(PrepareDirsFailed(PrepareDirs(name, targetPath, fs).err.value)))
    ensures OpenCreate(targetPath) in r.actions <==> PrepareDirs(name, targetPath, fs).err.None?
    ensures PrepareDirs(name, targetPath, fs).err.None? ==>
              && r.actions == PrepareDirs(name, targetPath, fs).actions + [OpenCreate(targetPath)]
              && (fs.openCreate(targetPath).Fail? ==> r.err == Some(CreateFileFailed(targetPath, fs.openCreate(targetPath).cause)))
    ensures r.err.None? <==> PrepareDirs(name, targetPath, fs).err.None? && fs.openCreate(targetPath).Ok?
    ensures r.err.None? ==> r.actions[|r.actions| - 1] == OpenCreate(targetPath)
  {
    var prep := PrepareDirs(name, targetPath, fs);
    if prep.err.Some? then
      Effect(prep.actions, Some(PrepareDirsFailed(prep.err.value)))
    else
      var open := fs.openCreate(targetPath);
      Effect(prep.actions + [OpenCreate(targetPath)], if open.Fail? then Some(CreateFileFailed(targetPath, open.cause)) else None)
  }

  /**
   * getLocalFile: an existing non-directory target is opened for reading and
   * writing; otherwise (absent, or a directory, whose stat error is ignored) a
   * new file is created.
   */
  function GetLocalFile(targetPath: string, header: Header, fs: FileSystem): (r: LocalFile)
    ensures r.isNewFile <==> !fs.stat(targetPath).Existing?
    ensures !r.isNewFile ==>
              && r.actions == [OpenReadWrite(targetPath)]
              && (r.err.None? <==> fs.openReadWrite(targetPath).Ok?)
              && (fs.openReadWrite(targetPath).Fail? ==> r.err == Some(OpenFailed(fs.openReadWrite(targetPath).cause)))
    ensures r.isNewFile ==> OpenReadWrite(targetPath) !in r.actions
    ensures r.isNewFile ==> r == LocalFile(CreateLocalFile(targetPath, header.name, fs).actions, true, CreateLocalFile(targetPath, header.name, fs).err)
    ensures r.err.Some? ==> r.err.value.OpenFailed? || r.err.value.PrepareDirsFailed? || r.err.value.CreateFileFailed?
  {
    if fs.stat(targetPath).Existing? then
      var open := fs.openReadWrite(targetPath);
      LocalFile([OpenReadWrite(targetPath)], false, if open.Fail? then Some(OpenFailed(open.cause)) else None)
    else
      var created := CreateLocalFile(targetPath, header.name, fs);
      LocalFile(created.actions, true, created.err)
  }

  /**
   * getFileUnwrapper: the descriptor counts as incremented exactly when the
   * catalog lists the name as incremented; the page-file flag comes from an
   * existing local file only; catchup mode selects the catchup variant.
   */
  function GetFileUnwrapper(config: InterpreterConfig, header: Header, targetPath: string, fs: FileSystem): (u: FileUnwrapper)
    ensures u.options.isIncremented <==>
              header.name in config.filesMetadata && config.filesMetadata[header.name].isIncremented
    ensures u.options.isPageFile ==> fs.stat(targetPath).Existing?
    ensures fs.stat(targetPath).Existing? ==> u.options.isPageFile == fs.stat(targetPath).isPagedFile
    ensures u.kind == CatchupBackupFileUnwrapper <==> config.createNewIncrementalFiles
  {
    var isIncremented := header.name in config.filesMetadata && config.filesMetadata[header.name].isIncremented;
    var isPageFile := if fs.stat(targetPath).Existing? then fs.stat(targetPath).isPagedFile else false;
    var options := BackupFileOptions(isIncremented, isPageFile);
    if config.createNewIncrementalFiles then FileUnwrapper(CatchupBackupFileUnwrapper, options)
    else FileUnwrapper(DefaultBackupFileUnwrapper, options)
  }

  /** The unwrapper entry point used for a local file. */
  function CallFor(isNewFile: bool): UnwrapCall {
    if isNewFile then UnwrapNewFile else UnwrapExistingFile
  }

  /**
   * unwrapRegularFile: a name the filter leaves out is skipped with no effect;
   * otherwise the local file is opened or created, the chosen unwrapper entry
   * point runs, the file is synced and closed on every path past the open,
   * and the result is recorded only when nothing failed.
   */
  function UnwrapRegularFile(config: InterpreterConfig, header: Header, targetPath: string, fsync: bool,
                             fs: FileSystem, unwrap: Unwrapping): (r: Step)
    ensures !Selected(config, header.name) ==> r == NoOp
    ensures r.err.Some? ==> r.recorded.None?
    ensures r.recorded.Some? || r.err.Some? ==> Selected(config, header.name)
    ensures Selected(config, header.name) ==>
              (OpenReadWrite(targetPath) in r.actions <==> fs.stat(targetPath).Existing?)
    ensures Selected(config, header.name) && GetLocalFile(targetPath, header, fs).err.Some? ==>
              r == Step(GetLocalFile(targetPath, header, fs).actions, None, GetLocalFile(targetPath, header, fs).err)
    ensures Selected(config, header.name) && GetLocalFile(targetPath, header, fs).err.None? ==>
              var u := GetFileUnwrapper(config, header, targetPath, fs);
              var call := if fs.stat(targetPath).Existing? then UnwrapExistingFile else UnwrapNewFile;
              && r.actions == GetLocalFile(targetPath, header, fs).actions
                              + [Unwrap(u, call), Sync(targetPath, fsync), Close(targetPath)]
              && (r.recorded.Some? <==> unwrap(u, call, header, fsync).Unwrapped?)
              && (r.recorded.Some? ==> r.recorded.value == unwrap(u, call, header, fsync).result)
              && (unwrap(u, call, header, fsync).UnwrapFailed? ==>
                    r.err == Some(UnwrapError(unwrap(u, call, header, fsync).cause)))
              && (unwrap(u, call, header, fsync).Unwrapped? ==> r.err.None?)
  {
    if !Selected(config, header.name) then NoOp
    else
      var unwrapper := GetFileUnwrapper(config, header, targetPath, fs);
      var local := GetLocalFile(targetPath, header, fs);
      if local.err.Some? then Step(local.actions, None, local.err)
      else
        var call := CallFor(local.isNewFile);
        var actions := local.actions + [Unwrap(unwrapper, call), Sync(targetPath, fsync), Close(targetPath)];
        match unwrap(unwrapper, call, header, fsync)
        case UnwrapFailed(cause) => Step(actions, None, Some(UnwrapError(cause)))
        case Unwrapped(result) => Step(actions, Some(result), None)
  }

  /**
   * Interpret's dispatch on the type flag: regular files go through
   * UnwrapRegularFile; a directory is created (with parents) and then has the
   * header's mode applied; hard and symbolic links point from the entry name
   * to the target path; any other type flag does nothing. Only a regular file
   * that the filter selects can record an outcome, and never alongside an error.
   */
  function InterpretEntry(config: InterpreterConfig, header: Header, fs: FileSystem, unwrap: Unwrapping,
                          disableFsync: bool): (r: Step)
    ensures r.recorded.Some? ==> IsRegular(header.typeflag) && Selected(config, header.name) && r.err.None?
    ensures IsRegular(header.typeflag) ==>
              r == UnwrapRegularFile(config, header, Join(config.dbDataDirectory, header.name), !disableFsync, fs, unwrap)
    ensures header.typeflag == TypeDir ==>
              var target := Join(config.dbDataDirectory, header.name);
              var mode := FileMode(header.mode);
              && |r.actions| >= 1 && r.actions[0] == MkdirAll(target, DirPerm)
              && (fs.mkdirAll(target).Fail? ==> r == Step([MkdirAll(target, DirPerm)], None, Some(MkdirFailed(target, fs.mkdirAll(target).cause))))
              && (fs.mkdirAll(target).Ok? ==> r.actions == [MkdirAll(target, DirPerm), Chmod(target, mode)])
              && (r.err.None? <==> fs.mkdirAll(target).Ok? && fs.chmod(target, mode).Ok?)
              && (fs.mkdirAll(target).Ok? && fs.chmod(target, mode).Fail? ==>
                    r.err == Some(ChmodFailed(fs.chmod(target, mode).cause)))
    ensures header.typeflag == TypeLink ==>
              var target := Join(config.dbDataDirectory, header.name);
              && r.actions == [Link(header.name, target)]
              && (r.err.None? <==> fs.link(header.name, target).Ok?)
              && (fs.link(header.name, target).Fail? ==>
                    r.err == Some(HardlinkFailed(target, fs.link(header.name, target).cause)))
    ensures header.typeflag == TypeSymlink ==>
              var target := Join(config.dbDataDirectory, header.name);
              && r.actions == [Symlink(header.name, target)]
              && (r.err.None? <==> fs.symlink(header.name, target).Ok?)
              && (fs.symlink(header.name, target).Fail? ==>
                    r.err == Some(SymlinkFailed(target, fs.symlink(header.name, target).cause)))
    ensures !IsRegular(header.typeflag) && header.typeflag !in {TypeDir, TypeLink, TypeSymlink} ==> r == NoOp
  {
    var targetPath := Join(config.dbDataDirectory, header.name);
    var fsync := !disableFsync;
    if IsRegular(header.typeflag) then
      UnwrapRegularFile(config, header, targetPath, fsync, fs, unwrap)
    else if header.typeflag == TypeDir then
      match fs.mkdirAll(targetPath)
      case Fail(cause) => Step([MkdirAll(targetPath, DirPerm)], None, Some(MkdirFailed(targetPath, cause)))
      case Ok =>
        var mode := FileMode(header.mode);
        var chmod := fs.chmod(targetPath, mode);
        Step([MkdirAll(targetPath, DirPerm), Chmod(targetPath, mode)], None,
             if chmod.Fail? then Some(ChmodFailed(chmod.cause)) else None)
    else if header.typeflag == TypeLink then
      var link := fs.link(header.name, targetPath);
      Step([Link(header.name, targetPath)], None, if link.Fail? then Some(HardlinkFailed(targetPath, link.cause)) else None)
    else if header.typeflag == TypeSymlink then
      var symlink := fs.symlink(header.name, targetPath);
      Step([Symlink(header.name, targetPath)], None, if symlink.Fail? then Some(SymlinkFailed(targetPath, symlink.cause)) else None)
    else
      NoOp
  }

  /** Key presence alone selects a file: a key mapped to false is extracted exactly as with no filter at all. */
  lemma FilterIsKeyPresence(config: InterpreterConfig, header: Header, targetPath: string, fsync: bool,
                            fs: FileSystem, unwrap: Unwrapping)
    requires config.filesToUnwrap.Some? && header.name in config.filesToUnwrap.value
    ensures UnwrapRegularFile(config, header, targetPath, fsync, fs, unwrap)
         == UnwrapRegularFile(config.(filesToUnwrap := None), header, targetPath, fsync, fs, unwrap)
  {
  }

  /** An empty filter (present but with no keys) skips every regular file. */
  lemma EmptyFilterSkipsEverything(config: InterpreterConfig, header: Header, fs: FileSystem, unwrap: Unwrapping,
                                   disableFsync: bool)
    requires config.filesToUnwrap == Some(map[]) && IsRegular(header.typeflag)
    ensures InterpretEntry(config, header, fs, unwrap, disableFsync) == NoOp
  {
  }

  /**
   * The stat check does not reject a directory at the target path: the
   * new-file path is taken, and the create-open of the target is where such an
   * entry fails, with the wrapped create error rather than an "is a directory" one.
   */
  lemma DirectoryTargetIsCreated(config: InterpreterConfig, header: Header, targetPath: string, fsync: bool,
                                 fs: FileSystem, unwrap: Unwrapping)
    requires Selected(config, header.name) && fs.stat(targetPath) == Directory
    requires PrepareDirs(header.name, targetPath, fs).err.None?
    ensures GetLocalFile(targetPath, header, fs).isNewFile
    ensures OpenCreate(targetPath) in UnwrapRegularFile(config, header, targetPath, fsync, fs, unwrap).actions
    ensures fs.openCreate(targetPath).Fail? ==>
              UnwrapRegularFile(config, header, targetPath, fsync, fs, unwrap)
              == Step(PrepareDirs(header.name, targetPath, fs).actions + [OpenCreate(targetPath)], None,
                      Some(CreateFileFailed(targetPath, fs.openCreate(targetPath).cause)))
  {
  }

  /**
   * The object that interprets the entries of one archive: its configuration
   * and the aggregate it records outcomes into.
   */
  class FileTarInterpreter {
    const config: InterpreterConfig
    const unwrapResult: UnwrapResult

    /** NewFileTarInterpreter */
    constructor (config: InterpreterConfig)
      ensures this.config == config
      ensures fresh(unwrapResult) && unwrapResult.Snapshot() == NoResults
    {
      this.config := config;
      unwrapResult := new UnwrapResult();
    }

    /** Records one file's outcome in the collection its kind selects; Skipped records nothing. */
    method AddFileUnwrapResult(result: FileUnwrapResult, fileName: string)
      modifies unwrapResult
      ensures result.resultType == Skipped ==> unchanged(unwrapResult)
      ensures result.resultType == Completed ==>
                && unwrapResult.completedFiles == old(unwrapResult.completedFiles) + [fileName]
                && unwrapResult.createdPageFiles == old(unwrapResult.createdPageFiles)
                && unwrapResult.writtenIncrementFiles == old(unwrapResult.writtenIncrementFiles)
      ensures result.resultType == CreatedFromIncrement ==>
                && unwrapResult.completedFiles == old(unwrapResult.completedFiles)
                && unwrapResult.createdPageFiles == old(unwrapResult.createdPageFiles)[fileName := result.blockCount]
                && unwrapResult.writtenIncrementFiles == old(unwrapResult.writtenIncrementFiles)
      ensures result.resultType == WroteIncrementBlocks ==>
                && unwrapResult.completedFiles == old(unwrapResult.completedFiles)
                && unwrapResult.createdPageFiles == old(unwrapResult.createdPageFiles)
                && unwrapResult.writtenIncrementFiles == old(unwrapResult.writtenIncrementFiles)[fileName := result.blockCount]
      ensures unwrapResult.Snapshot() == Record(old(unwrapResult.Snapshot()), result, fileName)
    {
      match result.resultType
      case Skipped =>
        return;
      case Completed =>
        AddToCompletedFiles(fileName);
      case CreatedFromIncrement =>
        AddToCreatedPageFiles(fileName, result.blockCount);
      case WroteIncrementBlocks =>
        AddToWrittenIncrementFiles(fileName, result.blockCount);
    }

    /** Appends fileName to the completed list; duplicates are kept. */
    method AddToCompletedFiles(fileName: string)
      modifies unwrapResult
      ensures unwrapResult.completedFiles == old(unwrapResult.completedFiles) + [fileName]
      ensures unwrapResult.createdPageFiles == old(unwrapResult.createdPageFiles)
      ensures unwrapResult.writtenIncrementFiles == old(unwrapResult.writtenIncrementFiles)
    {
      unwrapResult.completedFiles := unwrapResult.completedFiles + [fileName];
    }

    /** Stores the block count under fileName, replacing any earlier count. */
    method AddToCreatedPageFiles(fileName: string, blocksToRestoreCount: Int64)
      modifies unwrapResult
      ensures unwrapResult.completedFiles == old(unwrapResult.completedFiles)
      ensures unwrapResult.createdPageFiles == old(unwrapResult.createdPageFiles)[fileName := blocksToRestoreCount]
      ensures unwrapResult.writtenIncrementFiles == old(unwrapResult.writtenIncrementFiles)
    {
      unwrapResult.createdPageFiles := unwrapResult.createdPageFiles[fileName := blocksToRestoreCount];
    }

    /** Stores the block count under fileName, replacing any earlier count. */
    method AddToWrittenIncrementFiles(fileName: string, writtenBlocksCount: Int64)
      modifies unwrapResult
      ensures unwrapResult.completedFiles == old(unwrapResult.completedFiles)
      ensures unwrapResult.createdPageFiles == old(unwrapResult.createdPageFiles)
      ensures unwrapResult.writtenIncrementFiles == old(unwrapResult.writtenIncrementFiles)[fileName := writtenBlocksCount]
    {
      unwrapResult.writtenIncrementFiles := unwrapResult.writtenIncrementFiles[fileName := writtenBlocksCount];
    }

    /**
     * Interpret one archive entry: perform InterpretEntry's effects, record its
     * outcome under the header's name when there is one, and return its error.
     */
    method Interpret(header: Header, fs: FileSystem, unwrap: Unwrapping, disableFsync: bool)
      returns (err: Option<Error>, actions: seq<Action>)
      modifies unwrapResult
      ensures var step := InterpretEntry(config, header, fs, unwrap, disableFsync);
              && err == step.err
              && actions == step.actions
              && unwrapResult.Snapshot() ==
                 (if step.recorded.Some? then Record(old(unwrapResult.Snapshot()), step.recorded.value, header.name)
                  else old(unwrapResult.Snapshot()))
    {
      var step := InterpretEntry(config, header, fs, unwrap, disableFsync);
      if step.recorded.Some? {
        AddFileUnwrapResult(step.recorded.value, header.name);
      }
      err, actions := step.err, step.actions;
    }
  }
}
