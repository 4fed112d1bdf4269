# wal-g restore decisions and backup permanence, in Dafny

This project models two pieces of wal-g, a backup/restore tool for PostgreSQL and other databases:

- the **tar interpreter** (`internal/databases/postgres/tar_interpreter.go`), which extracts the entries of a base-backup tar archive into the database data directory. The model covers its per-entry decisions and its bookkeeping. Decisions: dispatch on the tar type flag, the selective-restore filter, reuse-versus-create of the local file, the choice of file unwrapper and its options, and the directory `PrepareDirs` creates. Bookkeeping: the `UnwrapResult` aggregate of per-file outcomes;
- the **permanence helpers** of `internal/delete_util.go`. `IsPermanent` classifies a storage object as belonging to a permanent backup. `FindPermanentBackups` collects the permanent backups of a listing.

Files:

- `common.dfy`: `Option`, and Go's `int64` and `uint32` as newtypes.
- `paths.dfy`: the standard-library helpers the code relies on. These are `strings.HasPrefix`/`HasSuffix`/`TrimSuffix`, `path.Join` (without its clean-up step) and `filepath.Base` on Unix.
- `unwrap_result.dfy`: the outcome kinds and `FileUnwrapResult`. It also holds the aggregate as a value (`UnwrapTotals`), recording one outcome (`Record`) and a run of outcomes (`RecordAll`), and the `UnwrapResult` class whose fields the interpreter updates in place.
- `tar_interpreter.dfy`: the decision logic as pure functions, over an abstract filesystem and an abstract unwrapper. It also holds the `FileTarInterpreter` class: `AddFileUnwrapResult` and its three helpers update the aggregate object, and `Interpret` applies one entry's decisions and records its outcome.
- `delete_util.dfy`: `IsPermanent` and lemmas about it. Also `FindPermanentBackups` as a method with a loop, proved against the reference function `PermanentNames`.

How I/O is modelled:

- The filesystem is a `FileSystem` record of total oracles: what `os.Stat` finds at a path (absent, a directory, or something else with what `isPagedFile` says of it), and whether each of `MkdirAll`, `Chmod`, `Link`, `Symlink` and the two `OpenFile` calls succeeds.
- `UnwrapNewFile`/`UnwrapExistingFile` are one oracle, `Unwrapping`. It maps the unwrapper, the entry point, the header and the fsync flag to a result or an error.
- Every decision function returns the effects it performs, in order (`Action`), the outcome it records, and the error it returns.
- The archive payload reader is not modelled: only the unwrapper oracle would read it.
- The fsync setting read from configuration becomes the parameter `disableFsync`.
- The storage listing and the metadata fetches become a `BackupListing` value. It is either a listing error, or the backups in order, each with its fetch outcome.

Where the code does something a reader might not expect, the model follows the code:

- A non-nil but empty `FilesToUnwrap` map filters out every regular file. Only a nil map means "extract everything" (`EmptyFilterSkipsEverything`).
- The stat check does not reject a directory found at a regular file's target path. `getLocalFileInfo` returns nil info with an error, the caller discards the error, and the new-file path is taken. Such an entry fails at the create-open instead, with the wrapped "failed to create new file" error rather than an "is a directory" one (`DirectoryTargetIsCreated`).
- A hard link uses the entry's own name as the link source, not a link target field of the header.
- `NewUnwrapResult` is not part of this model. That a run starts with empty collections is an assumption (`UnwrapResult.constructor`).
- `utility.BaseBackupPath` is not part of this model. The constant is set to wal-g's `"basebackups_005/"`. Only the example lemma `WalSegmentExample` depends on its value.

## Model

| member | source | states |
|---|---|---|
| Paths.TrimSuffix | internal/databases/postgres/tar_interpreter.go:73 | when `s` ends with the suffix the result followed by the suffix is `s`; otherwise the result is `s` unchanged; either way the result is a prefix of `s` |
| Paths.HasPrefix | internal/delete_util.go:39 | true exactly when the prefix is no longer than the string and agrees with it character by character from the start |
| Paths.HasSuffix | internal/databases/postgres/tar_interpreter.go:73 | true exactly when the suffix is no longer than the string and agrees with its last characters |
| Paths.Join | internal/databases/postgres/tar_interpreter.go:42 | the target path starts with the data directory and ends with the entry name; an empty directory gives the name itself; an empty name gives the directory itself; when both are non-empty exactly one slash separates them |
| Paths.Base | internal/databases/postgres/tar_interpreter.go:72 | never empty; "." for the empty path; "/" for a path of slashes only; for a path without trailing slash it is the longest slash-free suffix (the character before it is a slash, or it is the whole path) |
| TarInterpreter.Selected | internal/databases/postgres/tar_interpreter.go:83-84 | with no filter every name is selected; with a filter a name is selected exactly when it is a key, whatever it maps to; an empty filter selects nothing |
| TarInterpreter.FileMode | internal/databases/postgres/tar_interpreter.go:52 | the int64 mode converted to `os.FileMode` agrees with it modulo 2^32, and equals it when the mode already fits in 32 bits |
| TarInterpreter.DirToPrepare | internal/databases/postgres/tar_interpreter.go:68-73 | nothing to create when the file name equals the target path; otherwise a prefix of the target path; when the target ends with the base name of the file, the directory followed by that base name is the target; otherwise the target unchanged |
| TarInterpreter.PrepareDirs | internal/databases/postgres/tar_interpreter.go:68-76 | no effect and no error when file name equals target path; otherwise exactly one `MkdirAll(TrimSuffix(target, Base(name)), 0755)`, failing exactly when that call fails, and then returning that call's own error unwrapped |
| TarInterpreter.PrepareDirsUnderDataDirectory | internal/databases/postgres/tar_interpreter.go:68-76 | for a clean data directory and a clean relative name (where `path.Join` needs no clean-up), the directory prepared for the joined target is the data directory, a slash, and the name's parent part |
| TarInterpreter.EmptyDataDirectoryPreparesNothing | internal/databases/postgres/tar_interpreter.go:69-71 | with an empty data directory and a clean name the target path is the name, so no directory is created and no error arises |
| TarInterpreter.CreateLocalFile | internal/databases/postgres/tar_interpreter.go:153-163 | only directory creation and the create-open of the target happen; a `PrepareDirs` error is wrapped and stops before the open; once the directories are prepared the effects are exactly `PrepareDirs`'s followed by the create-open, whose failure is returned wrapped with the target path; success exactly when both succeed, the open being the last effect |
| TarInterpreter.GetLocalFile | internal/databases/postgres/tar_interpreter.go:112-120 | the new-file path is taken exactly when stat does not report an existing non-directory; an existing file is only opened read-write, failing exactly when that open fails, with the open's own error returned as is; a new file is never opened read-write and is produced by `CreateLocalFile` |
| TarInterpreter.GetFileUnwrapper | internal/databases/postgres/tar_interpreter.go:123-138 | `isIncremented` holds exactly when the catalog has the name and marks it incremented; `isPageFile` is false unless an existing local file is found, and then is what `isPagedFile` reports; the catchup variant is chosen exactly in create-new-incremental-files mode |
| TarInterpreter.UnwrapRegularFile | internal/databases/postgres/tar_interpreter.go:79-109 | a name the filter leaves out has no effect, no record and no error; an error is never recorded with a result; a selected file is opened read-write exactly when it exists; a local-file error is returned as is with nothing else done; once the file is open, the effects are exactly the open, the entry point matching new/existing, the sync (with the fsync flag) and the close; a result is recorded, with no error, exactly when the unwrapper succeeds, and an unwrapper failure is always returned as the error |
| TarInterpreter.InterpretEntry | internal/databases/postgres/tar_interpreter.go:40-65 | only a selected regular file records an outcome, never with an error; both regular flags delegate to `UnwrapRegularFile` at the joined target with fsync = not disabled; a directory is `MkdirAll(target, 0755)` and, only if that succeeds, `Chmod(target, FileMode(mode))`, with an error exactly when one fails: a mkdir failure wrapped with the target, a chmod failure wrapped as a chmod error; hard and symbolic links go from the entry name to the target, erring exactly when the call fails, with the hard-link or symlink error wrapped with the target; any other flag does nothing |
| TarInterpreter.FilterIsKeyPresence | internal/databases/postgres/tar_interpreter.go:83-89 | a name present in the filter, whatever its boolean, is extracted exactly as with no filter |
| TarInterpreter.EmptyFilterSkipsEverything | internal/databases/postgres/tar_interpreter.go:83-89 | an empty non-nil filter turns every regular entry into a no-op |
| TarInterpreter.DirectoryTargetIsCreated | internal/databases/postgres/tar_interpreter.go:112-120 | a directory at the target path takes the new-file path, and a create-open of the target is attempted once directories are prepared; if that open fails the entry ends there with the wrapped create error and nothing recorded |
| TarInterpreter.FileTarInterpreter.constructor | internal/databases/postgres/tar_interpreter.go:29-35 | keeps the given configuration and starts a fresh, empty aggregate |
| TarInterpreter.FileTarInterpreter.AddFileUnwrapResult | internal/databases/postgres/tar_interpreter.go:165-176 | Skipped changes nothing; Completed appends the name to the completed list and leaves both maps; the two increment kinds store the block count under the name in their own map, overwriting, and leave the other two collections; the new aggregate is `Record` of the old |
| TarInterpreter.FileTarInterpreter.AddToCompletedFiles | internal/databases/postgres/tar_interpreter.go:178-182 | appends exactly the name to the end of the completed list (duplicates kept); both maps unchanged |
| TarInterpreter.FileTarInterpreter.AddToCreatedPageFiles | internal/databases/postgres/tar_interpreter.go:184-188 | stores the block count under the name, replacing any earlier count; the other collections unchanged |
| TarInterpreter.FileTarInterpreter.AddToWrittenIncrementFiles | internal/databases/postgres/tar_interpreter.go:190-194 | stores the block count under the name, replacing any earlier count; the other collections unchanged |
| TarInterpreter.FileTarInterpreter.Interpret | internal/databases/postgres/tar_interpreter.go:40-65 | returns the entry's error and effects, and changes the aggregate only when a result is recorded, then by exactly one `Record` under the header's name |
| UnwrapResults.UnwrapResult.constructor | internal/databases/postgres/tar_interpreter.go:34 | a new aggregate holds no completed file and two empty maps |
| UnwrapResults.Record | internal/databases/postgres/tar_interpreter.go:165-194 | Skipped leaves the aggregate as it was; any other kind adds exactly the file name to the recorded names; a name not yet recorded lands in exactly the collection of its kind with its block count; every other name keeps its place |
| UnwrapResults.RecordAllPartitions | internal/databases/postgres/tar_interpreter.go:165-194 | when each file reports once under its own name, every name lands in exactly the collection of its kind with its block count, Skipped in none; the completed list has no duplicates; no unreported name appears |
| DeleteUtil.IsPermanent | internal/delete_util.go:38-46 | for a length that is not negative and whose sum with the folder length fits Go's int, a permanent answer implies the base-backup prefix, enough length for a backup name after it, and that embedded name mapped to true (the converse is `PermanentIffEmbeddedNameMarked`) |
| DeleteUtil.EmbeddedBackupName | internal/delete_util.go:41 | the embedded backup name has exactly `backupNameLength` characters and follows the folder prefix directly |
| DeleteUtil.OutsideBaseBackupsIsNotPermanent | internal/delete_util.go:36-46 | an object whose name does not start with the base-backup folder (WAL, binlog) is never permanent |
| DeleteUtil.TooShortIsNotPermanent | internal/delete_util.go:39-45 | an object shorter than the prefix plus the backup-name length is never permanent |
| DeleteUtil.PermanentIffEmbeddedNameMarked | internal/delete_util.go:39-43 | past the prefix and length tests, permanent exactly when the embedded name maps to true; an absent name gives false |
| DeleteUtil.PermanenceDependsOnlyOnPrefixAndName | internal/delete_util.go:38-46 | two long-enough names that agree on the prefix and the embedded name get the same answer, whatever follows |
| DeleteUtil.ObjectOfBackupIsPermanentIffBackupIs | internal/delete_util.go:38-46 | any object stored after the folder and a backup name is permanent exactly when that backup maps to true |
| DeleteUtil.PartitionExamples | internal/delete_util.go:38-43 | a tar partition of BACKUP001, marked true, is permanent; one of BACKUP002, marked false, is not |
| DeleteUtil.WalSegmentExample | internal/delete_util.go:36-45 | a WAL segment object is not permanent, whatever backup names are marked |
| DeleteUtil.PermanentNamesMembership | internal/delete_util.go:21-32 | a name is among the permanent names of a listing exactly when some listed backup of that name was fetched and is permanent |
| DeleteUtil.PermanentNamesAppend | internal/delete_util.go:21-32 | the permanent names of two listings in sequence are the union of theirs |
| DeleteUtil.FailedFetchSkipsOnlyThatBackup | internal/delete_util.go:22-28 | inserting a backup whose fetch fails anywhere in a listing changes nothing for the others |
| DeleteUtil.FindPermanentBackups | internal/delete_util.go:13-34 | an empty map when the listing fails; otherwise the keys are exactly the fetched-and-permanent backup names of the listing; every value is true |

## Left out

- Real filesystem calls (`os.MkdirAll`, `os.Chmod`, `os.Link`, `os.Symlink`, `os.OpenFile`, `os.Stat`) are oracles in `FileSystem`. Their effects on the disk are recorded as `Action`s, not applied.
- `utility.LoggedSync` and `utility.LoggedClose` are `Sync`/`Close` actions. What they do with the fsync flag is not part of this model.
- The `openCreate` oracle is not tied to `stat`: the model lets a create-open of a path that stat reports as a directory succeed, which a POSIX kernel refuses (EISDIR). The model states what happens on either outcome.
- `Stat` errors other than "does not exist" are not modelled: the stat oracle is total. In the code such an error makes `getLocalFileInfo` dereference a nil info and panic.
- Concurrency is not modelled. The three mutexes of `UnwrapResult` exist for concurrent callers, and the model records outcomes one at a time.
- `UnwrapNewFile`, `UnwrapExistingFile`, `NewFileUnwrapper` and `isPagedFile` are not part of this model. They are the oracle `Unwrapping` and the `isPagedFile` flag of the stat probe. Nothing about block merging or page offsets is asserted.
- The tar payload reader, `BackupSentinelDto` and the debug logging are not modelled: none of them affects a decision here.
- In the recording order, `AddFileUnwrapResult` runs before the deferred sync and close. The model returns the effects and the record separately, so that interleaving is not represented.
- Paths.Join: does not apply `path.Clean`. The model does not remove `.` or `..` elements, doubled slashes or a trailing slash, so a data directory such as `.` gives `./name` where Go gives `name`, and a directory entry named `base/1/` gives `<dir>/base/1/` where Go gives `<dir>/base/1`.
- TarInterpreter.PrepareDirsUnderDataDirectory: holds for Go only when `path.Join` needs no clean-up, so it requires a clean data directory (not `.` or `/`) and a clean relative name. For `.` Go's target equals the name and nothing is created; for `/data/` Go's target has one slash where the model's `Join` has two.
- TarInterpreter.EmptyDataDirectoryPreparesNothing: requires a clean name. For a name such as `./x`, Go's target is `x`, which differs from the name, so Go calls `MkdirAll` on an empty path; the model's `Join` does not capture that.
- TarInterpreter.FileMode: states only the 32-bit conversion. How `os.Chmod` maps Go's `FileMode` bits to Unix permissions is not part of this model.
- Strings are sequences of chars, one per byte of the Go string. No encoding is modelled.
- `GetBackups`, `metaFetcher.Fetch`, `storage.Folder` and tracelog are replaced by the `BackupListing` input.
- `FindBackupObjects` is not modelled: it only maps the external `GetBackupSentinelObjects` through `NewDefaultBackupObject`.
- `CreateTargetDeleteBackupSelector` is not modelled: it is command-line glue around `NewTargetBackupSelector` and `cmd.UsageString`.
- DeleteUtil.IsPermanent: requires `ValidNameLength(backupNameLength)`, so the model says nothing about lengths for which Go panics. A negative length makes the slice at delete_util.go:41 panic. So does a length whose sum with the folder length at delete_util.go:40 overflows Go's 64-bit `int`: the sum wraps negative, the length test passes for any object with the prefix, and the slice then panics. For example, `IsPermanent("basebackups_005/x", m, math.MaxInt64-1)` panics in Go. The lemmas about `IsPermanent` carry the same requirement, `TooShortIsNotPermanent` included.
