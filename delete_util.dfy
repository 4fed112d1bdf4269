/**
 * Permanence of storage objects: which backups are marked permanent, and
 * whether a storage object belongs to one of them.
 */
module DeleteUtil {
  import opened Common
  import opened Paths

  /** The folder of base backups (utility.BaseBackupPath). */
  const BaseBackupPath: string := "basebackups_005/"

  /**
   * A backup name length IsPermanent can be called with: not negative, and
   * small enough that the folder length plus it does not overflow Go's int.
   * Outside this range the slice of the object name panics.
   */
  predicate ValidNameLength(backupNameLength: int) {
    0 <= backupNameLength && |BaseBackupPath| + backupNameLength <= MaxInt
  }

  /**
   * IsPermanent: an object is permanent exactly when its name starts with the
   * base-backup folder, is long enough to hold a backup name there, and the
   * backupNameLength characters after the folder name a backup mapped to true.
   * WAL and binlog objects are never permanent here.
   */
  function IsPermanent(objectName: string, permanentBackups: map<string, bool>, backupNameLength: int): (r: bool)
    requires ValidNameLength(backupNameLength)
    ensures r ==> HasPrefix(objectName, BaseBackupPath)
    ensures r ==> |objectName| >= |BaseBackupPath| + backupNameLength
    ensures r ==> var name := objectName[|BaseBackupPath|..|BaseBackupPath| + backupNameLength];
                  name in permanentBackups && permanentBackups[name]
  {
    if HasPrefix(objectName, BaseBackupPath) && |objectName| >= |BaseBackupPath| + backupNameLength then
      var backup := objectName[|BaseBackupPath|..|BaseBackupPath| + backupNameLength];
      backup in permanentBackups && permanentBackups[backup]
    else
      false
  }

  /** The backup name embedded in an object name that passed the prefix and length test. */
  function EmbeddedBackupName(objectName: string, backupNameLength: nat): (name: string)
    requires |objectName| >= |BaseBackupPath| + backupNameLength
    ensures |name| == backupNameLength
    ensures objectName[..|BaseBackupPath|] + name == objectName[..|BaseBackupPath| + backupNameLength]
  {
    objectName[|BaseBackupPath|..|BaseBackupPath| + backupNameLength]
  }

  /** An object outside the base-backup folder (a WAL segment, a binlog) is never permanent. */
  lemma OutsideBaseBackupsIsNotPermanent(objectName: string, permanentBackups: map<string, bool>, backupNameLength: nat)
    requires ValidNameLength(backupNameLength)
    requires !HasPrefix(objectName, BaseBackupPath)
    ensures !IsPermanent(objectName, permanentBackups, backupNameLength)
  {
  }

  /** An object too short to hold a backup name after the folder is never permanent, even inside the folder. */
  lemma TooShortIsNotPermanent(objectName: string, permanentBackups: map<string, bool>, backupNameLength: nat)
    requires ValidNameLength(backupNameLength)
    requires |objectName| < |BaseBackupPath| + backupNameLength
    ensures !IsPermanent(objectName, permanentBackups, backupNameLength)
  {
  }

  /** Inside the folder and long enough, the answer is the lookup of the embedded name; an absent name means false. */
  lemma PermanentIffEmbeddedNameMarked(objectName: string, permanentBackups: map<string, bool>, backupNameLength: nat)
    requires ValidNameLength(backupNameLength)
    requires HasPrefix(objectName, BaseBackupPath) && |objectName| >= |BaseBackupPath| + backupNameLength
    ensures var name := EmbeddedBackupName(objectName, backupNameLength);
            (IsPermanent(objectName, permanentBackups, backupNameLength) <==> name in permanentBackups && permanentBackups[name])
    ensures EmbeddedBackupName(objectName, backupNameLength) !in permanentBackups ==>
              !IsPermanent(objectName, permanentBackups, backupNameLength)
  {
  }

  /**
   * The answer depends only on the first |BaseBackupPath| + backupNameLength
   * characters: two long-enough names that agree on them get the same answer,
   * whatever follows.
   */
  lemma PermanenceDependsOnlyOnPrefixAndName(a: string, b: string, permanentBackups: map<string, bool>, backupNameLength: nat)
    requires ValidNameLength(backupNameLength)
    requires |a| >= |BaseBackupPath| + backupNameLength && |b| >= |BaseBackupPath| + backupNameLength
    requires a[..|BaseBackupPath| + backupNameLength] == b[..|BaseBackupPath| + backupNameLength]
    ensures IsPermanent(a, permanentBackups, backupNameLength) == IsPermanent(b, permanentBackups, backupNameLength)
  {
    var k := |BaseBackupPath|;
    var n := k + backupNameLength;
    assert a[..k] == a[..n][..k] && b[..k] == b[..n][..k];
    assert a[k..n] == a[..n][k..] && b[k..n] == b[..n][k..];
  }

  /** An object stored under a backup's folder is permanent exactly when that backup is marked permanent. */
  lemma ObjectOfBackupIsPermanentIffBackupIs(backupName: string, rest: string, permanentBackups: map<string, bool>)
    requires ValidNameLength(|backupName|)
    ensures IsPermanent(BaseBackupPath + backupName + rest, permanentBackups, |backupName|)
        <==> backupName in permanentBackups && permanentBackups[backupName]
  {
    var o := BaseBackupPath + backupName + rest;
    assert o[..|BaseBackupPath|] == BaseBackupPath;
    assert o[|BaseBackupPath|..|BaseBackupPath| + |backupName|] == backupName;
  }

  /** A tar partition of a permanent backup is permanent; one of a backup mapped to false is not. */
  lemma PartitionExamples()
    ensures IsPermanent(BaseBackupPath + "BACKUP001" + "/tar_partitions/1.tar", map["BACKUP001" := true], 9)
    ensures !IsPermanent(BaseBackupPath + "BACKUP002" + "/tar_partitions/1.tar", map["BACKUP001" := true, "BACKUP002" := false], 9)
  {
    ObjectOfBackupIsPermanentIffBackupIs("BACKUP001", "/tar_partitions/1.tar", map["BACKUP001" := true]);
    ObjectOfBackupIsPermanentIffBackupIs("BACKUP002", "/tar_partitions/1.tar", map["BACKUP001" := true, "BACKUP002" := false]);
  }

  /** A WAL segment is not permanent, whatever backups are marked. */
  lemma WalSegmentExample(permanentBackups: map<string, bool>)
    ensures !IsPermanent("wal_005/000000010000000000000001", permanentBackups, 9)
  {
    assert "wal_005/000000010000000000000001"[0] != BaseBackupPath[0];
  }

  /** The metadata fetch of one backup: an error, or the metadata's permanence flag. */
  datatype MetaFetch = FetchFailed(cause: string) | Fetched(isPermanent: bool)

  /** One backup of the base-backup folder with the outcome of fetching its metadata. */
  datatype ListedBackup = ListedBackup(backupName: string, meta: MetaFetch)

  /** The listing of the base-backup folder (GetBackups): an error, or the backups in listing order. */
  datatype BackupListing = ListingFailed(cause: string) | Listed(backups: seq<ListedBackup>)

  predicate MarkedPermanent(b: ListedBackup) {
    b.meta.Fetched? && b.meta.isPermanent
  }

  /** The names of the listed backups whose metadata was fetched and says permanent. */
  function PermanentNames(backups: seq<ListedBackup>): set<string> {
    if backups == [] then {}
    else
      var last := backups[|backups| - 1];
      PermanentNames(backups[..|backups| - 1]) + (if MarkedPermanent(last) then {last.backupName} else {})
  }

  /** A name is in PermanentNames exactly when some listed backup of that name was fetched and is permanent. */
  lemma {:induction false} PermanentNamesMembership(backups: seq<ListedBackup>, name: string)
    ensures name in PermanentNames(backups) <==>
              exists i :: 0 <= i < |backups| && backups[i].backupName == name && MarkedPermanent(backups[i])
  {
    if backups != [] {
      var init := backups[..|backups| - 1];
      PermanentNamesMembership(init, name);
      if exists i :: 0 <= i < |init| && init[i].backupName == name && MarkedPermanent(init[i]) {
        var i :| 0 <= i < |init| && init[i].backupName == name && MarkedPermanent(init[i]);
        assert backups[i] == init[i];
      }
      if exists i :: 0 <= i < |backups| && backups[i].backupName == name && MarkedPermanent(backups[i]) {
        var i :| 0 <= i < |backups| && backups[i].backupName == name && MarkedPermanent(backups[i]);
        if i < |init| {
          assert init[i] == backups[i];
        }
      }
    }
  }

  /** The permanent names of a concatenated listing are those of its parts. */
  lemma {:induction false} PermanentNamesAppend(a: seq<ListedBackup>, b: seq<ListedBackup>)
    ensures PermanentNames(a + b) == PermanentNames(a) + PermanentNames(b)
  {
    if b == [] {
      assert a + b == a;
    } else {
      assert (a + b)[..|a + b| - 1] == a + b[..|b| - 1];
      PermanentNamesAppend(a, b[..|b| - 1]);
    }
  }

  /** A backup whose metadata fetch fails is skipped on its own: the others are classified as if it were not listed. */
  lemma FailedFetchSkipsOnlyThatBackup(before: seq<ListedBackup>, failed: ListedBackup, after: seq<ListedBackup>)
    requires failed.meta.FetchFailed?
    ensures PermanentNames(before + [failed] + after) == PermanentNames(before + after)
  {
    PermanentNamesAppend(before + [failed], after);
    PermanentNamesAppend(before, [failed]);
    PermanentNamesAppend(before, after);
    assert PermanentNames([failed]) == {} by {
      assert [failed][..0] == [];
    }
  }

  /**
   * FindPermanentBackups: an empty map when the listing fails; otherwise every
   * backup whose metadata was fetched and is permanent, mapped to true. A
   * failed fetch skips that backup and the loop goes on.
   */
  method FindPermanentBackups(listing: BackupListing) returns (permanentBackups: map<string, bool>)
    ensures listing.ListingFailed? ==> permanentBackups == map[]
    ensures listing.Listed? ==> permanentBackups.Keys == PermanentNames(listing.backups)
    ensures listing.Listed? ==> forall name :: name in permanentBackups <==>
              exists i :: 0 <= i < |listing.backups| && listing.backups[i].backupName == name && MarkedPermanent(listing.backups[i])
    ensures forall name :: name in permanentBackups ==> permanentBackups[name]
  {
    if listing.ListingFailed? {
      return map[];
    }
    var backups := listing.backups;
    permanentBackups := map[];
    for i := 0 to |backups|
      invariant permanentBackups.Keys == PermanentNames(backups[..i])
      invariant forall name :: name in permanentBackups ==> permanentBackups[name]
    {
      assert backups[..i + 1][..i] == backups[..i];
      var backup := backups[i];
      if backup.meta.FetchFailed? {
        continue;
      }
      if backup.meta.isPermanent {
        permanentBackups := permanentBackups[backup.backupName := true];
      }
    }
    assert backups[..|backups|] == backups;
    forall name {
      PermanentNamesMembership(backups, name);
    }
  }
}
