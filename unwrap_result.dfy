/**
 * Outcomes of unwrapping one file and their aggregate over a restore run
 * (the UnwrapResult object the tar interpreter fills in).
 */
module UnwrapResults {
  import opened Common

  /** The four kinds of per-file outcome. */
  datatype FileUnwrapResultType = Skipped | Completed | CreatedFromIncrement | WroteIncrementBlocks

  /** The outcome of one file; blockCount matters for the two increment kinds only. */
  datatype FileUnwrapResult = FileUnwrapResult(resultType: FileUnwrapResultType, blockCount: Int64)

  /** The value held by an UnwrapResult object: completed names in order, and two name-to-block-count maps. */
  datatype UnwrapTotals = UnwrapTotals(
    completedFiles: seq<string>,
    createdPageFiles: map<string, Int64>,
    writtenIncrementFiles: map<string, Int64>)

  /** The aggregate of a run before any file has finished. */
  const NoResults := UnwrapTotals([], map[], map[])

  /** The aggregate after the outcome `result` of `fileName` has been recorded into `t`. */
  function Record(t: UnwrapTotals, result: FileUnwrapResult, fileName: string): (r: UnwrapTotals)
    ensures result.resultType == Skipped ==> r == t
    ensures Names(r) == Names(t) + (if result.resultType == Skipped then {} else {fileName})
    ensures fileName !in Names(t) ==> Placed(r, fileName, result)
    ensures forall n, res {:trigger Placed(t, n, res)} :: n != fileName && Placed(t, n, res) ==> Placed(r, n, res)
  {
    match result.resultType
    case Skipped => t
    case Completed => t.(completedFiles := t.completedFiles + [fileName])
    case CreatedFromIncrement => t.(createdPageFiles := t.createdPageFiles[fileName := result.blockCount])
    case WroteIncrementBlocks => t.(writtenIncrementFiles := t.writtenIncrementFiles[fileName := result.blockCount])
  }

  /** The aggregate of a run that recorded the outcomes `rs`, in order, starting empty. */
  function RecordAll(rs: seq<(string, FileUnwrapResult)>): UnwrapTotals {
    if rs == [] then NoResults
    else Record(RecordAll(rs[..|rs| - 1]), rs[|rs| - 1].1, rs[|rs| - 1].0)
  }

  /** Every name that appears in some collection of t. */
  function Names(t: UnwrapTotals): set<string> {
    (set n | n in t.completedFiles) + t.createdPageFiles.Keys + t.writtenIncrementFiles.Keys
  }

  predicate NoDuplicates(s: seq<string>) {
    forall i, j :: 0 <= i < j < |s| ==> s[i] != s[j]
  }

  predicate DistinctNames(rs: seq<(string, FileUnwrapResult)>) {
    forall i, j :: 0 <= i < j < |rs| ==> rs[i].0 != rs[j].0
  }

  /** fileName sits in exactly the collection its outcome kind selects (none for Skipped), with its block count. */
  predicate Placed(t: UnwrapTotals, fileName: string, result: FileUnwrapResult) {
    var inCompleted := fileName in t.completedFiles;
    var inCreated := fileName in t.createdPageFiles;
    var inWritten := fileName in t.writtenIncrementFiles;
    match result.resultType
    case Skipped => !inCompleted && !inCreated && !inWritten
    case Completed => inCompleted && !inCreated && !inWritten
    case CreatedFromIncrement =>
      !inCompleted && inCreated && !inWritten && t.createdPageFiles[fileName] == result.blockCount
    case WroteIncrementBlocks =>
      !inCompleted && !inCreated && inWritten && t.writtenIncrementFiles[fileName] == result.blockCount
  }

  /**
   * When every file of a run reports once under its own name, the three
   * collections partition the names of the non-skipped files: each name lands
   * in the collection of its outcome kind and in no other, with its block
   * count, the completed list holds no name twice, and no other name appears.
   */
  lemma {:induction false} RecordAllPartitions(rs: seq<(string, FileUnwrapResult)>)
    requires DistinctNames(rs)
    ensures NoDuplicates(RecordAll(rs).completedFiles)
    ensures forall i :: 0 <= i < |rs| ==> Placed(RecordAll(rs), rs[i].0, rs[i].1)
    ensures forall name :: name in Names(RecordAll(rs)) ==> exists i :: 0 <= i < |rs| && rs[i].0 == name
  {
    if rs != [] {
      var init := rs[..|rs| - 1];
      var (name, result) := rs[|rs| - 1];
      assert DistinctNames(init) by {
        forall i, j | 0 <= i < j < |init| ensures init[i].0 != init[j].0 {
          assert init[i] == rs[i] && init[j] == rs[j];
        }
      }
      RecordAllPartitions(init);
      var before := RecordAll(init);
      assert name !in Names(before);
      assert name !in before.completedFiles;
      var after := RecordAll(rs);
      assert after == Record(before, result, name);
      forall i | 0 <= i < |rs| ensures Placed(after, rs[i].0, rs[i].1) {
        if i < |rs| - 1 {
          assert rs[i] == init[i];
          assert Placed(before, init[i].0, init[i].1);
          assert rs[i].0 != name;
        }
      }
      forall n | n in Names(after) ensures exists i :: 0 <= i < |rs| && rs[i].0 == n {
        if n == name {
          assert rs[|rs| - 1].0 == n;
        } else {
          assert n in Names(before) by {
            if n in after.completedFiles {
              var k :| 0 <= k < |after.completedFiles| && after.completedFiles[k] == n;
              assert k < |before.completedFiles|;
              assert before.completedFiles[k] == n;
            }
          }
          var i :| 0 <= i < |init| && init[i].0 == n;
          assert rs[i].0 == n;
        }
      }
    }
  }

  /** The aggregate object of one restore run; it is only ever updated by recording an outcome. */
  class UnwrapResult {
    var completedFiles: seq<string>
    var createdPageFiles: map<string, Int64>
    var writtenIncrementFiles: map<string, Int64>

    /** NewUnwrapResult; that it starts empty is an assumption of this model. */
    constructor ()
      ensures Snapshot() == NoResults
    {
      completedFiles := [];
      createdPageFiles := map[];
      writtenIncrementFiles := map[];
    }

    function Snapshot(): UnwrapTotals
      reads this
    {
      UnwrapTotals(completedFiles, createdPageFiles, writtenIncrementFiles)
    }
  }
}
