/**
 * `Subject` of the dashboard: a subject id made of a four-character name
 * and a scan date, the subject's matrix, and the class maps saved for it
 * under `results_dir/<subject_id>/class_<i>_<atlas>.npy`, read as brain
 * matrices.
 */
module AppSubject {
  import opened Wrappers
  import opened Grids
  import opened Text
  import opened FileSystem
  import opened ClassMaps
  import opened AppBrainMatrix

  datatype Subject = Subject(subjectId: string, resultsRoot: string, pbr: Matrix)
  {
    /** `results_dir`: `os.path.join(results_dir, subject_id)`. */
    function ResultsDir(): string
    {
      PathJoin(resultsRoot, subjectId)
    }

    /** `get_probability_map_path(i, atlas)`: the file the class map was saved to. */
    function ProbabilityMapPath(classIdx: nat, atlasName: string): (p: string)
      ensures p == ClassMapFile(ResultsDir(), classIdx, atlasName)
    {
      PathJoin(ResultsDir(), "class_" + NatToString(classIdx) + "_" + atlasName + ".npy")
    }

    /** `get_probability_map(i, atlas)`: the stored volume, or `None` when there is no such file. */
    function ProbabilityMap(disk: Disk, classIdx: nat, atlasName: string): (r: Option<Volume>)
      ensures !disk.IsFile(ProbabilityMapPath(classIdx, atlasName)) ==> r.None?
      ensures r.Some? ==> disk.files[ProbabilityMapPath(classIdx, atlasName)] == NpyVolume(r.value)
    {
      var path := ProbabilityMapPath(classIdx, atlasName);
      if disk.IsFile(path) && disk.files[path].NpyVolume? then Some(disk.files[path].v) else None
    }

    /** `get_brain_matrix(i, atlas)`: the map, present or not, tagged with this subject and the class. */
    function BrainMatrixOf(disk: Disk, classIdx: nat, atlasName: string): (b: BrainMatrix)
      ensures b.data == ProbabilityMap(disk, classIdx, atlasName)
      ensures b.info == Info(SubjectInfo(subjectId), classIdx)
    {
      BrainMatrix(ProbabilityMap(disk, classIdx, atlasName), Info(SubjectInfo(subjectId), classIdx))
    }

    /** `get_all_probability_maps(atlas)`: one brain matrix per class, in class order. */
    function AllProbabilityMaps(disk: Disk, atlasName: string): (bs: seq<BrainMatrix>)
      ensures |bs| == N_CLASSES
      ensures forall i :: 0 <= i < N_CLASSES ==> bs[i] == BrainMatrixOf(disk, i, atlasName)
    {
      seq(N_CLASSES, i requires 0 <= i < N_CLASSES => BrainMatrixOf(disk, i, atlasName))
    }

    /** `name`: the first four characters of the id (fewer when the id is shorter). */
    function Name(): string
    {
      if |subjectId| <= 4 then subjectId else subjectId[..4]
    }

    /** `scan_date`: the rest of the id. */
    function ScanDate(): string
    {
      if |subjectId| <= 4 then [] else subjectId[4..]
    }

    /** `__str__`: `name/scan_date`. */
    function ToString(): string
    {
      Name() + "/" + ScanDate()
    }

    /** `__eq__`: by subject id only. */
    predicate Equals(other: Subject)
    {
      subjectId == other.subjectId
    }
  }

  /** The name and the scan date put back together are the id. */
  lemma NameAndScanDate(s: Subject)
    ensures s.Name() + s.ScanDate() == s.subjectId
    ensures |s.Name()| <= 4
  {
    if |s.subjectId| > 4 {
      assert s.subjectId[..4] + s.subjectId[4..] == s.subjectId;
    } else {
      assert s.subjectId + [] == s.subjectId;
    }
  }

  /**
   * The maps the helpers package's matrix saves into a subject's results
   * directory are the ones the dashboard subject reads back, class by class.
   */
  lemma ReadsSavedMaps(s: Subject, disk: Disk, atlasName: string, maps: seq<Volume>, i: nat)
    requires i < |maps|
    requires '/' !in atlasName && '.' !in atlasName && '_' !in atlasName
    ensures var saved := SavedMaps(disk, s.ResultsDir(), atlasName, seq(|maps|, k requires 0 <= k < |maps| => NpyVolume(maps[k])));
      s.ProbabilityMap(saved, i, atlasName) == Some(maps[i])
  {
    var contents := seq(|maps|, k requires 0 <= k < |maps| => NpyVolume(maps[k]));
    SavedMapFile(disk, s.ResultsDir(), atlasName, contents, i);
  }
}
