/**
 * `SummaryResults` of the dashboard: the cohort summary saved under
 * `results_dir/summary/mean`: the mean matrix and one mean map per class,
 * `class_<i>_<atlas>.npy`, read as brain matrices tagged "mean".
 */
module AppSummary {
  import opened Wrappers
  import opened Grids
  import opened Text
  import opened FileSystem
  import opened ClassMaps
  import opened AppBrainMatrix

  /** The atlas every method defaults to, and the one the presence check always uses. */
  const AAL: string := "AAL"

  /** `os.path.join(results_dir, 'summary')`. */
  function SummaryDir(resultsRoot: string): string
  {
    PathJoin(resultsRoot, "summary")
  }

  /** `os.path.join(self.path, 'mean')`. */
  function MeanDir(resultsRoot: string): string
  {
    PathJoin(SummaryDir(resultsRoot), "mean")
  }

  /** `os.path.join(self.mean_dir, 'mean_pbr_matrix.npy')`. */
  function MeanPbrPath(resultsRoot: string): string
  {
    PathJoin(MeanDir(resultsRoot), "mean_pbr_matrix.npy")
  }

  /**
   * The summary as `__init__` leaves it: `mean_pbr` is read from its file
   * exactly when `has_summary` holds, and is absent otherwise.
   */
  datatype SummaryResults = SummaryResults(resultsRoot: string, meanPbr: Option<Content>)
  {
    /** `has_summary(kind)`: whether the mean matrix file exists; the kind is not looked at. */
    predicate HasSummary(disk: Disk)
    {
      disk.IsFile(MeanPbrPath(resultsRoot))
    }

    /** `get_mean_probability_map_path(i, atlas)`. */
    function MeanProbabilityMapPath(classIdx: nat, atlasName: string): (p: string)
      ensures p == ClassMapFile(MeanDir(resultsRoot), classIdx, atlasName)
    {
      PathJoin(MeanDir(resultsRoot), "class_" + NatToString(classIdx) + "_" + atlasName + ".npy")
    }

    /** `get_all_mean_probability_map_paths(atlas)`: one path per class, in class order. */
    function AllMeanProbabilityMapPaths(atlasName: string): (ps: seq<string>)
      ensures |ps| == N_CLASSES
      ensures forall i :: 0 <= i < N_CLASSES ==> ps[i] == MeanProbabilityMapPath(i, atlasName)
    {
      seq(N_CLASSES, i requires 0 <= i < N_CLASSES => MeanProbabilityMapPath(i, atlasName))
    }

    /** `has_probability_maps(kind)`: every AAL class map file exists; the kind is not looked at. */
    predicate HasProbabilityMaps(disk: Disk)
    {
      forall i :: 0 <= i < N_CLASSES ==> disk.IsFile(AllMeanProbabilityMapPaths(AAL)[i])
    }

    /** `get_mean_probability_map(i, atlas)`: the saved volume, or `None` when there is no such file. */
    function MeanProbabilityMap(disk: Disk, classIdx: nat, atlasName: string): (r: Option<Volume>)
      ensures !disk.IsFile(MeanProbabilityMapPath(classIdx, atlasName)) ==> r.None?
      ensures r.Some? ==> disk.files[MeanProbabilityMapPath(classIdx, atlasName)] == NpyVolume(r.value)
    {
      var path := MeanProbabilityMapPath(classIdx, atlasName);
      if disk.IsFile(path) && disk.files[path].NpyVolume? then Some(disk.files[path].v) else None
    }

    /** `get_mean_brain_matrix(i, atlas)`: the map tagged "mean" and its class, or `None` without a map. */
    function MeanBrainMatrix(disk: Disk, classIdx: nat, atlasName: string): (b: Option<BrainMatrix>)
      ensures b.Some? <==> MeanProbabilityMap(disk, classIdx, atlasName).Some?
      ensures b.Some? ==> b.value.data == MeanProbabilityMap(disk, classIdx, atlasName)
      ensures b.Some? ==> b.value.info == Info(MeanInfo, classIdx)
    {
      match MeanProbabilityMap(disk, classIdx, atlasName)
      case None => None
      case Some(v) => Some(BrainMatrix(Some(v), Info(MeanInfo, classIdx)))
    }

    /**
     * `get_all_class_means(atlas)`: one mean brain matrix per class, in class
     * order, when all AAL map files exist; otherwise `None`.
     */
    function AllClassMeans(disk: Disk, atlasName: string): (r: Option<seq<Option<BrainMatrix>>>)
      ensures r.Some? <==> HasProbabilityMaps(disk)
      ensures r.Some? ==> |r.value| == N_CLASSES
      ensures r.Some? ==> forall i :: 0 <= i < N_CLASSES ==> r.value[i] == MeanBrainMatrix(disk, i, atlasName)
    {
      if HasProbabilityMaps(disk) then
        Some(seq(N_CLASSES, i requires 0 <= i < N_CLASSES => MeanBrainMatrix(disk, i, atlasName)))
      else None
    }
  }

  /** `SummaryResults()`: the mean matrix is loaded when, and only when, its file exists. */
  function Init(disk: Disk, resultsRoot: string): (s: SummaryResults)
    ensures s.resultsRoot == resultsRoot
    ensures s.meanPbr.Some? <==> s.HasSummary(disk)
    ensures s.meanPbr.Some? ==> s.meanPbr.value == disk.files[MeanPbrPath(resultsRoot)]
  {
    var path := MeanPbrPath(resultsRoot);
    SummaryResults(resultsRoot, if disk.IsFile(path) then Some(disk.files[path]) else None)
  }

  /** Whatever atlas is asked for, whether there is a result is decided by the AAL files. */
  lemma AllClassMeansGatedByAal(s: SummaryResults, disk: Disk, atlasName: string)
    ensures s.AllClassMeans(disk, atlasName).Some? <==> s.AllClassMeans(disk, AAL).Some?
  {
  }

  /** Volumes as the contents of `.npy` files. */
  function NpyContents(maps: seq<Volume>): (cs: seq<Content>)
    ensures |cs| == |maps| && forall k :: 0 <= k < |maps| ==> cs[k] == NpyVolume(maps[k])
  {
    seq(|maps|, k requires 0 <= k < |maps| => NpyVolume(maps[k]))
  }

  /** Class maps read as brain matrices tagged "mean" and their class. */
  function MeanMatrices(maps: seq<Volume>): (bs: seq<Option<BrainMatrix>>)
    ensures |bs| == |maps| && forall i :: 0 <= i < |maps| ==> bs[i] == Some(BrainMatrix(Some(maps[i]), Info(MeanInfo, i)))
  {
    seq(|maps|, i requires 0 <= i < |maps| => Some(BrainMatrix(Some(maps[i]), Info(MeanInfo, i))))
  }

  /** One saved map is read back as the mean brain matrix of its class. */
  lemma SavedMeanIsRead(s: SummaryResults, disk: Disk, maps: seq<Volume>, i: nat)
    requires |maps| == N_CLASSES && i < N_CLASSES
    ensures var saved := SavedMaps(disk, MeanDir(s.resultsRoot), AAL, NpyContents(maps));
      && saved.IsFile(ClassMapFile(MeanDir(s.resultsRoot), i, AAL))
      && s.MeanBrainMatrix(saved, i, AAL) == MeanMatrices(maps)[i]
  {
    SavedMapFile(disk, MeanDir(s.resultsRoot), AAL, NpyContents(maps), i);
  }

  /**
   * A summary whose six AAL class maps were saved into the mean directory
   * gives back those maps, each tagged "mean" and its class.
   */
  lemma SavedMeansAreRead(s: SummaryResults, disk: Disk, maps: seq<Volume>)
    requires |maps| == N_CLASSES
    ensures s.AllClassMeans(SavedMaps(disk, MeanDir(s.resultsRoot), AAL, NpyContents(maps)), AAL) == Some(MeanMatrices(maps))
  {
    var saved := SavedMaps(disk, MeanDir(s.resultsRoot), AAL, NpyContents(maps));
    forall i | 0 <= i < N_CLASSES
      ensures saved.IsFile(ClassMapFile(MeanDir(s.resultsRoot), i, AAL))
      ensures s.MeanBrainMatrix(saved, i, AAL) == MeanMatrices(maps)[i]
    {
      SavedMeanIsRead(s, disk, maps, i);
    }
    assert s.HasProbabilityMaps(saved);
    assert s.AllClassMeans(saved, AAL).value == MeanMatrices(maps);
  }
}
