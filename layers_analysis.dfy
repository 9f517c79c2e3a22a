/**
 * `CorticalLayersAnalysis` of the cortical_layers package: the cohort's
 * regions x classes x subjects array, its mean over subjects, and every
 * class mean painted onto the AAL template (voxels labelled i + 1 get the
 * mean of region i), stacked along a last class axis. The stacked volume is
 * read from a default file when there is one, otherwise computed and saved
 * there, and kept once obtained.
 */
module LayersAnalysis {
  import opened Wrappers
  import opened Grids
  import opened Templates
  import opened FileSystem
  import opened ClassMaps

  /** `_default_class_means_file_path`. */
  const DEFAULT_CLASS_MEANS_FILE: string :=
    "/home/flavus/PycharmProjects/cortical_layers/cortical_layers/test/test_data/all_class_means_aal.npy"

  /** `if not file_name: file_name = default`: `None` and the empty name pick the default file. */
  function ChosenFile(fileName: Option<string>): (p: string)
    ensures fileName.Some? && fileName.value != "" ==> p == fileName.value
    ensures fileName.None? || fileName.value == "" ==> p == DEFAULT_CLASS_MEANS_FILE
  {
    if fileName.Some? && fileName.value != "" then fileName.value else DEFAULT_CLASS_MEANS_FILE
  }

  /**
   * `get_all_class_means_over_aal_from_file(file_name)`: `np.load` of the
   * exact path; a missing file raises `FileNotFoundError`, a file that is not
   * a four-dimensional array is refused with `ValueError`.
   */
  function FromFile(disk: Disk, fileName: Option<string>): (r: Result<Volume4>)
    ensures !disk.IsFile(ChosenFile(fileName)) ==> r == Err(FileNotFoundError)
    ensures r.Ok? ==> disk.IsFile(ChosenFile(fileName)) && disk.files[ChosenFile(fileName)] == NpyVolume4(r.value)
    ensures r.Err? ==> r.exception in {FileNotFoundError, ValueError}
    ensures disk.Valid() && r.Ok? ==> r.value.Valid()
  {
    var p := ChosenFile(fileName);
    if !disk.IsFile(p) then Err(FileNotFoundError)
    else if !disk.files[p].NpyVolume4? then Err(ValueError)
    else Ok(disk.files[p].w)
  }

  /** The default file already ends in ".npy", so `np.save` writes it under that very name. */
  lemma DefaultIsNpy()
    ensures NpyName(DEFAULT_CLASS_MEANS_FILE) == DEFAULT_CLASS_MEANS_FILE
  {
    var s := DEFAULT_CLASS_MEANS_FILE;
    assert s[|s| - 4..] == ".npy";
  }

  /** An array saved under a ".npy" name is what loading that name gives back. */
  lemma SavedMeansReload(disk: Disk, p: string, w: Volume4)
    requires p != "" && EndsWith(p, ".npy")
    ensures FromFile(Save(disk, p, NpyVolume4(w)), Some(p)) == Ok(w)
  {
  }

  /**
   * Saving under a name without ".npy" writes `name.npy`, while loading reads
   * `name` itself: the array saved cannot be read back under the name given.
   */
  lemma SavedUnderOtherName(disk: Disk, p: string, w: Volume4)
    requires p != "" && !EndsWith(p, ".npy") && !disk.IsFile(p)
    ensures FromFile(Save(disk, p, NpyVolume4(w)), Some(p)) == Err(FileNotFoundError)
  {
    assert NpyName(p) != p;
  }

  // ------------------------------------------------------------ class means on the template

  /**
   * `get_class_mean_over_aal(c)` without a kept volume: every voxel labelled
   * `i + 1`, for each region i, gets the mean of region i in class `c`
   * (negative `c` counting from the end), every other voxel 0. The class is
   * only indexed when there is at least one region, so a class out of range
   * raises `IndexError` only then.
   */
  function AalClassMean(t: Template, m: Matrix, c: int): (r: Result<Volume>)
    requires t.Valid() && m.Valid()
    ensures r.Err? <==> m.rows > 0 && PyIndex(c, m.cols).None?
    ensures r.Err? ==> r.exception == IndexError
    ensures r.Ok? ==> r.value.Valid() && r.value.nx == t.nx && r.value.ny == t.ny && r.value.nz == t.nz
  {
    match PyIndex(c, m.cols)
    case Some(k) => Ok(ClassProbabilityMap(t, m, k))
    case None => if m.rows > 0 then Err(IndexError) else Ok(ProjectVolume(t, map[]))
  }

  /** Voxel by voxel: label i + 1 carries region i's mean of the class, any other label 0. */
  lemma AalClassMeanVoxel(t: Template, m: Matrix, c: nat, a: nat, b: nat, d: nat)
    requires t.Valid() && m.Valid() && c < m.cols
    requires a < t.nx && b < t.ny && d < t.nz
    ensures Offset(a, b, d, t.ny, t.nz) < |t.labels|
    ensures var lab := t.labels[Offset(a, b, d, t.ny, t.nz)];
      && AalClassMean(t, m, c).Ok?
      && (1 <= lab <= m.rows ==> AalClassMean(t, m, c).value.at[a][b][d] == m.at[lab - 1][c])
      && (!(1 <= lab <= m.rows) ==> AalClassMean(t, m, c).value.at[a][b][d] == 0.0)
  {
    ClassMapVoxel(t, m, c, a, b, d);
  }

  /** With no regions nothing is painted: every voxel of the class mean is 0. */
  lemma NoRegionsAllZero(t: Template, m: Matrix, c: int, a: nat, b: nat, d: nat)
    requires t.Valid() && m.Valid() && m.rows == 0
    requires a < t.nx && b < t.ny && d < t.nz
    ensures AalClassMean(t, m, c).Ok? && AalClassMean(t, m, c).value.at[a][b][d] == 0.0
  {
    ProjectVolumeAt(t, map[], a, b, d);
    if PyIndex(c, m.cols).Some? {
      var k := PyIndex(c, m.cols).value;
      var dict := RegionProbabilityDict(m, k);
      assert dict == map[] by { assert dict.Keys == {}; }
    }
  }

  /** `get_all_class_means_over_aal` without a kept volume: the class means of classes 0 .. n-1, stacked. */
  function AllClassMeans(t: Template, m: Matrix): (w: Volume4)
    requires t.Valid() && m.Valid()
    ensures w.Valid() && w.nx == t.nx && w.ny == t.ny && w.nz == t.nz && w.nc == m.cols
  {
    StackVolumes(seq(m.cols, c requires 0 <= c < m.cols => ClassProbabilityMap(t, m, c)), t.nx, t.ny, t.nz)
  }

  /** Class c of the stacked volume is the class mean of class c: the stack keeps class order. */
  lemma AllClassMeansInOrder(t: Template, m: Matrix, c: nat)
    requires t.Valid() && m.Valid() && c < m.cols
    ensures ClassVolume(AllClassMeans(t, m), c) == AalClassMean(t, m, c).value
  {
    ClassOfStack(seq(m.cols, k requires 0 <= k < m.cols => ClassProbabilityMap(t, m, k)), t.nx, t.ny, t.nz, c);
  }

  /** `kept[:, :, :, c]`: the class c of a kept volume, negative c counting from the end. */
  function KeptClass(w: Volume4, c: int): (r: Result<Volume>)
    requires w.Valid()
    ensures PyIndex(c, w.nc).None? <==> r.Err?
    ensures r.Err? ==> r.exception == IndexError
    ensures r.Ok? ==> r.value == ClassVolume(w, PyIndex(c, w.nc).value)
  {
    match PyIndex(c, w.nc)
    case None => Err(IndexError)
    case Some(k) => Ok(ClassVolume(w, k))
  }

  /** The kept volume's class n-1 .. 0 stacked again: each class read from the kept volume. */
  function KeptClasses(w: Volume4, n: nat): (r: Result<Volume4>)
    requires w.Valid()
    ensures r.Ok? <==> 0 < n <= w.nc
    ensures r.Ok? ==> r.value.Valid() && r.value.nc == n && r.value.nx == w.nx && r.value.ny == w.ny && r.value.nz == w.nz
    ensures r.Ok? ==> forall c :: 0 <= c < n ==> ClassVolume(r.value, c) == ClassVolume(w, c)
  {
    if n == 0 then Err(ValueError)
    else if n > w.nc then Err(IndexError)
    else
      var vs := seq(n, c requires 0 <= c < n => ClassVolume(w, c));
      var s := StackVolumes(vs, w.nx, w.ny, w.nz);
      assert forall c :: 0 <= c < n ==> ClassVolume(s, c) == ClassVolume(w, c) by {
        forall c | 0 <= c < n ensures ClassVolume(s, c) == ClassVolume(w, c) {
          ClassOfStack(vs, w.nx, w.ny, w.nz, c);
        }
      }
      Ok(s)
  }

  // ------------------------------------------------------------ the truth test on the kept volume

  /** `bool(array)`: false for no element, the element's truth for one, `ValueError` for more. */
  function Volume4Truth(w: Volume4): (r: Result<bool>)
    requires w.Valid()
    ensures w.nx * w.ny * w.nz * w.nc >= 2 ==> r == Err(ValueError)
    ensures w.nx * w.ny * w.nz * w.nc == 0 ==> r == Ok(false)
  {
    if w.nx * w.ny * w.nz * w.nc == 0 then Ok(false)
    else if w.nx == 1 && w.ny == 1 && w.nz == 1 && w.nc == 1 then Ok(w.at[0][0][0][0] != 0.0)
    else Err(ValueError)
  }

  /** `if self._all_class_means_over_aal:` as written, on the kept volume (`None` when not yet kept). */
  function UsesKeptAsWritten(kept: Option<Volume4>): (r: Result<bool>)
    requires kept.Some? ==> kept.value.Valid()
    ensures kept.None? ==> r == Ok(false)
  {
    if kept.None? then Ok(false) else Volume4Truth(kept.value)
  }

  /** As written, once a real volume (two voxels or more) is kept, asking for a class mean raises. */
  lemma KeptVolumeRejected(w: Volume4)
    requires w.Valid() && w.nx * w.ny * w.nz * w.nc >= 2
    ensures UsesKeptAsWritten(Some(w)) == Err(ValueError)
  {
  }

  /** As intended (`is not None`): the kept volume is used whenever there is one. */
  function UsesKept(kept: Option<Volume4>): (r: bool)
    ensures r <==> kept.Some?
  {
    kept.Some?
  }

  /**
   * With the intended test, the kept volume answers every class of the
   * cohort exactly as recomputing it would.
   */
  lemma KeptAgreesWithComputed(t: Template, m: Matrix, c: nat)
    requires t.Valid() && m.Valid() && c < m.cols
    ensures UsesKept(Some(AllClassMeans(t, m)))
    ensures KeptClass(AllClassMeans(t, m), c) == AalClassMean(t, m, c)
  {
    AllClassMeansInOrder(t, m, c);
  }

  // ------------------------------------------------------------ the analysis object

  class CorticalLayersAnalysis {
    /** regions x classes x subjects. */
    const data: Volume
    /** The AAL template (`aal_1000`), given rather than read from its NIfTI file. */
    const aal: Template
    var subjectsMean: Option<Matrix>
    var allClassMeans: Option<Volume4>

    predicate Valid()
      reads this
    {
      && data.Valid() && data.nz > 0 && aal.Valid()
      && (subjectsMean.Some? ==> subjectsMean.value == MeanLast(data))
      && (allClassMeans.Some? ==> allClassMeans.value.Valid())
    }

    /** `n_regions`: the length of the region axis. */
    function NRegions(): nat
    {
      data.nx
    }

    /** `n_classes`: the length of the class axis. */
    function NClasses(): nat
    {
      data.ny
    }

    /** `__init__(data)`: nothing is computed yet. */
    constructor (data: Volume, aal: Template)
      requires data.Valid() && data.nz > 0 && aal.Valid()
      ensures Valid()
      ensures this.data == data && this.aal == aal && subjectsMean.None? && allClassMeans.None?
    {
      this.data := data;
      this.aal := aal;
      subjectsMean := None;
      allClassMeans := None;
    }

    /** `get_mean_across_subjects`: each region and class averaged over the subjects. */
    function MeanAcrossSubjects(): (m: Matrix)
      reads this
      requires Valid()
      ensures m.Valid() && m.rows == NRegions() && m.cols == NClasses()
      ensures forall r, c :: 0 <= r < NRegions() && 0 <= c < NClasses() ==> m.at[r][c] == Mean(data.at[r][c])
    {
      MeanLast(data)
    }

    /** `subjects_mean`: the mean over subjects, computed on first use and then kept. */
    method SubjectsMean() returns (m: Matrix)
      requires Valid()
      modifies this
      ensures Valid()
      ensures m == MeanAcrossSubjects() && subjectsMean == Some(m)
      ensures allClassMeans == old(allClassMeans)
    {
      if subjectsMean.None? {
        subjectsMean := Some(MeanLast(data));
      }
      m := subjectsMean.value;
    }

    /**
     * `get_class_mean_over_aal(c)`, with the intended test on the kept
     * volume: its class `c` when there is one; otherwise a zero volume of
     * the template's shape in which, region after region, the voxels
     * labelled `i + 1` are set to the mean of region i in class `c`.
     */
    method GetClassMeanOverAal(c: int) returns (r: Result<Volume>)
      requires Valid()
      modifies this
      ensures Valid()
      ensures old(allClassMeans).Some? ==> r == KeptClass(old(allClassMeans).value, c)
      ensures old(allClassMeans).None? ==> r == AalClassMean(aal, MeanAcrossSubjects(), c)
      ensures subjectsMean == if old(allClassMeans).None? && NRegions() > 0 then Some(MeanAcrossSubjects()) else old(subjectsMean)
      ensures allClassMeans == old(allClassMeans)
    {
      if UsesKept(allClassMeans) {
        return KeptClass(allClassMeans.value, c);
      }
      ghost var mean := MeanLast(data);
      ghost var k := PyIndex(c, data.ny);
      var linear := aal.labels;
      var out := new real[|linear|](_ => 0.0);
      var i := 0;
      while i < data.nx
        invariant 0 <= i <= data.nx && Valid() && allClassMeans == old(allClassMeans)
        invariant i > 0 ==> k.Some? && subjectsMean == Some(mean)
        invariant i == 0 ==> subjectsMean == old(subjectsMean)
        invariant forall q :: 0 <= q < out.Length ==>
          out[q] == if 1 <= linear[q] <= i then mean.at[linear[q] - 1][k.value] else 0.0
      {
        var m := SubjectsMean();
        var col := PyIndex(c, m.cols);
        if col.None? {
          return Err(IndexError);
        }
        FillLabel(out, linear, i + 1, m.at[i][col.value]);
        i := i + 1;
      }
      if k.Some? {
        assert out[..] == Projection(linear, RegionProbabilityDict(mean, k.value));
      } else {
        assert out[..] == Projection(linear, map[]);
      }
      r := Ok(Reshape(out[..], aal.nx, aal.ny, aal.nz));
    }

    /**
     * `get_all_class_means_over_aal`: the class means of classes
     * 0 .. n_classes-1 stacked along a last axis; `np.stack` of no class
     * raises `ValueError`.
     */
    method GetAllClassMeansOverAal() returns (r: Result<Volume4>)
      requires Valid()
      modifies this
      ensures Valid()
      ensures old(allClassMeans).None? && NClasses() == 0 ==> r == Err(ValueError)
      ensures old(allClassMeans).None? && NClasses() > 0 ==> r == Ok(AllClassMeans(aal, MeanAcrossSubjects()))
      ensures old(allClassMeans).Some? ==> r == KeptClasses(old(allClassMeans).value, NClasses())
      ensures subjectsMean == if old(allClassMeans).None? && NRegions() > 0 && NClasses() > 0
        then Some(MeanAcrossSubjects()) else old(subjectsMean)
      ensures allClassMeans == old(allClassMeans)
    {
      var n := data.ny;
      if allClassMeans.Some? && n > allClassMeans.value.nc {
        return Err(IndexError);
      }
      var vs: seq<Volume> := [];
      var i := 0;
      while i < n
        invariant 0 <= i <= n && Valid() && allClassMeans == old(allClassMeans)
        invariant subjectsMean == if old(allClassMeans).None? && data.nx > 0 && i > 0 then Some(MeanLast(data)) else old(subjectsMean)
        invariant |vs| == i
        invariant old(allClassMeans).None? ==> forall q :: 0 <= q < i ==> vs[q] == ClassProbabilityMap(aal, MeanLast(data), q)
        invariant old(allClassMeans).Some? ==> n <= old(allClassMeans).value.nc
        invariant old(allClassMeans).Some? ==> forall q :: 0 <= q < i ==> vs[q] == ClassVolume(old(allClassMeans).value, q)
      {
        var v := GetClassMeanOverAal(i);
        vs := vs + [v.value];
        i := i + 1;
      }
      if n == 0 {
        return Err(ValueError);
      }
      assert MeanAcrossSubjects() == MeanLast(data);
      if allClassMeans.Some? {
        var w := allClassMeans.value;
        assert vs == seq(n, c requires 0 <= c < n => ClassVolume(w, c));
        r := Ok(StackVolumes(vs, w.nx, w.ny, w.nz));
      } else {
        var mean := MeanLast(data);
        assert vs == seq(mean.cols, c requires 0 <= c < mean.cols => ClassProbabilityMap(aal, mean, c));
        r := Ok(StackVolumes(vs, aal.nx, aal.ny, aal.nz));
        assert r.value == AllClassMeans(aal, mean);
      }
    }

    /**
     * `all_class_means_over_aal`: the kept volume; otherwise the default
     * file's volume when that file exists, else the computed one, which is
     * then saved to the default file. Whatever is obtained is kept.
     */
    method AllClassMeansOverAal(disk: Disk) returns (d: Disk, r: Result<Volume4>)
      requires Valid() && disk.Valid()
      modifies this
      ensures Valid() && d.Valid()
      ensures old(allClassMeans).Some? ==> d == disk && r == Ok(old(allClassMeans).value)
      ensures old(allClassMeans).None? && disk.IsFile(DEFAULT_CLASS_MEANS_FILE) ==>
        d == disk && r == FromFile(disk, None)
      ensures old(allClassMeans).None? && !disk.IsFile(DEFAULT_CLASS_MEANS_FILE) ==>
        && (NClasses() == 0 ==> d == disk && r == Err(ValueError))
        && (NClasses() > 0 ==>
              r == Ok(AllClassMeans(aal, MeanAcrossSubjects())) && d == Save(disk, DEFAULT_CLASS_MEANS_FILE, NpyVolume4(r.value)))
      ensures allClassMeans == if r.Ok? then Some(r.value) else old(allClassMeans)
    {
      if allClassMeans.Some? {
        return disk, Ok(allClassMeans.value);
      }
      d := disk;
      if disk.IsFile(DEFAULT_CLASS_MEANS_FILE) {
        r := FromFile(disk, None);
        if r.Ok? {
          allClassMeans := Some(r.value);
        }
        return;
      }
      r := GetAllClassMeansOverAal();
      if r.Ok? {
        allClassMeans := Some(r.value);
        // `save_all_class_means_over_aal()`: the property it reads now returns the kept volume.
        d := Save(disk, DEFAULT_CLASS_MEANS_FILE, NpyVolume4(r.value));
      }
    }

    /** `save_all_class_means_over_aal(file_name)`: `np.save` of the volume the property gives. */
    method SaveAllClassMeansOverAal(disk: Disk, fileName: Option<string>) returns (d: Disk, err: Option<Exception>)
      requires Valid() && disk.Valid()
      modifies this
      ensures Valid() && d.Valid()
      ensures err.None? <==> allClassMeans.Some?
      ensures err.None? ==>
        d.IsFile(NpyName(ChosenFile(fileName))) && d.files[NpyName(ChosenFile(fileName))] == NpyVolume4(allClassMeans.value)
      ensures old(allClassMeans).Some? ==>
        err.None? && allClassMeans == old(allClassMeans) && d == Save(disk, ChosenFile(fileName), NpyVolume4(allClassMeans.value))
      ensures old(allClassMeans).None? && disk.IsFile(DEFAULT_CLASS_MEANS_FILE) && FromFile(disk, None).Err? ==>
        err == Some(FromFile(disk, None).exception) && d == disk && allClassMeans.None?
      ensures old(allClassMeans).None? && disk.IsFile(DEFAULT_CLASS_MEANS_FILE) && FromFile(disk, None).Ok? ==>
        err.None? && allClassMeans == Some(FromFile(disk, None).value)
        && d == Save(disk, ChosenFile(fileName), NpyVolume4(FromFile(disk, None).value))
      ensures old(allClassMeans).None? && !disk.IsFile(DEFAULT_CLASS_MEANS_FILE) && NClasses() == 0 ==>
        err == Some(ValueError) && d == disk && allClassMeans.None?
      ensures old(allClassMeans).None? && !disk.IsFile(DEFAULT_CLASS_MEANS_FILE) && NClasses() > 0 ==>
        var v := AllClassMeans(aal, MeanAcrossSubjects());
        err.None? && allClassMeans == Some(v)
        && d == Save(Save(disk, DEFAULT_CLASS_MEANS_FILE, NpyVolume4(v)), ChosenFile(fileName), NpyVolume4(v))
    {
      var r;
      d, r := AllClassMeansOverAal(disk);
      if r.Err? {
        return d, Some(r.exception);
      }
      d := Save(d, ChosenFile(fileName), NpyVolume4(r.value));
      err := None;
    }
  }

  /**
   * What is saved to the default file is read back by the next analysis:
   * a fresh object over the saved disk gets the same volume from the file.
   */
  lemma ComputedMeansPersist(disk: Disk, t: Template, m: Matrix)
    requires t.Valid() && m.Valid()
    ensures var d := Save(disk, DEFAULT_CLASS_MEANS_FILE, NpyVolume4(AllClassMeans(t, m)));
      d.IsFile(DEFAULT_CLASS_MEANS_FILE) && FromFile(d, None) == Ok(AllClassMeans(t, m))
  {
    DefaultIsNpy();
  }
}
