/**
 * The probability-by-region matrix of `cortical_layers/helpers/cortical_layers`:
 * a regions x classes matrix read from a MATLAB or numpy file (or given as an
 * array), validated on the class axis, projected class by class onto the atlas
 * and saved as one class map file per class.
 */
module LayersPbr {
  import opened Wrappers
  import opened Grids
  import opened Templates
  import opened Text
  import opened FileSystem
  import opened ClassMaps
  import HelperAtlas

  /** `check_n_classes`: the class axis (axis 1) holds exactly N_CLASSES entries. */
  predicate CheckNClasses(m: Matrix)
  {
    m.cols == N_CLASSES
  }

  /** `check_n_regions`: the region axis (axis 0) matches the atlas; a mismatch only prints a warning. */
  predicate CheckNRegions(m: Matrix, atlasRegions: nat)
  {
    m.rows == atlasRegions
  }

  /**
   * `validate_data`: a wrong class count fails the assertion; a region count
   * that disagrees with the atlas does not affect the outcome.
   */
  function ValidateData(m: Matrix, atlasRegions: nat): (r: Result<bool>)
    ensures r.Ok? <==> m.cols == N_CLASSES
    ensures r.Ok? ==> r.value
    ensures r.Err? ==> r.exception == AssertionError
  {
    if !CheckNClasses(m) then Err(AssertionError) else Ok(true)
  }

  /** `subject_id`: the base name of the path up to its first '.', or "" without a path. */
  function SubjectIdOf(path: string): (id: string)
    ensures '.' !in id
    ensures path == "" ==> id == ""
  {
    if path == "" then "" else Split(Basename(path), '.')[0]
  }

  /** A results file named `<id>.<ext>` in any directory yields `<id>` as the subject id. */
  lemma SubjectIdOfJoin(dir: string, id: string, ext: string)
    requires '/' !in id && '.' !in id && '/' !in ext
    ensures SubjectIdOf(PathJoin(dir, id + "." + ext)) == id
  {
    var name := id + "." + ext;
    assert '/' !in name;
    BasenameOfJoin(dir, name);
    assert name == id + ['.'] + ext;
    SplitAround(id, '.', ext);
    SplitNoSep(id, '.');
  }

  /** A base name without a '.' is the subject id as it stands. */
  lemma SubjectIdOfPlainName(path: string)
    requires path != "" && '.' !in Basename(path)
    ensures SubjectIdOf(path) == Basename(path)
  {
    SplitNoSep(Basename(path), '.');
  }

  /** The class maps of a matrix, in class order, as saved arrays. */
  function ClassMapContents(t: Template, m: Matrix): (cs: seq<Content>)
    requires t.Valid() && m.Valid()
    ensures |cs| == m.cols
    ensures forall i :: 0 <= i < m.cols ==> cs[i] == NpyVolume(ClassProbabilityMap(t, m, i))
  {
    seq(m.cols, i requires 0 <= i < m.cols => NpyVolume(ClassProbabilityMap(t, m, i)))
  }

  /**
   * The outcome of `read_from_file(p)` on an object holding `data` and
   * `path`: the exception raised (if any), then the data and the path
   * afterwards. The path changes exactly when nothing is raised, and the
   * data only ever changes to a matrix with N_CLASSES columns.
   */
  function ReadOutcome(disk: Disk, p: string, data: Option<Matrix>, path: string): (o: (Option<Exception>, Option<Matrix>, string))
    requires disk.Valid()
    ensures o.0.None? ==> disk.IsFile(p) && o.2 == p
    ensures o.0.Some? ==> o.2 == path
    ensures o.1 != data ==> o.1.Some? && o.1.value.Valid() && CheckNClasses(o.1.value)
    ensures EndsWith(p, ".mat") ==>
      (o.0.None? <==> LoadMat(disk, p, MAT_DATA_KEY).Ok? && CheckNClasses(LoadMat(disk, p, MAT_DATA_KEY).value))
    ensures !EndsWith(p, ".mat") && EndsWith(p, ".npy") ==>
      (o.0.None? <==> disk.IsFile(p) && disk.files[p].NpyMatrix? && CheckNClasses(disk.files[p].m))
    ensures !EndsWith(p, ".mat") && !EndsWith(p, ".npy") ==>
      o.1 == data && (o.0.None? <==> disk.IsFile(p))
  {
    var setPath := (d: Option<Matrix>) => if disk.IsFile(p) then (None, d, p) else (Some(FileNotFoundError), d, path);
    if EndsWith(p, ".mat") then
      match LoadMat(disk, p, MAT_DATA_KEY)
      case Err(e) => (Some(e), data, path)
      case Ok(m) => if CheckNClasses(m) then setPath(Some(m)) else (Some(AssertionError), data, path)
    else if EndsWith(p, ".npy") then
      match Load(disk, p)
      case Err(e) => (Some(e), data, path)
      case Ok(c) =>
        if !c.NpyMatrix? then (Some(ValueError), data, path)
        else if CheckNClasses(c.m) then setPath(Some(c.m))
        else (Some(AssertionError), data, path)
    else setPath(data)
  }

  class ProbabilityByRegionMatrix {
    var data: Option<Matrix>
    var path: string
    const atlas: HelperAtlas.BrainAtlas

    predicate Valid()
      reads this
    {
      atlas.Valid() && (data.Some? ==> data.value.Valid() && CheckNClasses(data.value))
    }

    /** The object before `load_data` runs: no data, no path. */
    constructor Blank(atlas: HelperAtlas.BrainAtlas)
      requires atlas.Valid()
      ensures Valid() && this.atlas == atlas && data == None && path == ""
    {
      this.atlas := atlas;
      data := None;
      path := "";
    }

    /** `__init__`: a fresh matrix loaded by `load_data`, or the exception it raises. */
    static method Create(disk: Disk, fromFile: Option<string>, fromArray: Option<Matrix>, atlas: HelperAtlas.BrainAtlas)
      returns (r: Result<ProbabilityByRegionMatrix>)
      requires disk.Valid() && atlas.Valid() && (fromArray.Some? ==> fromArray.value.Valid())
      ensures r.Ok? ==> fresh(r.value) && r.value.Valid() && r.value.atlas == atlas
      ensures fromFile.Some? && disk.IsFile(fromFile.value) ==>
        var o := ReadOutcome(disk, fromFile.value, None, "");
        (r.Ok? <==> o.0.None?) &&
        (r.Ok? ==> r.value.data == o.1 && r.value.path == o.2) &&
        (r.Err? ==> r.exception == o.0.value)
      ensures !(fromFile.Some? && disk.IsFile(fromFile.value)) && fromArray.None? ==> r == Err(ValueError)
      ensures !(fromFile.Some? && disk.IsFile(fromFile.value)) && fromArray.Some? ==>
        (r.Ok? <==> CheckNClasses(fromArray.value)) &&
        (r.Ok? ==> r.value.data == fromArray && r.value.path == "") &&
        (r.Err? ==> r.exception == AssertionError)
    {
      var pbr := new ProbabilityByRegionMatrix.Blank(atlas);
      var err := pbr.LoadData(disk, fromFile, fromArray);
      if err.Some? {
        r := Err(err.value);
      } else {
        r := Ok(pbr);
      }
    }

    /**
     * `load_data`: an existing file is read, otherwise an array is taken,
     * otherwise the input is a ValueError.
     */
    method LoadData(disk: Disk, fromFile: Option<string>, fromArray: Option<Matrix>) returns (err: Option<Exception>)
      requires Valid() && disk.Valid() && (fromArray.Some? ==> fromArray.value.Valid())
      modifies this
      ensures Valid()
      ensures fromFile.Some? && disk.IsFile(fromFile.value) ==>
        (err, data, path) == ReadOutcome(disk, fromFile.value, old(data), old(path))
      ensures !(fromFile.Some? && disk.IsFile(fromFile.value)) && fromArray.None? ==>
        err == Some(ValueError) && data == old(data) && path == old(path)
      ensures !(fromFile.Some? && disk.IsFile(fromFile.value)) && fromArray.Some? ==>
        path == old(path) &&
        (if CheckNClasses(fromArray.value) then err.None? && data == fromArray
         else err == Some(AssertionError) && data == old(data))
    {
      if fromFile.Some? && disk.IsFile(fromFile.value) {
        err := ReadFromFile(disk, fromFile.value);
      } else if fromArray.Some? {
        err := SetData(fromArray.value);
      } else {
        err := Some(ValueError);
      }
    }

    /**
     * `read_from_file`: a ".mat" file's `results` variable or a ".npy" file's
     * array becomes the data (through the validating setter); any other name
     * loads nothing. The path is then set, which requires an existing file.
     */
    method ReadFromFile(disk: Disk, p: string) returns (err: Option<Exception>)
      requires Valid() && disk.Valid()
      modifies this
      ensures Valid()
      ensures EndsWith(p, ".mat") && LoadMat(disk, p, MAT_DATA_KEY).Err? ==>
        err == Some(LoadMat(disk, p, MAT_DATA_KEY).exception) && data == old(data) && path == old(path)
      ensures EndsWith(p, ".mat") && LoadMat(disk, p, MAT_DATA_KEY).Ok? && !CheckNClasses(LoadMat(disk, p, MAT_DATA_KEY).value) ==>
        err == Some(AssertionError) && data == old(data) && path == old(path)
      ensures EndsWith(p, ".mat") && LoadMat(disk, p, MAT_DATA_KEY).Ok? && CheckNClasses(LoadMat(disk, p, MAT_DATA_KEY).value) ==>
        data == Some(LoadMat(disk, p, MAT_DATA_KEY).value) &&
        (if disk.IsFile(p) then err.None? && path == p else err == Some(FileNotFoundError) && path == old(path))
      ensures !EndsWith(p, ".mat") && EndsWith(p, ".npy") && disk.IsFile(p) && disk.files[p].NpyMatrix? ==>
        (if CheckNClasses(disk.files[p].m) then err.None? && data == Some(disk.files[p].m) && path == p
         else err == Some(AssertionError) && data == old(data) && path == old(path))
      ensures !EndsWith(p, ".mat") && EndsWith(p, ".npy") && !(disk.IsFile(p) && disk.files[p].NpyMatrix?) ==>
        err.Some? && data == old(data) && path == old(path)
      ensures err.None? ==> path == p
      ensures (err, data, path) == ReadOutcome(disk, p, old(data), old(path))
      ensures !EndsWith(p, ".mat") && !EndsWith(p, ".npy") ==>
        data == old(data) &&
        (if disk.IsFile(p) then err.None? && path == p else err == Some(FileNotFoundError) && path == old(path))
    {
      if EndsWith(p, ".mat") {
        var loaded := LoadMat(disk, p, MAT_DATA_KEY);
        if loaded.Err? {
          return Some(loaded.exception);
        }
        err := SetData(loaded.value);
        if err.Some? {
          return;
        }
      } else if EndsWith(p, ".npy") {
        var loaded := Load(disk, p);
        if loaded.Err? {
          return Some(loaded.exception);
        }
        if !loaded.value.NpyMatrix? {
          return Some(ValueError);
        }
        err := SetData(loaded.value.m);
        if err.Some? {
          return;
        }
      }
      err := SetPath(disk, p);
    }

    /** The `data` setter: stored only when `validate_data` passes. */
    method SetData(m: Matrix) returns (err: Option<Exception>)
      requires Valid() && m.Valid()
      modifies this
      ensures Valid() && path == old(path)
      ensures CheckNClasses(m) ==> err.None? && data == Some(m)
      ensures !CheckNClasses(m) ==> err == Some(AssertionError) && data == old(data)
    {
      var v := ValidateData(m, atlas.nRegions);
      if v.Err? {
        return Some(v.exception);
      }
      data := Some(m);
      err := None;
    }

    /** The `path` setter: only an existing file may become the data path. */
    method SetPath(disk: Disk, value: string) returns (err: Option<Exception>)
      requires Valid()
      modifies this
      ensures Valid() && data == old(data)
      ensures disk.IsFile(value) ==> err.None? && path == value
      ensures !disk.IsFile(value) ==> err == Some(FileNotFoundError) && path == old(path)
    {
      if disk.IsFile(value) {
        path := value;
        err := None;
      } else {
        err := Some(FileNotFoundError);
      }
    }

    /** `subject_id` of this matrix's path. */
    function SubjectId(): (id: string)
      reads this
      ensures path == "" ==> id == ""
      ensures '.' !in id
    {
      SubjectIdOf(path)
    }

    /** `n_regions`: the data's row count (no data is an AttributeError on `None.shape`). */
    function NRegions(): (r: Result<nat>)
      reads this
      ensures r.Ok? <==> data.Some?
      ensures r.Ok? ==> r.value == data.value.rows
      ensures r.Err? ==> r.exception == AttributeError
    {
      if data.None? then Err(AttributeError) else Ok(data.value.rows)
    }

    /**
     * `get_region_probability_dict(class_idx)`: the 1-based dictionary of one
     * class column; a class index outside the columns is an IndexError, no
     * data a TypeError.
     */
    function GetRegionProbabilityDict(c: int): (r: Result<map<int, real>>)
      requires Valid()
      reads this
      ensures data.None? ==> r == Err(TypeError)
      ensures data.Some? && !(-(N_CLASSES as int) <= c < N_CLASSES) ==> r == Err(IndexError)
      ensures data.Some? && 0 <= c < N_CLASSES ==> r == Ok(RegionProbabilityDict(data.value, c))
      ensures data.Some? && -(N_CLASSES as int) <= c < 0 ==> r == Ok(RegionProbabilityDict(data.value, c + N_CLASSES))
    {
      if data.None? then Err(TypeError)
      else
        match PyIndex(c, data.value.cols)
        case None => Err(IndexError)
        case Some(k) => Ok(RegionProbabilityDict(data.value, k))
    }

    /** `create_class_probability_map(class_idx)`: the atlas conversion of that dictionary. */
    method CreateClassProbabilityMap(c: int) returns (r: Result<Volume>)
      requires Valid()
      ensures GetRegionProbabilityDict(c).Err? ==> r == Err(GetRegionProbabilityDict(c).exception)
      ensures GetRegionProbabilityDict(c).Ok? ==> r == Ok(ProjectVolume(atlas.template, GetRegionProbabilityDict(c).value))
      ensures data.Some? && 0 <= c < N_CLASSES ==> r == Ok(ClassProbabilityMap(atlas.template, data.value, c))
    {
      var d := GetRegionProbabilityDict(c);
      if d.Err? {
        return Err(d.exception);
      }
      var v := atlas.ConvertFromDict(d.value);
      r := Ok(v);
    }

    /**
     * `save_all_class_probability_maps(dir)`: every class map saved into an
     * existing directory; anything else is a NotADirectoryError.
     */
    method SaveAllClassProbabilityMaps(disk: Disk, dir: string) returns (d: Disk, err: Option<Exception>)
      requires Valid()
      ensures !disk.IsDir(dir) ==> err == Some(NotADirectoryError) && d == disk
      ensures disk.IsDir(dir) && data.None? ==> err == Some(TypeError) && d == disk
      ensures disk.IsDir(dir) && data.Some? ==>
        err.None? && d == SavedMaps(disk, dir, atlas.name, ClassMapContents(atlas.template, data.value))
    {
      if !disk.IsDir(dir) {
        return disk, Some(NotADirectoryError);
      }
      d := disk;
      var i := 0;
      while i < N_CLASSES
        invariant 0 <= i <= N_CLASSES
        invariant data.Some? ==> d == SavedMaps(disk, dir, atlas.name, ClassMapContents(atlas.template, data.value)[..i])
        invariant data.None? ==> i == 0 && d == disk
      {
        var filePath := PathJoin(dir, ClassFileName(i, atlas.name));
        var classMap := CreateClassProbabilityMap(i);
        if classMap.Err? {
          return d, Some(classMap.exception);
        }
        SavedMapsNext(disk, dir, atlas.name, ClassMapContents(atlas.template, data.value), i);
        d := Save(d, filePath, NpyVolume(classMap.value));
        i := i + 1;
      }
      assert data.Some? ==> ClassMapContents(atlas.template, data.value)[..i] == ClassMapContents(atlas.template, data.value);
      err := None;
    }
  }
}
