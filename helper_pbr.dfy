/**
 * The probability-by-region matrix of `cortical_layers/helpers`: the same
 * regions x classes data as the layers revision, read from a MATLAB file or
 * taken from an array, checked on the class axis only, and projected onto the
 * AAL atlas class by class.
 */
module HelperPbr {
  import opened Wrappers
  import opened Grids
  import opened Templates
  import opened FileSystem
  import opened ClassMaps
  import HelperAtlas
  import LayersPbr

  /** `validate_data`: the class axis must hold N_CLASSES entries, or the assertion fails. */
  function ValidateData(m: Matrix): (r: Result<bool>)
    ensures r.Ok? <==> m.cols == N_CLASSES
    ensures r.Ok? ==> r.value
    ensures r.Err? ==> r.exception == AssertionError
  {
    if m.cols != N_CLASSES then Err(AssertionError) else Ok(true)
  }

  /** Both revisions accept exactly the same matrices, whatever the atlas's region count. */
  lemma SameValidation(m: Matrix, atlasRegions: nat)
    ensures ValidateData(m) == LayersPbr.ValidateData(m, atlasRegions)
  {
  }

  /** Where `__init__` takes its data from. */
  datatype InitSource = FromFile(path: string) | FromArray(m: Matrix) | NoInput

  /** Python's truth value of an array: empty is false, one element is its value, more is a ValueError. */
  function ArrayTruth(m: Matrix): (r: Result<bool>)
    requires m.Valid()
    ensures r.Err? <==> m.rows * m.cols > 1
    ensures r.Err? ==> r.exception == ValueError
  {
    if m.rows == 0 || m.cols == 0 then Ok(false)
    else if m.rows == 1 && m.cols == 1 then Ok(m.at[0][0] != 0.0)
    else
      assert m.rows * m.cols > 1 by {
        assert m.rows >= 1 && m.cols >= 1;
        assert m.rows >= 2 || m.cols >= 2;
        if m.rows >= 2 { assert m.rows * m.cols >= 2 * m.cols; } else { assert m.rows * m.cols == m.cols; }
      }
      Err(ValueError)
  }

  /**
   * `__init__` as written: `if from_file:` then `elif from_array:`, the
   * second a truth test on the array itself.
   */
  function InitSourceAsWritten(fromFile: Option<string>, fromArray: Option<Matrix>): (r: Result<InitSource>)
    requires fromArray.Some? ==> fromArray.value.Valid()
    ensures fromFile.Some? && fromFile.value != "" ==> r == Ok(FromFile(fromFile.value))
  {
    if fromFile.Some? && fromFile.value != "" then Ok(FromFile(fromFile.value))
    else if fromArray.None? then Ok(NoInput)
    else
      match ArrayTruth(fromArray.value)
      case Err(e) => Err(e)
      case Ok(truth) => if truth then Ok(FromArray(fromArray.value)) else Ok(NoInput)
  }

  /** As written, any array that could pass validation is rejected before it is looked at. */
  lemma {:induction false} ArrayInputRejected(m: Matrix)
    requires m.Valid() && m.cols == N_CLASSES && m.rows >= 1
    ensures InitSourceAsWritten(None, Some(m)) == Err(ValueError)
  {
    assert m.rows * m.cols >= m.cols;
  }

  /** `__init__` as intended: an array given is used (`from_array is not None`). */
  function InitSourceOf(fromFile: Option<string>, fromArray: Option<Matrix>): (r: InitSource)
    ensures fromFile.Some? && fromFile.value != "" ==> r == FromFile(fromFile.value)
    ensures !(fromFile.Some? && fromFile.value != "") && fromArray.Some? ==> r == FromArray(fromArray.value)
    ensures !(fromFile.Some? && fromFile.value != "") && fromArray.None? ==> r == NoInput
  {
    if fromFile.Some? && fromFile.value != "" then FromFile(fromFile.value)
    else if fromArray.Some? then FromArray(fromArray.value)
    else NoInput
  }

  /** The corrected dispatch agrees with the written one wherever the written one does not fail. */
  lemma InitSourceAgrees(fromFile: Option<string>, fromArray: Option<Matrix>)
    requires fromArray.Some? ==> fromArray.value.Valid()
    requires InitSourceAsWritten(fromFile, fromArray).Ok?
    requires InitSourceAsWritten(fromFile, fromArray).value != NoInput
    ensures InitSourceAsWritten(fromFile, fromArray).value == InitSourceOf(fromFile, fromArray)
  {
  }

  class ProbabilityByRegionMatrix {
    var data: Option<Matrix>
    const atlas: HelperAtlas.BrainAtlas

    predicate Valid()
      reads this
    {
      atlas.Valid() && (data.Some? ==> data.value.Valid() && data.value.cols == N_CLASSES)
    }

    /** The object with neither argument: `data` stays `None`. */
    constructor Blank(atlas: HelperAtlas.BrainAtlas)
      requires atlas.Valid()
      ensures Valid() && this.atlas == atlas && data == None
    {
      this.atlas := atlas;
      data := None;
    }

    /** `__init__` (with the corrected array dispatch): the loaded matrix, or the exception raised. */
    static method Create(disk: Disk, fromFile: Option<string>, fromArray: Option<Matrix>, atlas: HelperAtlas.BrainAtlas)
      returns (r: Result<ProbabilityByRegionMatrix>)
      requires disk.Valid() && atlas.Valid() && (fromArray.Some? ==> fromArray.value.Valid())
      ensures r.Ok? ==> fresh(r.value) && r.value.Valid() && r.value.atlas == atlas
      ensures InitSourceOf(fromFile, fromArray) == NoInput ==> r.Ok? && r.value.data == None
      ensures InitSourceOf(fromFile, fromArray).FromArray? ==>
        if fromArray.value.cols == N_CLASSES then r.Ok? && r.value.data == fromArray
        else r == Err(AssertionError)
      ensures InitSourceOf(fromFile, fromArray).FromFile? ==>
        var loaded := LoadMat(disk, fromFile.value, MAT_DATA_KEY);
        if loaded.Err? then r == Err(loaded.exception)
        else if loaded.value.cols != N_CLASSES then r == Err(AssertionError)
        else r.Ok? && r.value.data == Some(loaded.value)
    {
      var pbr := new ProbabilityByRegionMatrix.Blank(atlas);
      var source := InitSourceOf(fromFile, fromArray);
      var err: Option<Exception> := None;
      if source.FromFile? {
        err := pbr.ReadFromFile(disk, source.path);
      } else if source.FromArray? {
        err := pbr.SetData(source.m);
      }
      if err.Some? {
        r := Err(err.value);
      } else {
        r := Ok(pbr);
      }
    }

    /** `read_from_file`: the `results` variable of a MATLAB file, through the validating setter. */
    method ReadFromFile(disk: Disk, p: string) returns (err: Option<Exception>)
      requires Valid() && disk.Valid()
      modifies this
      ensures Valid()
      ensures LoadMat(disk, p, MAT_DATA_KEY).Err? ==>
        err == Some(LoadMat(disk, p, MAT_DATA_KEY).exception) && data == old(data)
      ensures LoadMat(disk, p, MAT_DATA_KEY).Ok? ==>
        var m := LoadMat(disk, p, MAT_DATA_KEY).value;
        if m.cols == N_CLASSES then err.None? && data == Some(m) else err == Some(AssertionError) && data == old(data)
    {
      var loaded := LoadMat(disk, p, MAT_DATA_KEY);
      if loaded.Err? {
        return Some(loaded.exception);
      }
      err := SetData(loaded.value);
    }

    /** The `data` setter: stored only when `validate_data` passes. */
    method SetData(m: Matrix) returns (err: Option<Exception>)
      requires Valid() && m.Valid()
      modifies this
      ensures Valid()
      ensures m.cols == N_CLASSES ==> err.None? && data == Some(m)
      ensures m.cols != N_CLASSES ==> err == Some(AssertionError) && data == old(data)
    {
      var v := ValidateData(m);
      if v.Err? {
        return Some(v.exception);
      }
      data := Some(m);
      err := None;
    }

    /** `n_regions`: the atlas's region count, not the data's row count. */
    function NRegions(): (n: nat)
      requires atlas.Valid()
      ensures n == |Unique(atlas.template.labels)|
    {
      atlas.nRegions
    }

    /** `get_region_probability_dict(class_idx)`; no data is a TypeError, a bad index an IndexError. */
    function GetRegionProbabilityDict(c: int): (r: Result<map<int, real>>)
      requires Valid()
      reads this
      ensures data.None? ==> r == Err(TypeError)
      ensures data.Some? && !(-(N_CLASSES as int) <= c < N_CLASSES) ==> r == Err(IndexError)
      ensures data.Some? && 0 <= c < N_CLASSES ==> r == Ok(RegionProbabilityDict(data.value, c))
      ensures data.Some? && -(N_CLASSES as int) <= c < 0 ==> r == Ok(RegionProbabilityDict(data.value, c + N_CLASSES))
    {
      if data.None? then Err(TypeError)
      else
        match PyIndex(c, data.value.cols)
        case None => Err(IndexError)
        case Some(k) => Ok(RegionProbabilityDict(data.value, k))
    }

    /** `create_class_probability_map(class_idx)`: the atlas conversion of that dictionary. */
    method CreateClassProbabilityMap(c: int) returns (r: Result<Volume>)
      requires Valid()
      ensures GetRegionProbabilityDict(c).Err? ==> r == Err(GetRegionProbabilityDict(c).exception)
      ensures GetRegionProbabilityDict(c).Ok? ==> r == Ok(ProjectVolume(atlas.template, GetRegionProbabilityDict(c).value))
      ensures data.Some? && 0 <= c < N_CLASSES ==> r == Ok(ClassProbabilityMap(atlas.template, data.value, c))
      ensures data.Some? && -(N_CLASSES as int) <= c < 0 ==> r == Ok(ClassProbabilityMap(atlas.template, data.value, c + N_CLASSES))
    {
      var d := GetRegionProbabilityDict(c);
      if d.Err? {
        return Err(d.exception);
      }
      var v := atlas.ConvertFromDict(d.value);
      r := Ok(v);
    }

    /**
     * `create_all_class_probability_maps`: `np.stack` of the class maps along
     * a new first axis, so entry i is the map of class i.
     */
    method CreateAllClassProbabilityMaps() returns (r: Result<seq<Volume>>)
      requires Valid()
      ensures data.None? ==> r == Err(TypeError)
      ensures data.Some? ==>
        && r.Ok? && |r.value| == N_CLASSES
        && forall i :: 0 <= i < N_CLASSES ==> r.value[i] == ClassProbabilityMap(atlas.template, data.value, i)
    {
      var maps: seq<Volume> := [];
      var i := 0;
      while i < N_CLASSES
        invariant 0 <= i <= N_CLASSES
        invariant data.None? ==> i == 0
        invariant data.Some? ==> |maps| == i
        invariant data.Some? ==> forall k :: 0 <= k < i ==> maps[k] == ClassProbabilityMap(atlas.template, data.value, k)
      {
        var classMap := CreateClassProbabilityMap(i);
        if classMap.Err? {
          return Err(classMap.exception);
        }
        maps := maps + [classMap.value];
        i := i + 1;
      }
      r := Ok(maps);
    }
  }
}
