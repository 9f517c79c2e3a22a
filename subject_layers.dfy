/**
 * `SubjectLayersMatrix`: one subject's region x layer matrix, read from the
 * MATLAB file at its path and handed out only after a fixed-shape check
 * (1000 atlas regions by 6 layers).
 */
module SubjectLayers {
  import opened Wrappers
  import opened Grids
  import opened FileSystem
  import opened ClassMaps

  const N_ATLAS_REGIONS: nat := 1000
  const N_LAYERS: nat := 6

  /** `validate_data`: the region axis first, then the layer axis; either mismatch fails an assertion. */
  function ValidateShape(m: Matrix): (r: Option<Exception>)
    ensures r.None? <==> m.rows == N_ATLAS_REGIONS && m.cols == N_LAYERS
    ensures r.Some? ==> r.value == AssertionError
  {
    if m.rows != N_ATLAS_REGIONS then Some(AssertionError)
    else if m.cols != N_LAYERS then Some(AssertionError)
    else None
  }

  class SubjectLayersMatrix {
    const path: string
    const data: Matrix

    /** `__init__` once the file has been read. */
    constructor (path: string, data: Matrix)
      ensures this.path == path && this.data == data
    {
      this.path := path;
      this.data := data;
    }

    /** `__init__`: `read_data` loads the `results` variable of the MATLAB file at the path. */
    static method Create(disk: Disk, path: string) returns (r: Result<SubjectLayersMatrix>)
      ensures LoadMat(disk, path, MAT_DATA_KEY).Err? ==> r == Err(LoadMat(disk, path, MAT_DATA_KEY).exception)
      ensures LoadMat(disk, path, MAT_DATA_KEY).Ok? ==>
        r.Ok? && fresh(r.value) && r.value.path == path && r.value.data == LoadMat(disk, path, MAT_DATA_KEY).value
    {
      var loaded := LoadMat(disk, path, MAT_DATA_KEY);
      if loaded.Err? {
        return Err(loaded.exception);
      }
      var s := new SubjectLayersMatrix(path, loaded.value);
      r := Ok(s);
    }

    /** `get_data`: the stored matrix, unchanged, and only when it is 1000 x 6. */
    function GetData(): (r: Result<Matrix>)
      ensures r.Ok? <==> data.rows == N_ATLAS_REGIONS && data.cols == N_LAYERS
      ensures r.Ok? ==> r.value == data
      ensures r.Err? ==> r.exception == AssertionError
    {
      match ValidateShape(data)
      case Some(e) => Err(e)
      case None => Ok(data)
    }
  }
}
