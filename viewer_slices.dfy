/**
 * The `DataHandler` of the interactive viewer: cuts of the 4-D class-mean
 * image that transpose and mirror instead of turning, and the one-based
 * sliders that pick the coronal slice and the class.
 */
module ViewerSlices {
  import opened Wrappers
  import opened Grids
  import opened ResearchBrainMatrix
  import opened AppHelpers

  datatype DataHandler = DataHandler(image: Volume4)
  {
    predicate Valid() { image.Valid() }

    /** `get_sagittal_slice`: `fliplr(transpose(image[s, :, :, c]))`, of shape nz x ny. */
    function SagittalSlice(s: int, c: int): (r: Result<Matrix>)
      requires Valid()
      ensures r.Ok? <==> PyIndex(s, image.nx).Some? && PyIndex(c, image.nc).Some?
      ensures r.Err? ==> r.exception == IndexError
      ensures r.Ok? ==> var k, j := PyIndex(s, image.nx).value, PyIndex(c, image.nc).value;
        && r.value.Valid() && r.value.rows == image.nz && r.value.cols == image.ny
        && forall p, q :: 0 <= p < image.nz && 0 <= q < image.ny ==> r.value.at[p][q] == image.at[k][image.ny - 1 - q][p][j]
    {
      match (PyIndex(s, image.nx), PyIndex(c, image.nc))
      case (None, _) => Err(IndexError)
      case (_, None) => Err(IndexError)
      case (Some(k), Some(j)) => Ok(FlipLR(Transpose(ClassSection(image, Sagittal, k, j))))
    }

    /** `get_coronal_slice`: `image[:, s, :, c]` as it is, of shape nx x nz. */
    function CoronalSlice(s: int, c: int): (r: Result<Matrix>)
      requires Valid()
      ensures r.Ok? <==> PyIndex(s, image.ny).Some? && PyIndex(c, image.nc).Some?
      ensures r.Err? ==> r.exception == IndexError
      ensures r.Ok? ==> var k, j := PyIndex(s, image.ny).value, PyIndex(c, image.nc).value;
        && r.value.Valid() && r.value.rows == image.nx && r.value.cols == image.nz
        && forall a, d :: 0 <= a < image.nx && 0 <= d < image.nz ==> r.value.at[a][d] == image.at[a][k][d][j]
    {
      match (PyIndex(s, image.ny), PyIndex(c, image.nc))
      case (None, _) => Err(IndexError)
      case (_, None) => Err(IndexError)
      case (Some(k), Some(j)) => Ok(ClassSection(image, Coronal, k, j))
    }

    /** `get_horizontal_slice`: `transpose(image[:, :, s, c])`, of shape ny x nx. */
    function HorizontalSlice(s: int, c: int): (r: Result<Matrix>)
      requires Valid()
      ensures r.Ok? <==> PyIndex(s, image.nz).Some? && PyIndex(c, image.nc).Some?
      ensures r.Err? ==> r.exception == IndexError
      ensures r.Ok? ==> var k, j := PyIndex(s, image.nz).value, PyIndex(c, image.nc).value;
        && r.value.Valid() && r.value.rows == image.ny && r.value.cols == image.nx
        && forall p, q :: 0 <= p < image.ny && 0 <= q < image.nx ==> r.value.at[p][q] == image.at[q][p][k][j]
    {
      match (PyIndex(s, image.nz), PyIndex(c, image.nc))
      case (None, _) => Err(IndexError)
      case (_, None) => Err(IndexError)
      case (Some(k), Some(j)) => Ok(Transpose(ClassSection(image, Horizontal, k, j)))
    }

    /**
     * `update_slice` / `update_class`: both sliders are one-based, so the
     * coronal cut shown is at slider value - 1 for slice and class alike.
     */
    function ShownSlice(sliceValue: int, classValue: int): (r: Result<Matrix>)
      requires Valid()
      ensures 1 <= sliceValue <= image.ny && 1 <= classValue <= image.nc ==>
        && r.Ok? && r.value.Valid() && r.value.rows == image.nx && r.value.cols == image.nz
        && forall a, d :: 0 <= a < image.nx && 0 <= d < image.nz ==>
          r.value.at[a][d] == image.at[a][sliceValue - 1][d][classValue - 1]
    {
      CoronalSlice(SliderIndex(sliceValue), SliderIndex(classValue))
    }
  }

  /** A one-based slider value as the zero-based index the viewer passes on. */
  function SliderIndex(value: int): int
  {
    value - 1
  }

  /** The viewer's sagittal cut is the dashboard's sagittal cut mirrored left-to-right. */
  lemma SagittalMirrorsDashboard(w: Volume4, s: int, c: int)
    requires w.Valid()
    ensures DataHandler(w).SagittalSlice(s, c).Ok? <==> AllClassAalHandler(w).SagittalSlice(s, c).Ok?
    ensures DataHandler(w).SagittalSlice(s, c).Ok? ==>
      DataHandler(w).SagittalSlice(s, c).value == FlipLR(AllClassAalHandler(w).SagittalSlice(s, c).value)
  {
    if DataHandler(w).SagittalSlice(s, c).Ok? {
      var k, j := PyIndex(s, w.nx).value, PyIndex(c, w.nc).value;
      var section := ClassSection(w, Sagittal, k, j);
      FlipRotIsTranspose(section);
    }
  }

  /** The viewer's coronal cut is the dashboard's coronal cut before its quarter turn. */
  lemma CoronalUnturnedDashboard(w: Volume4, s: int, c: int)
    requires w.Valid()
    ensures DataHandler(w).CoronalSlice(s, c).Ok? <==> AllClassAalHandler(w).CoronalSlice(s, c).Ok?
    ensures DataHandler(w).CoronalSlice(s, c).Ok? ==>
      Rot270(DataHandler(w).CoronalSlice(s, c).value) == AllClassAalHandler(w).CoronalSlice(s, c).value
  {
  }

  /**
   * The end of the slice slider as written: `aal_1000.shape[2]`, the length
   * of the third axis, although the slider picks a coronal (second-axis) cut.
   */
  function SliceSliderEndAsWritten(w: Volume4): (n: nat)
    ensures n == AxisLength(w, Horizontal)
  {
    w.nz
  }

  /** When the third axis is the longer one, the slider's last value cuts past the second axis. */
  lemma {:induction false} SliderEndOverrunsCoronalAxis(w: Volume4)
    requires w.Valid() && w.nz > w.ny && w.nc >= 1
    ensures DataHandler(w).ShownSlice(SliceSliderEndAsWritten(w), 1) == Err(IndexError)
  {
    assert PyIndex(SliderIndex(SliceSliderEndAsWritten(w)), w.ny).None?;
  }

  /** The slice slider's end as intended: the length of the axis the coronal cut indexes. */
  function SliceSliderEnd(w: Volume4): (n: nat)
    ensures n == AxisLength(w, Coronal)
  {
    w.ny
  }

  /**
   * With the intended end, every slider position shows a cut and every
   * coronal cut has a slider position.
   */
  lemma SliderCoversCoronalAxis(w: Volume4, value: int, classValue: int)
    requires w.Valid() && 1 <= classValue <= w.nc
    ensures 1 <= value <= SliceSliderEnd(w) ==> DataHandler(w).ShownSlice(value, classValue).Ok?
    ensures 0 <= SliderIndex(value) < w.ny ==> 1 <= value <= SliceSliderEnd(w)
  {
  }
}
