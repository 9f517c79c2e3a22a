/**
 * `AllClassAALHandler`: a 4-D image (three space axes, then one class axis)
 * cut along a plane for one class at a time. Each cut indexes the slice and
 * the class in the same subscript, then turns the section as `BrainMatrix` does.
 */
module AppHelpers {
  import opened Wrappers
  import opened Grids
  import opened ResearchBrainMatrix

  /** `image[k, :, :, c]`, `image[:, k, :, c]` or `image[:, :, k, c]`, taken from the 4-D image directly. */
  function ClassSection(w: Volume4, p: Plane, k: nat, c: nat): (m: Matrix)
    requires w.Valid() && c < w.nc
    requires p == Sagittal ==> k < w.nx
    requires p == Coronal ==> k < w.ny
    requires p == Horizontal ==> k < w.nz
    ensures m.Valid()
  {
    match p
    case Sagittal => Matrix(w.ny, w.nz, seq(w.ny, b requires 0 <= b < w.ny => seq(w.nz, d requires 0 <= d < w.nz => w.at[k][b][d][c])))
    case Coronal => Matrix(w.nx, w.nz, seq(w.nx, a requires 0 <= a < w.nx => seq(w.nz, d requires 0 <= d < w.nz => w.at[a][k][d][c])))
    case Horizontal => Matrix(w.nx, w.ny, seq(w.nx, a requires 0 <= a < w.nx => seq(w.ny, b requires 0 <= b < w.ny => w.at[a][b][k][c])))
  }

  /** The length of the axis a plane's cut indexes. */
  function AxisLength(w: Volume4, p: Plane): nat
  {
    match p
    case Sagittal => w.nx
    case Coronal => w.ny
    case Horizontal => w.nz
  }

  /** A section of the 4-D image is the same section of the class's 3-D volume. */
  lemma ClassSectionOfClassVolume(w: Volume4, p: Plane, k: nat, c: nat)
    requires w.Valid() && c < w.nc && k < AxisLength(w, p)
    ensures p == Sagittal ==> ClassSection(w, p, k, c) == Section0(ClassVolume(w, c), k)
    ensures p == Coronal ==> ClassSection(w, p, k, c) == Section1(ClassVolume(w, c), k)
    ensures p == Horizontal ==> ClassSection(w, p, k, c) == Section2(ClassVolume(w, c), k)
  {
    var v := ClassVolume(w, c);
    match p
    case Sagittal => MatrixExt(ClassSection(w, p, k, c), Section0(v, k));
    case Coronal => MatrixExt(ClassSection(w, p, k, c), Section1(v, k));
    case Horizontal => MatrixExt(ClassSection(w, p, k, c), Section2(v, k));
  }

  datatype AllClassAalHandler = AllClassAalHandler(image: Volume4)
  {
    predicate Valid() { image.Valid() }

    /**
     * The cut of one plane for one class: `image[...]` raises IndexError if
     * either subscript is out of range, then the section is turned (and, for a
     * sagittal cut, mirrored).
     */
    function PlaneSlice(p: Plane, s: int, c: int): (r: Result<Matrix>)
      requires Valid()
      ensures PyIndex(c, image.nc).None? ==> r == Err(IndexError)
      ensures PyIndex(c, image.nc).Some? ==> r == Slice(ClassVolume(image, PyIndex(c, image.nc).value), p, s)
    {
      match (PyIndex(s, AxisLength(image, p)), PyIndex(c, image.nc))
      case (None, _) => Err(IndexError)
      case (_, None) => Err(IndexError)
      case (Some(k), Some(j)) =>
        ClassSectionOfClassVolume(image, p, k, j);
        var section := ClassSection(image, p, k, j);
        if p == Sagittal then Ok(FlipLR(Rot270(section))) else Ok(Rot270(section))
    }

    /** `get_sagittal_slice(slice, class_idx)`. */
    function SagittalSlice(s: int, c: int): Result<Matrix>
      requires Valid()
    {
      PlaneSlice(Sagittal, s, c)
    }

    /** `get_coronal_slice(slice, class_idx)`. */
    function CoronalSlice(s: int, c: int): Result<Matrix>
      requires Valid()
    {
      PlaneSlice(Coronal, s, c)
    }

    /** `get_horizontal_slice(slice, class_idx)`. */
    function HorizontalSlice(s: int, c: int): Result<Matrix>
      requires Valid()
    {
      PlaneSlice(Horizontal, s, c)
    }

    /** `get_slice(plane, slice, class_idx)`: dispatch on the plane name, as `getattr` finds the slicer. */
    function GetSlice(plane: string, s: int, c: int): (r: Result<Matrix>)
      requires Valid()
      ensures ParsePlane(plane).None? ==> r == Err(AttributeError)
      ensures forall p: Plane :: plane == PlaneName(p) ==> r == PlaneSlice(p, s, c)
    {
      match ParsePlane(plane)
      case None => Err(AttributeError)
      case Some(p) => PlaneSlice(p, s, c)
    }

    /** `get_all_planes_by_coords(i, j, k, class_idx)`: [sagittal, coronal, horizontal] of one class. */
    function GetAllPlanesByCoords(i: int, j: int, k: int, c: int): (r: Result<seq<Matrix>>)
      requires Valid()
      ensures PyIndex(c, image.nc).None? ==> r == Err(IndexError)
      ensures PyIndex(c, image.nc).Some? ==>
        r == ResearchBrainMatrix.BrainMatrix(ClassVolume(image, PyIndex(c, image.nc).value)).GetMultiPlanar(i, j, k)
      ensures r.Ok? ==> |r.value| == |SLICE_PLANES|
      ensures r.Ok? ==> forall n :: 0 <= n < |SLICE_PLANES| ==>
        Ok(r.value[n]) == GetSlice(PlaneName(SLICE_PLANES[n]), [i, j, k][n], c)
    {
      var sag := SagittalSlice(i, c);
      var cor := CoronalSlice(j, c);
      var hor := HorizontalSlice(k, c);
      if sag.Err? then Err(sag.exception)
      else if cor.Err? then Err(cor.exception)
      else if hor.Err? then Err(hor.exception)
      else Ok([sag.value, cor.value, hor.value])
    }

    /** `n_classes`: the length of the last axis, so exactly the class indices 0 .. n - 1 can be cut. */
    function NClasses(): (n: nat)
      requires Valid()
      ensures forall c: int :: 0 <= c ==> (c < n <==> PyIndex(c, image.nc).Some?)
    {
      image.nc
    }
  }
}
