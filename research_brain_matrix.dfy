/**
 * `BrainMatrix` of the `research` package: a 3-D volume cut along one of the
 * three anatomical planes. Each cut fixes one index (Python indexing, so a
 * negative index counts from the end) and turns the section a quarter turn
 * clockwise; the sagittal cut is mirrored as well.
 */
module ResearchBrainMatrix {
  import opened Wrappers
  import opened Grids

  datatype Plane = Sagittal | Coronal | Horizontal

  /** `slice_planes`: the planes in the order the multi-planar view lists them. */
  const SLICE_PLANES: seq<Plane> := [Sagittal, Coronal, Horizontal]

  function PlaneName(p: Plane): string
  {
    match p
    case Sagittal => "sagittal"
    case Coronal => "coronal"
    case Horizontal => "horizontal"
  }

  /**
   * The plane whose slicer `getattr(self, f'get_{plane}_slice')` finds:
   * only the three plane names name one.
   */
  function ParsePlane(name: string): (r: Option<Plane>)
    ensures r.Some? ==> PlaneName(r.value) == name
    ensures r.None? ==> forall p: Plane :: PlaneName(p) != name
  {
    if name == "sagittal" then Some(Sagittal)
    else if name == "coronal" then Some(Coronal)
    else if name == "horizontal" then Some(Horizontal)
    else None
  }

  /** Every plane name reads back as its plane. */
  lemma ParsePlaneName(p: Plane)
    ensures ParsePlane(PlaneName(p)) == Some(p)
  {
  }

  /**
   * `get_sagittal_slice(i)`: `fliplr(rot90(data[i, :, :], 3))`, which is the
   * transpose of the section; an index outside the first axis is an IndexError.
   */
  function SagittalSlice(v: Volume, i: int): (r: Result<Matrix>)
    requires v.Valid()
    ensures r.Ok? <==> PyIndex(i, v.nx).Some?
    ensures r.Err? ==> r.exception == IndexError
    ensures r.Ok? ==> r.value == Transpose(Section0(v, PyIndex(i, v.nx).value))
  {
    match PyIndex(i, v.nx)
    case None => Err(IndexError)
    case Some(k) =>
      FlipRotIsTranspose(Section0(v, k));
      Ok(FlipLR(Rot270(Section0(v, k))))
  }

  /** `get_coronal_slice(j)`: `rot90(data[:, j, :], 3)`, of shape nz x nx. */
  function CoronalSlice(v: Volume, j: int): (r: Result<Matrix>)
    requires v.Valid()
    ensures r.Ok? <==> PyIndex(j, v.ny).Some?
    ensures r.Err? ==> r.exception == IndexError
    ensures r.Ok? ==> var k := PyIndex(j, v.ny).value;
      && r.value.Valid() && r.value.rows == v.nz && r.value.cols == v.nx
      && forall p, q :: 0 <= p < v.nz && 0 <= q < v.nx ==> r.value.at[p][q] == v.at[v.nx - 1 - q][k][p]
  {
    match PyIndex(j, v.ny)
    case None => Err(IndexError)
    case Some(k) => Ok(Rot270(Section1(v, k)))
  }

  /** `get_horizontal_slice(k)`: `rot90(data[:, :, k], 3)`, of shape ny x nx. */
  function HorizontalSlice(v: Volume, k: int): (r: Result<Matrix>)
    requires v.Valid()
    ensures r.Ok? <==> PyIndex(k, v.nz).Some?
    ensures r.Err? ==> r.exception == IndexError
    ensures r.Ok? ==> var d := PyIndex(k, v.nz).value;
      && r.value.Valid() && r.value.rows == v.ny && r.value.cols == v.nx
      && forall p, q :: 0 <= p < v.ny && 0 <= q < v.nx ==> r.value.at[p][q] == v.at[v.nx - 1 - q][p][d]
  {
    match PyIndex(k, v.nz)
    case None => Err(IndexError)
    case Some(d) => Ok(Rot270(Section2(v, d)))
  }

  /** The slicer of one plane. */
  function Slice(v: Volume, p: Plane, i: int): Result<Matrix>
    requires v.Valid()
  {
    match p
    case Sagittal => SagittalSlice(v, i)
    case Coronal => CoronalSlice(v, i)
    case Horizontal => HorizontalSlice(v, i)
  }

  /** Mirroring a sagittal slice left-to-right gives the quarter-turned section back. */
  lemma SagittalUnmirrored(v: Volume, i: int)
    requires v.Valid() && SagittalSlice(v, i).Ok?
    ensures FlipLR(SagittalSlice(v, i).value) == Rot270(Section0(v, PyIndex(i, v.nx).value))
  {
    FlipLRInvolution(Rot270(Section0(v, PyIndex(i, v.nx).value)));
  }

  datatype BrainMatrix = BrainMatrix(data: Volume)
  {
    predicate Valid() { data.Valid() }

    /**
     * `create_slice(plane, i)`: a plane name picks its slicer; any other name
     * has no `get_..._slice` attribute.
     */
    function CreateSlice(plane: string, i: int): (r: Result<Matrix>)
      requires Valid()
      ensures forall p: Plane :: plane == PlaneName(p) ==> r == Slice(data, p, i)
      ensures ParsePlane(plane).None? ==> r == Err(AttributeError)
    {
      match ParsePlane(plane)
      case None => Err(AttributeError)
      case Some(p) => Slice(data, p, i)
    }

    /**
     * `get_multi_planar(i, j, k)`: [sagittal, coronal, horizontal] at the three
     * indices; the first failing cut raises.
     */
    function GetMultiPlanar(i: int, j: int, k: int): (r: Result<seq<Matrix>>)
      requires Valid()
      ensures r.Ok? <==> SagittalSlice(data, i).Ok? && CoronalSlice(data, j).Ok? && HorizontalSlice(data, k).Ok?
      ensures r.Ok? ==> |r.value| == |SLICE_PLANES|
      ensures r.Ok? ==>
        forall n :: 0 <= n < |SLICE_PLANES| ==> Ok(r.value[n]) == Slice(data, SLICE_PLANES[n], [i, j, k][n])
      ensures r.Err? ==> r.exception == IndexError
    {
      var s := SagittalSlice(data, i);
      var c := CoronalSlice(data, j);
      var h := HorizontalSlice(data, k);
      if s.Err? then Err(s.exception)
      else if c.Err? then Err(c.exception)
      else if h.Err? then Err(h.exception)
      else Ok([s.value, c.value, h.value])
    }
  }
}
