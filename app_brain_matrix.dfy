/**
 * `BrainMatrix` of the dashboard: the same three cuts as the research class,
 * over data that may be missing (a subject without a map file), plus an info
 * record naming whose map of which class it is.
 */
module AppBrainMatrix {
  import opened Wrappers
  import opened Grids
  import opened ResearchBrainMatrix

  /** The `'subject'` entry of the info record: a subject (by id) or the cohort mean. */
  datatype InfoSubject = SubjectInfo(subjectId: string) | MeanInfo

  /** `info = {'subject': ..., 'class': i}`. */
  datatype Info = Info(subject: InfoSubject, classIdx: nat)

  datatype BrainMatrix = BrainMatrix(data: Option<Volume>, info: Info)
  {
    predicate Valid() { data.Some? ==> data.value.Valid() }

    /**
     * `get_slice(plane, i)`: the slicer is looked up by name first (an unknown
     * name has no attribute), then `None` data cannot be indexed.
     */
    function GetSlice(plane: string, i: int): (r: Result<Matrix>)
      requires Valid()
      ensures ParsePlane(plane).None? ==> r == Err(AttributeError)
      ensures ParsePlane(plane).Some? && data.None? ==> r == Err(TypeError)
      ensures forall p: Plane :: plane == PlaneName(p) && data.Some? ==> r == Slice(data.value, p, i)
    {
      match ParsePlane(plane)
      case None => Err(AttributeError)
      case Some(p) => if data.None? then Err(TypeError) else Slice(data.value, p, i)
    }

    /** `get_multi_planar(i, j, k)`: the three cuts in `slice_planes` order. */
    function GetMultiPlanar(i: int, j: int, k: int): (r: Result<seq<Matrix>>)
      requires Valid()
      ensures data.None? ==> r == Err(TypeError)
      ensures data.Some? ==> r == ResearchBrainMatrix.BrainMatrix(data.value).GetMultiPlanar(i, j, k)
      ensures r.Ok? ==> |r.value| == |SLICE_PLANES|
      ensures r.Ok? ==> forall n :: 0 <= n < |SLICE_PLANES| ==>
        Ok(r.value[n]) == GetSlice(PlaneName(SLICE_PLANES[n]), [i, j, k][n])
    {
      if data.None? then Err(TypeError) else ResearchBrainMatrix.BrainMatrix(data.value).GetMultiPlanar(i, j, k)
    }

    /**
     * The slices `create_multi_planar_cds` hands out, before they are wrapped for
     * plotting: `dict(zip(slice_planes, slices))`, each keyed by its own plane.
     */
    function PlanarSlices(i: int, j: int, k: int): (r: Result<map<string, Matrix>>)
      requires Valid()
      ensures r.Ok? <==> GetMultiPlanar(i, j, k).Ok?
      ensures r.Ok? ==> r.value.Keys == {"sagittal", "coronal", "horizontal"}
      ensures r.Ok? ==> forall n :: 0 <= n < |SLICE_PLANES| ==>
        Ok(r.value[PlaneName(SLICE_PLANES[n])]) == GetSlice(PlaneName(SLICE_PLANES[n]), [i, j, k][n])
    {
      match GetMultiPlanar(i, j, k)
      case Err(e) => Err(e)
      case Ok(slices) =>
        Ok(map[PlaneName(SLICE_PLANES[0]) := slices[0],
               PlaneName(SLICE_PLANES[1]) := slices[1],
               PlaneName(SLICE_PLANES[2]) := slices[2]])
    }
  }
}
