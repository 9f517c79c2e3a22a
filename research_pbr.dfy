/**
 * What the research package's probability-by-region matrix and probability
 * map offer the modelled code. The matrix class of the research package is
 * not part of this model; this module keeps only what its callers use: the
 * subject it belongs to, its regions x classes data, and the class maps it
 * projects onto the (shift-aware) research atlas. `ProbabilityMap` is the
 * record of one class map: its volume, its class index and its atlas.
 */
module ResearchPbr {
  import opened Wrappers
  import opened Grids
  import opened Templates
  import opened Text
  import opened ClassMaps
  import ResearchAtlas

  /** A class index as the code holds it: an integer when created, the file-name text when loaded. */
  datatype ClassIndex = IntIndex(i: nat) | StrIndex(s: string)

  /** `f'{class_idx}'`. */
  function ClassIndexText(ci: ClassIndex): (r: string)
    ensures ci.IntIndex? ==> r == NatToString(ci.i)
    ensures ci.StrIndex? ==> r == ci.s
  {
    match ci
    case IntIndex(i) => NatToString(i)
    case StrIndex(s) => s
  }

  /** `ProbabilityMap(data, class_idx, atlas)`: a brain matrix that knows its class and atlas. */
  datatype ProbabilityMap = ProbabilityMap(data: Volume, classIdx: ClassIndex, atlasName: string)

  /** A subject's matrix: regions x the six classes. */
  datatype Pbr = Pbr(subjectId: string, data: Matrix)
  {
    predicate Valid() { data.Valid() && data.cols == N_CLASSES }
  }

  /**
   * `create_class_probability_map(c)`: class c of the matrix through the
   * research atlas. The region dictionary is one-based (no key 0), so the
   * atlas applies it unshifted: the map is the shared class map.
   */
  function ClassMap(atlas: ResearchAtlas.BrainAtlas, m: Matrix, c: nat): (pm: ProbabilityMap)
    requires atlas.Valid() && m.Valid() && c < m.cols
    ensures pm.data == ClassProbabilityMap(atlas.template, m, c)
    ensures pm.classIdx == IntIndex(c) && pm.atlasName == atlas.name
  {
    var dict := RegionProbabilityDict(m, c);
    assert 0 !in dict;
    ProbabilityMap(ProjectVolume(atlas.template, ResearchAtlas.Effective(dict)), IntIndex(c), atlas.name)
  }

  /** `create_all_class_probability_maps`: the six class maps in class order. */
  function AllClassMaps(atlas: ResearchAtlas.BrainAtlas, m: Matrix): (maps: seq<ProbabilityMap>)
    requires atlas.Valid() && m.Valid() && m.cols == N_CLASSES
    ensures |maps| == N_CLASSES
    ensures forall i :: 0 <= i < N_CLASSES ==> maps[i] == ClassMap(atlas, m, i)
  {
    seq(N_CLASSES, i requires 0 <= i < N_CLASSES => ClassMap(atlas, m, i))
  }
}
