/**
 * `DataAccessObject` of the research package: the subjects, the cohort
 * analysis built from the matrices they hold, and the results set (the
 * ordered class probability maps) the views show. A results set is the
 * cohort's mean maps for the identifier "mean", a registered subject's own
 * class maps for its id, and nothing otherwise; only a valid one is kept.
 */
module ResearchDao {
  import opened Wrappers
  import opened Grids
  import opened FileSystem
  import opened ClassMaps
  import opened SubjectData
  import opened ResearchPbr
  import opened ResearchSubject
  import opened ResearchAnalysis
  import opened ResearchBrainMatrix
  import ResearchAtlas
  import ResearchLoader

  // ------------------------------------------------------------ matrices of the subjects

  /** `subject.pbr` of a subject that holds one. */
  function PbrOf(s: Subject): Pbr
    reads s
    requires s.HasPbr()
  {
    s.slots["pbr"].pbr
  }

  /** The positions of the subjects that hold a matrix, in subject order. */
  function Holders(ss: seq<Subject>): (ks: seq<nat>)
    reads ss
    ensures forall i :: 0 <= i < |ks| ==> ks[i] < |ss| && ss[ks[i]].HasPbr()
    ensures forall i, j :: 0 <= i < j < |ks| ==> ks[i] < ks[j]
    ensures forall k :: 0 <= k < |ss| && ss[k].HasPbr() ==> k in ks
  {
    if ss == [] then []
    else
      var n := |ss| - 1;
      var ks := Holders(ss[..n]);
      assert forall k :: 0 <= k < n ==> ss[..n][k] == ss[k];
      if ss[n].HasPbr() then ks + [n] else ks
  }

  /**
   * `get_probability_by_region_matrices`: the matrix of every subject that
   * has one, in subject order, and nothing else.
   */
  function Pbrs(ss: seq<Subject>): (ps: seq<Pbr>)
    reads ss
    ensures |ps| == |Holders(ss)|
    ensures forall i :: 0 <= i < |ps| ==> ps[i] == PbrOf(ss[Holders(ss)[i]])
  {
    if ss == [] then []
    else
      var n := |ss| - 1;
      assert forall k :: 0 <= k < n ==> ss[..n][k] == ss[k];
      if ss[n].HasPbr() then Pbrs(ss[..n]) + [PbrOf(ss[n])] else Pbrs(ss[..n])
  }

  /** Valid subjects hold valid matrices, so the cohort can be analysed. */
  lemma PbrsValid(ss: seq<Subject>)
    requires forall k :: 0 <= k < |ss| ==> ss[k].Valid()
    ensures AllValid(Pbrs(ss))
  {
    var ps := Pbrs(ss);
    forall i | 0 <= i < |ps| ensures ps[i].Valid() {
      var k := Holders(ss)[i];
      assert ss[k].Valid();
    }
  }

  // ------------------------------------------------------------ results sets

  /** `get_results_set` for a subject id: the subject's class maps, if it is registered and has a matrix. */
  function SubjectResultsSet(atlas: ResearchAtlas.BrainAtlas, found: Option<Subject>): (r: Option<seq<ProbabilityMap>>)
    reads atlas, if found.Some? then {found.value} else {}
    requires atlas.Valid() && (found.Some? ==> found.value.Valid())
    ensures r.Some? <==> found.Some? && found.value.HasPbr()
    ensures r.Some? ==> |r.value| == N_CLASSES && CreatedInOrder(r.value, atlas.name)
    ensures r.Some? ==> forall i :: 0 <= i < N_CLASSES ==>
      r.value[i].data == ClassProbabilityMap(atlas.template, PbrOf(found.value).data, i)
  {
    if found.Some? && found.value.HasPbr() then
      var m := PbrOf(found.value).data;
      Some(AllClassMaps(atlas, m))
    else None
  }

  /** An element of a candidate results set: a probability map or an object of another class. */
  datatype Item = MapItem(pm: ProbabilityMap) | OtherItem

  /**
   * A value assigned to `results_set`: `None`, a list, another sized
   * collection (a tuple, say), or an object without a length.
   */
  datatype Candidate = NoneSet | ListValue(items: seq<Item>) | SizedValue(items: seq<Item>) | UnsizedValue

  /** What `get_results_set` hands back, as a value for `results_set`. */
  function AsCandidate(r: Option<seq<ProbabilityMap>>): (c: Candidate)
    ensures r.None? <==> c.NoneSet?
    ensures r.Some? ==> c.ListValue? && |c.items| == |r.value|
    ensures r.Some? ==> forall i :: 0 <= i < |r.value| ==> c.items[i] == MapItem(r.value[i])
  {
    match r
    case None => NoneSet
    case Some(maps) => ListValue(seq(|maps|, i requires 0 <= i < |maps| => MapItem(maps[i])))
  }

  /** The results sets the views accept: none, an empty one, or a list of the class maps of every class. */
  predicate Acceptable(c: Candidate)
  {
    || c.NoneSet?
    || ((c.ListValue? || c.SizedValue?) && c.items == [])
    || (c.ListValue? && |c.items| == N_CLASSES && forall i :: 0 <= i < |c.items| ==> c.items[i].MapItem?)
  }

  /**
   * `validate_results_set(value)`: true at once for `None` or an empty
   * value; otherwise a list of probability maps of length `n_classes`, or
   * `AssertionError`. `len` of an object without a length raises `TypeError`.
   */
  function ValidateResultsSet(c: Candidate): (err: Option<Exception>)
    ensures err.None? <==> Acceptable(c)
    ensures c.UnsizedValue? ==> err == Some(TypeError)
    ensures !c.UnsizedValue? && !Acceptable(c) ==> err == Some(AssertionError)
  {
    match c
    case NoneSet => None
    case UnsizedValue => Some(TypeError)
    case ListValue(items) =>
      if items == [] then None
      else if exists i :: 0 <= i < |items| && items[i].OtherItem? then Some(AssertionError)
      else if |items| != N_CLASSES then Some(AssertionError)
      else None
    case SizedValue(items) =>
      if items == [] then None else Some(AssertionError)
  }

  /** Every results set `get_results_set` computes for a subject id is accepted by `validate_results_set`. */
  lemma SubjectResultsSetAccepted(atlas: ResearchAtlas.BrainAtlas, found: Option<Subject>)
    requires atlas.Valid() && (found.Some? ==> found.value.Valid())
    ensures ValidateResultsSet(AsCandidate(SubjectResultsSet(atlas, found))).None?
  {
  }

  /** Mean maps read back from the mean directory are accepted only when there are `n_classes` of them. */
  lemma LoadedMeanMapsAccepted(maps: seq<ProbabilityMap>)
    requires maps != []
    ensures ValidateResultsSet(AsCandidate(Some(maps))).None? <==> |maps| == N_CLASSES
  {
    var c := AsCandidate(Some(maps));
    assert c.items != [];
    if |maps| == N_CLASSES {
      assert forall i :: 0 <= i < |c.items| ==> c.items[i].MapItem?;
    }
  }

  /** Every array a results set holds is rectangular. */
  predicate WellShapedCandidate(c: Candidate)
  {
    (c.ListValue? || c.SizedValue?) ==>
      forall i :: 0 <= i < |c.items| ==> c.items[i].MapItem? ==> c.items[i].pm.data.Valid()
  }

  /**
   * `get_slice(plane, class_idx, i_slice)`: `results_set[class_idx].create_slice(plane, i_slice)`.
   * With no results set, subscripting `None` raises `TypeError`; an index
   * outside the set raises `IndexError`; an element that is not a map has no
   * `create_slice`.
   */
  function SliceOf(c: Candidate, plane: string, classIdx: int, iSlice: int): (r: Result<Matrix>)
    requires WellShapedCandidate(c) && !c.UnsizedValue?
    ensures c.NoneSet? ==> r == Err(TypeError)
    ensures !c.NoneSet? && PyIndex(classIdx, |c.items|).None? ==> r == Err(IndexError)
    ensures !c.NoneSet? && PyIndex(classIdx, |c.items|).Some? ==>
      var item := c.items[PyIndex(classIdx, |c.items|).value];
      && (item.OtherItem? ==> r == Err(AttributeError))
      && (item.MapItem? ==> r == BrainMatrix(item.pm.data).CreateSlice(plane, iSlice))
  {
    if c.NoneSet? then Err(TypeError)
    else
      match PyIndex(classIdx, |c.items|)
      case None => Err(IndexError)
      case Some(k) =>
        match c.items[k]
        case OtherItem => Err(AttributeError)
        case MapItem(pm) => BrainMatrix(pm.data).CreateSlice(plane, iSlice)
  }

  /** What `chosen_subject` is assigned: a subject, or an object of another class. */
  datatype SubjectCandidate = SubjectValue(s: Subject) | NotASubject

  /** The `FreshMeanMaps` outcome as a results set. */
  function AsOptional(r: Result<seq<ProbabilityMap>>): (o: Result<Option<seq<ProbabilityMap>>>)
    ensures r.Ok? <==> o.Ok?
    ensures r.Ok? ==> o.value == Some(r.value)
    ensures r.Err? ==> o.exception == r.exception
  {
    match r
    case Ok(maps) => Ok(Some(maps))
    case Err(e) => Err(e)
  }

  class DataAccessObject {
    const subjects: seq<Subject>
    /** The registry `get_subject_by_id` asks (the package-wide loader). */
    const loader: ResearchLoader.DataLoader
    /** The atlas the subjects' maps are projected onto. */
    const atlas: ResearchAtlas.BrainAtlas
    /** `cla`: the analysis of the matrices the subjects held when the object was made. */
    const cla: CorticalLayersAnalysis
    var chosenSubject: Option<Subject>
    var resultsSet: Candidate
    var pbrsMemo: Option<seq<Pbr>>

    ghost predicate Valid()
      reads this, cla, atlas, loader.subjects
    {
      && cla.Valid() && cla.atlas == atlas && atlas.Valid()
      && (forall k :: 0 <= k < |loader.subjects| ==> loader.subjects[k].Valid())
      && WellShapedCandidate(resultsSet) && !resultsSet.UnsizedValue?
    }

    /** `__init__(subjects)`: the matrices are gathered (and kept) and handed to a new analysis. */
    constructor (subjects: seq<Subject>, loader: ResearchLoader.DataLoader, atlas: ResearchAtlas.BrainAtlas,
                 resultsDir: string, sqrt: real -> real)
      requires forall k :: 0 <= k < |subjects| ==> subjects[k].Valid()
      requires forall k :: 0 <= k < |loader.subjects| ==> loader.subjects[k].Valid()
      requires atlas.Valid()
      ensures Valid()
      ensures this.subjects == subjects && this.loader == loader && this.atlas == atlas
      ensures pbrsMemo == Some(Pbrs(subjects)) && fresh(cla) && cla.pbrs == Pbrs(subjects)
      ensures cla.resultsDir == resultsDir && cla.meanProbabilityMaps.None?
      ensures chosenSubject.None? && resultsSet.NoneSet?
    {
      this.subjects := subjects;
      this.loader := loader;
      this.atlas := atlas;
      var ps := Pbrs(subjects);
      PbrsValid(subjects);
      pbrsMemo := Some(ps);
      cla := new CorticalLayersAnalysis(ps, atlas, resultsDir, sqrt);
      chosenSubject := None;
      resultsSet := NoneSet;
    }

    /** `pbrs`: gathered on first use and then kept, even if the subjects' matrices change later. */
    method GetPbrs() returns (ps: seq<Pbr>)
      modifies this
      ensures old(pbrsMemo).Some? ==> ps == old(pbrsMemo).value
      ensures old(pbrsMemo).None? ==> ps == Pbrs(subjects)
      ensures pbrsMemo == Some(ps)
      ensures chosenSubject == old(chosenSubject) && resultsSet == old(resultsSet)
    {
      if pbrsMemo.None? {
        pbrsMemo := Some(Pbrs(subjects));
      }
      ps := pbrsMemo.value;
    }

    /**
     * `get_results_set(identifier)`: for "mean", the analysis's mean maps
     * (kept, read back from the mean directory, or created and saved); for
     * a registered subject, its class maps or `None` without a matrix; for
     * anything else, `None`.
     */
    method GetResultsSet(identifier: string, disk: Disk, files: seq<string>)
      returns (d: Disk, r: Result<Option<seq<ProbabilityMap>>>)
      requires Valid()
      modifies cla
      ensures Valid()
      ensures identifier == "mean" && old(cla.meanProbabilityMaps).Some? ==>
        d == disk && r == Ok(Some(old(cla.meanProbabilityMaps).value))
      ensures identifier == "mean" && old(cla.meanProbabilityMaps).None? ==>
        d == FreshMeanMaps(disk, files, atlas, old(cla.MeanCohort()), cla.resultsDir).0
        && r == AsOptional(FreshMeanMaps(disk, files, atlas, old(cla.MeanCohort()), cla.resultsDir).1)
      ensures identifier != "mean" ==>
        d == disk && r == Ok(SubjectResultsSet(atlas, loader.GetSubjectById(identifier)))
        && cla.meanProbabilityMaps == old(cla.meanProbabilityMaps)
      ensures identifier == "mean" && r.Ok? ==> r.value.Some? && cla.meanProbabilityMaps == Some(r.value.value)
      ensures identifier == "mean" && r == Err(FileExistsError) ==>
        MeanMaps(atlas, old(cla.MeanCohort())).Ok?
        && cla.meanProbabilityMaps == Some(MeanMaps(atlas, old(cla.MeanCohort())).value)
      ensures identifier == "mean" && r.Err? && r != Err(FileExistsError) ==>
        cla.meanProbabilityMaps == old(cla.meanProbabilityMaps)
      ensures cla.pbrs == old(cla.pbrs) && cla.stdPbr == old(cla.stdPbr)
    {
      if identifier == "mean" {
        var maps;
        d, maps := cla.MeanProbabilityMaps(disk, files);
        r := AsOptional(maps);
        return;
      }
      d := disk;
      var found := loader.GetSubjectById(identifier);
      if found.Some? {
        assert found.value in loader.subjects;
      }
      r := Ok(SubjectResultsSet(atlas, found));
    }

    /** The `results_set` setter: a value is kept only once it validates; otherwise the error is raised. */
    method SetResultsSet(value: Candidate) returns (err: Option<Exception>)
      requires Valid() && WellShapedCandidate(value)
      modifies this
      ensures Valid()
      ensures err == ValidateResultsSet(value)
      ensures err.None? ==> resultsSet == value
      ensures err.Some? ==> resultsSet == old(resultsSet)
      ensures chosenSubject == old(chosenSubject) && pbrsMemo == old(pbrsMemo)
    {
      err := ValidateResultsSet(value);
      if err.None? {
        resultsSet := value;
      }
    }

    /** The `chosen_subject` setter: anything but a subject is ignored without an error. */
    method SetChosenSubject(value: SubjectCandidate)
      modifies this
      ensures value.SubjectValue? ==> chosenSubject == Some(value.s)
      ensures value.NotASubject? ==> chosenSubject == old(chosenSubject)
      ensures resultsSet == old(resultsSet) && pbrsMemo == old(pbrsMemo)
    {
      if value.SubjectValue? {
        chosenSubject := Some(value.s);
      }
    }

    /** `get_slice(plane, class_idx, i_slice)` on the kept results set. */
    function GetSlice(plane: string, classIdx: int, iSlice: int): (r: Result<Matrix>)
      reads this, cla, atlas, loader.subjects
      requires Valid()
      ensures r == SliceOf(resultsSet, plane, classIdx, iSlice)
    {
      SliceOf(resultsSet, plane, classIdx, iSlice)
    }
  }

  /** A kept results set is always one `validate_results_set` accepts. */
  lemma KeptIsAcceptable(c: Candidate, value: Candidate)
    requires Acceptable(c)
    ensures Acceptable(if ValidateResultsSet(value).None? then value else c)
  {
  }

  /** The slice of class `c` of a subject's results set is the slice of that class's map. */
  lemma SubjectSlice(atlas: ResearchAtlas.BrainAtlas, s: Subject, plane: string, c: nat, iSlice: int)
    requires atlas.Valid() && s.Valid() && s.HasPbr() && c < N_CLASSES
    ensures var cand := AsCandidate(SubjectResultsSet(atlas, Some(s)));
      WellShapedCandidate(cand)
      && SliceOf(cand, plane, c, iSlice)
         == BrainMatrix(ClassProbabilityMap(atlas.template, PbrOf(s).data, c)).CreateSlice(plane, iSlice)
  {
    var cand := AsCandidate(SubjectResultsSet(atlas, Some(s)));
    assert cand.items[c] == MapItem(ClassMap(atlas, PbrOf(s).data, c));
  }
}
