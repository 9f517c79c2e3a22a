/**
 * `DataAccessObject` of the dashboard: the subjects read from the raw
 * `<name>_<scan date>_<rest>.mat` files, the cohort summary, and the results
 * set (one brain matrix per class) the views slice. The results set is the
 * summary's mean maps for "mean", a subject's own maps for its id, and an
 * empty list otherwise; only a list of `n_classes` brain matrices is kept,
 * and an empty results set falls back to the summary's means.
 */
module AppDao {
  import opened Wrappers
  import opened Grids
  import opened Text
  import opened FileSystem
  import opened ClassMaps
  import ResearchBrainMatrix
  import opened AppBrainMatrix
  import opened AppSubject
  import opened AppSummary

  /** `raw_data_key`: the variable of a raw `.mat` file that holds the matrix. */
  const RAW_DATA_KEY: string := "results"

  // ------------------------------------------------------------ loading the subjects

  /**
   * One raw file as `load_subjects_data` reads it: its base name must split
   * on '_' into exactly three pieces (otherwise the unpacking raises
   * `ValueError`), the id is the first two pieces joined, and the matrix is
   * the file's `results` variable.
   */
  function LoadSubject(disk: Disk, resultsRoot: string, path: string): (r: Result<Subject>)
    ensures |Split(Basename(path), '_')| != 3 ==> r == Err(ValueError)
    ensures |Split(Basename(path), '_')| == 3 && LoadMat(disk, path, RAW_DATA_KEY).Err? ==>
      r == Err(LoadMat(disk, path, RAW_DATA_KEY).exception)
    ensures r.Ok? ==> var fields := Split(Basename(path), '_');
      r.value.subjectId == fields[0] + fields[1]
      && r.value.resultsRoot == resultsRoot
      && Ok(r.value.pbr) == LoadMat(disk, path, RAW_DATA_KEY)
  {
    var fields := Split(Basename(path), '_');
    if |fields| != 3 then Err(ValueError)
    else
      match LoadMat(disk, path, RAW_DATA_KEY)
      case Err(e) => Err(e)
      case Ok(m) => Ok(Subject(fields[0] + fields[1], resultsRoot, m))
  }

  /** The position of the first raw file that cannot be read, or the number of files when all can. */
  function FirstFailure(disk: Disk, resultsRoot: string, paths: seq<string>): (j: nat)
    ensures j <= |paths|
    ensures forall k :: 0 <= k < j ==> LoadSubject(disk, resultsRoot, paths[k]).Ok?
    ensures j < |paths| ==> LoadSubject(disk, resultsRoot, paths[j]).Err?
  {
    if paths == [] then 0
    else if LoadSubject(disk, resultsRoot, paths[0]).Err? then 0
    else
      var j := FirstFailure(disk, resultsRoot, paths[1..]);
      assert forall k :: 1 <= k < j + 1 ==> paths[k] == paths[1..][k - 1];
      j + 1
  }

  /** The subjects read from the first `n` raw files, one per file and in file order. */
  predicate Loaded(ss: seq<Subject>, disk: Disk, resultsRoot: string, paths: seq<string>, n: nat)
  {
    && n <= |paths| && |ss| == n
    && forall k :: 0 <= k < n ==> Ok(ss[k]) == LoadSubject(disk, resultsRoot, paths[k])
  }

  lemma LoadedStep(ss: seq<Subject>, disk: Disk, resultsRoot: string, paths: seq<string>, n: nat, s: Subject)
    requires Loaded(ss, disk, resultsRoot, paths, n) && n < |paths|
    requires Ok(s) == LoadSubject(disk, resultsRoot, paths[n])
    ensures Loaded(ss + [s], disk, resultsRoot, paths, n + 1)
  {
    assert forall k :: 0 <= k < n ==> (ss + [s])[k] == ss[k];
  }

  /** A raw file name: the subject's name, its scan date and the rest, separated by '_'. */
  function RawFileName(name: string, scanDate: string, rest: string): string
  {
    name + "_" + scanDate + "_" + rest
  }

  /** A raw file named by its three fields splits back into exactly those fields. */
  lemma RawFileNameSplit(dir: string, name: string, scanDate: string, rest: string)
    requires '_' !in name && '_' !in scanDate && '_' !in rest
    requires '/' !in name && '/' !in scanDate && '/' !in rest
    ensures Split(Basename(PathJoin(dir, RawFileName(name, scanDate, rest))), '_') == [name, scanDate, rest]
  {
    var file := RawFileName(name, scanDate, rest);
    assert file == name + ['_'] + (scanDate + ['_'] + rest);
    assert '/' !in file by {
      forall k | 0 <= k < |file| ensures file[k] != '/' {
        if k < |name| { assert file[k] == name[k]; }
        else if k == |name| { assert file[k] == '_'; }
        else if k < |name| + 1 + |scanDate| { assert file[k] == scanDate[k - |name| - 1]; }
        else if k == |name| + 1 + |scanDate| { assert file[k] == '_'; }
        else { assert file[k] == rest[k - |name| - 2 - |scanDate|]; }
      }
    }
    BasenameOfJoin(dir, file);
    SplitAround(name, '_', scanDate + ['_'] + rest);
    SplitAround(scanDate, '_', rest);
    SplitNoSep(name, '_');
    SplitNoSep(scanDate, '_');
    SplitNoSep(rest, '_');
  }

  /**
   * A well-named raw file holding a `results` matrix gives the subject whose
   * id is its name followed by its scan date, with that matrix.
   */
  lemma WellNamedRawFile(disk: Disk, resultsRoot: string, dir: string, name: string, scanDate: string, rest: string,
                         vars: map<string, Matrix>)
    requires '_' !in name && '_' !in scanDate && '_' !in rest
    requires '/' !in name && '/' !in scanDate && '/' !in rest
    requires PathJoin(dir, RawFileName(name, scanDate, rest)) in disk.files
    requires disk.files[PathJoin(dir, RawFileName(name, scanDate, rest))] == MatFile(vars)
    requires RAW_DATA_KEY in vars
    ensures LoadSubject(disk, resultsRoot, PathJoin(dir, RawFileName(name, scanDate, rest)))
            == Ok(Subject(name + scanDate, resultsRoot, vars[RAW_DATA_KEY]))
  {
    RawFileNameSplit(dir, name, scanDate, rest);
  }

  /** For a four-character name, the dashboard subject's name and scan date are the file's two fields. */
  lemma NameFromRawFile(name: string, scanDate: string, resultsRoot: string, pbr: Matrix)
    requires |name| == 4
    ensures Subject(name + scanDate, resultsRoot, pbr).Name() == name
    ensures Subject(name + scanDate, resultsRoot, pbr).ScanDate() == scanDate
  {
    var id := name + scanDate;
    if |id| > 4 {
      assert id[..4] == name && id[4..] == scanDate;
    } else {
      assert scanDate == [];
    }
  }

  /** `get_subject_by_id`: the position of the first subject with the id, if any. */
  function FirstWithId(ss: seq<Subject>, id: string): (r: Option<nat>)
    ensures r.None? <==> forall k :: 0 <= k < |ss| ==> ss[k].subjectId != id
    ensures r.Some? ==> r.value < |ss| && ss[r.value].subjectId == id
    ensures r.Some? ==> forall k :: 0 <= k < r.value ==> ss[k].subjectId != id
  {
    if ss == [] then None
    else if ss[0].subjectId == id then Some(0)
    else
      match FirstWithId(ss[1..], id)
      case None =>
        assert forall k :: 1 <= k < |ss| ==> ss[k] == ss[1..][k - 1];
        None
      case Some(j) =>
        assert forall k :: 1 <= k < j + 1 ==> ss[k] == ss[1..][k - 1];
        Some(j + 1)
  }

  // ------------------------------------------------------------ results sets

  /** An element of a candidate results set: a brain matrix, `None`, or an object of another class. */
  datatype Item = MatrixItem(b: BrainMatrix) | NoneItem | OtherItem

  /**
   * A value that stands as the results set: `None`, a list, another
   * iterable (a tuple, say), or an object that cannot be iterated.
   */
  datatype Candidate = NoneSet | ListValue(items: seq<Item>) | TupleValue(items: seq<Item>) | NotIterable

  /** Python's truth test on the stored value: `None` and empty collections are false. */
  predicate Falsy(c: Candidate)
  {
    c.NoneSet? || ((c.ListValue? || c.TupleValue?) && c.items == [])
  }

  /** A list of brain matrices, as `get_all_probability_maps` builds it. */
  function MatrixList(bs: seq<BrainMatrix>): (c: Candidate)
    ensures c.ListValue? && |c.items| == |bs|
    ensures forall i :: 0 <= i < |bs| ==> c.items[i] == MatrixItem(bs[i])
  {
    ListValue(seq(|bs|, i requires 0 <= i < |bs| => MatrixItem(bs[i])))
  }

  /** What `get_all_class_means` hands back: `None`, or a list of brain matrices and `None`s. */
  function MeansCandidate(means: Option<seq<Option<BrainMatrix>>>): (c: Candidate)
    ensures means.None? <==> c.NoneSet?
    ensures means.Some? ==> c.ListValue? && |c.items| == |means.value|
    ensures means.Some? ==> forall i :: 0 <= i < |means.value| ==>
      c.items[i] == (if means.value[i].Some? then MatrixItem(means.value[i].value) else NoneItem)
  {
    match means
    case None => NoneSet
    case Some(bs) =>
      ListValue(seq(|bs|, i requires 0 <= i < |bs| => if bs[i].Some? then MatrixItem(bs[i].value) else NoneItem))
  }

  /** The results sets `validate_results_set` lets through: a list of `n_classes` brain matrices. */
  predicate Acceptable(c: Candidate)
  {
    c.ListValue? && |c.items| == N_CLASSES && forall i :: 0 <= i < |c.items| ==> c.items[i].MatrixItem?
  }

  /**
   * `validate_results_set(value)`: iterating `None` or a non-iterable object
   * raises `TypeError`; anything but a list of brain matrices of length
   * `n_classes` fails an assertion.
   */
  function ValidateResultsSet(c: Candidate): (err: Option<Exception>)
    ensures err.None? <==> Acceptable(c)
    ensures c.NoneSet? || c.NotIterable? ==> err == Some(TypeError)
    ensures (c.ListValue? || c.TupleValue?) && !Acceptable(c) ==> err == Some(AssertionError)
  {
    match c
    case NoneSet => Some(TypeError)
    case NotIterable => Some(TypeError)
    case TupleValue(_) => Some(AssertionError)
    case ListValue(items) =>
      if exists i :: 0 <= i < |items| && !items[i].MatrixItem? then Some(AssertionError)
      else if |items| != N_CLASSES then Some(AssertionError)
      else None
  }

  /** Every brain matrix a candidate holds has rectangular data. */
  predicate WellShapedCandidate(c: Candidate)
  {
    (c.ListValue? || c.TupleValue?) ==>
      forall i :: 0 <= i < |c.items| ==> c.items[i].MatrixItem? ==> c.items[i].b.Valid()
  }

  /**
   * `results_set[class_idx]`: subscripting `None` or an object that is not a
   * sequence raises `TypeError`; an index outside the sequence raises
   * `IndexError`; negative indices count from the end.
   */
  function ItemAt(c: Candidate, classIdx: int): (r: Result<Item>)
    ensures (c.NoneSet? || c.NotIterable?) ==> r == Err(TypeError)
    ensures (c.ListValue? || c.TupleValue?) && PyIndex(classIdx, |c.items|).None? ==> r == Err(IndexError)
    ensures (c.ListValue? || c.TupleValue?) && PyIndex(classIdx, |c.items|).Some? ==>
      r == Ok(c.items[PyIndex(classIdx, |c.items|).value])
  {
    if c.NoneSet? || c.NotIterable? then Err(TypeError)
    else
      match PyIndex(classIdx, |c.items|)
      case None => Err(IndexError)
      case Some(k) => Ok(c.items[k])
  }

  /**
   * `get_slice` as written: it calls `create_slice` on the element, which
   * neither a brain matrix (whose method is `get_slice`) nor `None` has.
   */
  function SliceAsWritten(c: Candidate, classIdx: int): (r: Result<Matrix>)
    ensures r.Err?
    ensures ItemAt(c, classIdx).Ok? ==> r == Err(AttributeError)
  {
    match ItemAt(c, classIdx)
    case Err(e) => Err(e)
    case Ok(_) => Err(AttributeError)
  }

  /**
   * `get_slice(plane, class_idx, i_slice)` as intended: the element's own
   * `get_slice(plane, i_slice)`; an element without that method (`None`, an
   * object of another class) raises `AttributeError`.
   */
  function SliceOf(c: Candidate, plane: string, classIdx: int, iSlice: int): (r: Result<Matrix>)
    requires WellShapedCandidate(c)
    ensures ItemAt(c, classIdx).Err? ==> r == Err(ItemAt(c, classIdx).exception)
    ensures ItemAt(c, classIdx).Ok? && !ItemAt(c, classIdx).value.MatrixItem? ==> r == Err(AttributeError)
    ensures ItemAt(c, classIdx).Ok? && ItemAt(c, classIdx).value.MatrixItem? ==>
      ItemAt(c, classIdx).value.b.Valid() && r == ItemAt(c, classIdx).value.b.GetSlice(plane, iSlice)
  {
    match ItemAt(c, classIdx)
    case Err(e) => Err(e)
    case Ok(item) =>
      if item.MatrixItem? then item.b.GetSlice(plane, iSlice) else Err(AttributeError)
  }

  class DataAccessObject {
    /** `results_dir`: where the subjects' class maps are saved. */
    const resultsRoot: string
    /** `summary`: the cohort summary, read once when the class is defined. */
    const summary: SummaryResults
    var subjects: seq<Subject>
    /** `_results_set`: the stored results set (`None` until one is set or looked up). */
    var resultsSet: Candidate

    /** The stored results set is `None` or a list of `n_classes` elements, each well shaped. */
    predicate Valid()
      reads this
    {
      && WellShapedCandidate(resultsSet)
      && (resultsSet.NoneSet? || (resultsSet.ListValue? && |resultsSet.items| == N_CLASSES))
    }

    /** The object before `__init__` has loaded anything: no subjects and no results set. */
    constructor (resultsRoot: string, summary: SummaryResults)
      ensures Valid()
      ensures this.resultsRoot == resultsRoot && this.summary == summary
      ensures subjects == [] && resultsSet.NoneSet?
    {
      this.resultsRoot := resultsRoot;
      this.summary := summary;
      subjects := [];
      resultsSet := NoneSet;
    }

    /**
     * `load_subjects_data()` over the raw files `glob` found, taken in sorted
     * order: one subject per file until a file cannot be read, whose error
     * is raised with the subjects read before it kept.
     */
    method LoadSubjectsData(disk: Disk, paths: seq<string>) returns (err: Option<Exception>)
      modifies this
      ensures Loaded(subjects, disk, resultsRoot, Sort(paths), FirstFailure(disk, resultsRoot, Sort(paths)))
      ensures err.None? <==> FirstFailure(disk, resultsRoot, Sort(paths)) == |Sort(paths)|
      ensures err.Some? ==> err.value == LoadSubject(disk, resultsRoot, Sort(paths)[FirstFailure(disk, resultsRoot, Sort(paths))]).exception
      ensures resultsSet == old(resultsSet)
    {
      subjects := [];
      var sorted := Sort(paths);
      ghost var stop := FirstFailure(disk, resultsRoot, sorted);
      var i := 0;
      while i < |sorted|
        invariant i <= stop
        invariant Loaded(subjects, disk, resultsRoot, sorted, i)
        invariant resultsSet == old(resultsSet)
      {
        var loaded := LoadSubject(disk, resultsRoot, sorted[i]);
        if loaded.Err? {
          assert i == stop;
          return Some(loaded.exception);
        }
        LoadedStep(subjects, disk, resultsRoot, sorted, i, loaded.value);
        subjects := subjects + [loaded.value];
        i := i + 1;
      }
      err := None;
    }

    /** `DataAccessObject()`: a new object with the subjects of the raw files, or the error reading them raised. */
    static method Create(disk: Disk, paths: seq<string>, resultsRoot: string, summary: SummaryResults)
      returns (r: Result<DataAccessObject>)
      ensures r.Err? <==> FirstFailure(disk, resultsRoot, Sort(paths)) < |paths|
      ensures r.Ok? ==> fresh(r.value) && r.value.Valid() && r.value.resultsSet.NoneSet?
      ensures r.Ok? ==> r.value.resultsRoot == resultsRoot && r.value.summary == summary
      ensures r.Ok? ==> Loaded(r.value.subjects, disk, resultsRoot, Sort(paths), |paths|)
    {
      var dao := new DataAccessObject(resultsRoot, summary);
      var err := dao.LoadSubjectsData(disk, paths);
      assert |Sort(paths)| == |paths| by {
        assert |multiset(Sort(paths))| == |Sort(paths)| && |multiset(paths)| == |paths|;
      }
      if err.Some? {
        return Err(err.value);
      }
      r := Ok(dao);
    }

    /** `get_subject_by_id(subject_id)`: the first subject with that id, or `None`. */
    function GetSubjectById(id: string): (r: Option<Subject>)
      reads this
      ensures r.None? <==> forall k :: 0 <= k < |subjects| ==> subjects[k].subjectId != id
      ensures r.Some? ==> r.value == subjects[FirstWithId(subjects, id).value]
    {
      match FirstWithId(subjects, id)
      case None => None
      case Some(k) => Some(subjects[k])
    }

    /**
     * `get_results_set(identifier)`: the summary's means for "mean", a known
     * subject's maps for its id, and an empty list for anything else.
     */
    function GetResultsSet(disk: Disk, identifier: string): (r: Candidate)
      reads this
      ensures identifier == "mean" ==> r == MeansCandidate(summary.AllClassMeans(disk, AAL))
      ensures identifier != "mean" && GetSubjectById(identifier).Some? ==>
        r == MatrixList(GetSubjectById(identifier).value.AllProbabilityMaps(disk, AAL))
      ensures identifier != "mean" && GetSubjectById(identifier).None? ==> r == ListValue([])
    {
      if identifier == "mean" then MeansCandidate(summary.AllClassMeans(disk, AAL))
      else
        match GetSubjectById(identifier)
        case Some(s) => MatrixList(s.AllProbabilityMaps(disk, AAL))
        case None => ListValue([])
    }

    /** The `results_set` getter: a falsy stored value is replaced by the summary's means first. */
    method ResultsSet(disk: Disk) returns (r: Candidate)
      requires Valid() && disk.Valid()
      modifies this
      ensures Valid()
      ensures Falsy(old(resultsSet)) ==> resultsSet == MeansCandidate(summary.AllClassMeans(disk, AAL))
      ensures !Falsy(old(resultsSet)) ==> resultsSet == old(resultsSet)
      ensures r == resultsSet && subjects == old(subjects)
    {
      if Falsy(resultsSet) {
        resultsSet := MeansCandidate(summary.AllClassMeans(disk, AAL));
        MeansWellShaped(summary, disk);
      }
      r := resultsSet;
    }

    /** The `results_set` setter: a value is stored only once it validates; otherwise the error is raised. */
    method SetResultsSet(value: Candidate) returns (err: Option<Exception>)
      requires Valid() && WellShapedCandidate(value)
      modifies this
      ensures Valid()
      ensures err == ValidateResultsSet(value)
      ensures err.None? ==> resultsSet == value
      ensures err.Some? ==> resultsSet == old(resultsSet)
      ensures subjects == old(subjects)
    {
      err := ValidateResultsSet(value);
      if err.None? {
        resultsSet := value;
      }
    }

    /** `get_class_brain_martix(class_idx)`: the element of the results set the getter gives. */
    method GetClassBrainMatrix(disk: Disk, classIdx: int) returns (r: Result<Item>)
      requires Valid() && disk.Valid()
      modifies this
      ensures Valid()
      ensures Falsy(old(resultsSet)) ==> resultsSet == MeansCandidate(summary.AllClassMeans(disk, AAL))
      ensures !Falsy(old(resultsSet)) ==> resultsSet == old(resultsSet)
      ensures r == ItemAt(resultsSet, classIdx) && subjects == old(subjects)
    {
      var c := ResultsSet(disk);
      r := ItemAt(c, classIdx);
    }

    /** `get_slice(plane, class_idx, i_slice)`, calling the brain matrix's own `get_slice`. */
    method GetSlice(disk: Disk, plane: string, classIdx: int, iSlice: int) returns (r: Result<Matrix>)
      requires Valid() && disk.Valid()
      modifies this
      ensures Valid()
      ensures Falsy(old(resultsSet)) ==> resultsSet == MeansCandidate(summary.AllClassMeans(disk, AAL))
      ensures !Falsy(old(resultsSet)) ==> resultsSet == old(resultsSet)
      ensures r == SliceOf(resultsSet, plane, classIdx, iSlice) && subjects == old(subjects)
    {
      var item := GetClassBrainMatrix(disk, classIdx);
      match item
      case Err(e) => r := Err(e);
      case Ok(it) =>
        if it.MatrixItem? {
          r := it.b.GetSlice(plane, iSlice);
        } else {
          r := Err(AttributeError);
        }
    }
  }

  /** The summary's means read from a disk of rectangular arrays are well shaped. */
  lemma MeansWellShaped(s: SummaryResults, disk: Disk)
    requires disk.Valid()
    ensures WellShapedCandidate(MeansCandidate(s.AllClassMeans(disk, AAL)))
  {
    var means := s.AllClassMeans(disk, AAL);
    if means.Some? {
      var c := MeansCandidate(means);
      forall i | 0 <= i < |c.items| && c.items[i].MatrixItem? ensures c.items[i].b.Valid() {
        assert means.value[i] == s.MeanBrainMatrix(disk, i, AAL);
        assert disk.files[s.MeanProbabilityMapPath(i, AAL)].NpyVolume?;
        assert WellShaped(disk.files[s.MeanProbabilityMapPath(i, AAL)]);
      }
    }
  }

  /** The subject maps `get_results_set` gives for a known subject always validate. */
  lemma SubjectResultsSetAccepted(s: Subject, disk: Disk)
    ensures ValidateResultsSet(MatrixList(s.AllProbabilityMaps(disk, AAL))).None?
  {
    var c := MatrixList(s.AllProbabilityMaps(disk, AAL));
    assert forall i :: 0 <= i < |c.items| ==> c.items[i].MatrixItem?;
  }

  /** The empty list `get_results_set` gives for an unknown identifier fails validation. */
  lemma UnknownResultsSetRejected()
    ensures ValidateResultsSet(ListValue([])) == Some(AssertionError)
  {
  }

  /**
   * The summary's means validate exactly when every class's mean map is a
   * stored volume; when any AAL map file is missing they are `None`, and
   * validating them raises `TypeError`.
   */
  lemma MeansAccepted(s: SummaryResults, disk: Disk)
    ensures ValidateResultsSet(MeansCandidate(s.AllClassMeans(disk, AAL))).None? <==>
      forall i :: 0 <= i < N_CLASSES ==> s.MeanBrainMatrix(disk, i, AAL).Some?
    ensures !s.HasProbabilityMaps(disk) ==> ValidateResultsSet(MeansCandidate(s.AllClassMeans(disk, AAL))) == Some(TypeError)
  {
    var c := MeansCandidate(s.AllClassMeans(disk, AAL));
    if forall i :: 0 <= i < N_CLASSES ==> s.MeanBrainMatrix(disk, i, AAL).Some? {
      assert s.HasProbabilityMaps(disk) by {
        forall i | 0 <= i < N_CLASSES ensures disk.IsFile(s.AllMeanProbabilityMapPaths(AAL)[i]) {
          assert s.MeanBrainMatrix(disk, i, AAL).Some?;
          assert s.MeanProbabilityMap(disk, i, AAL).Some?;
          assert s.AllMeanProbabilityMapPaths(AAL)[i] == s.MeanProbabilityMapPath(i, AAL);
        }
      }
      assert forall i :: 0 <= i < |c.items| ==> c.items[i].MatrixItem?;
    } else if s.HasProbabilityMaps(disk) {
      var i :| 0 <= i < N_CLASSES && s.MeanBrainMatrix(disk, i, AAL).None?;
      assert c.items[i] == NoneItem;
    }
  }

  /** A value the getter stores or the setter accepts is never falsy, so it stays until it is replaced. */
  lemma AcceptedIsKept(c: Candidate)
    requires ValidateResultsSet(c).None?
    ensures !Falsy(c)
  {
  }

  /** A subject's maps read from a disk of rectangular arrays are well shaped. */
  lemma SubjectMapsWellShaped(s: Subject, disk: Disk)
    requires disk.Valid()
    ensures WellShapedCandidate(MatrixList(s.AllProbabilityMaps(disk, AAL)))
  {
    var cand := MatrixList(s.AllProbabilityMaps(disk, AAL));
    forall i | 0 <= i < |cand.items| ensures cand.items[i].b.Valid() {
      assert cand.items[i] == MatrixItem(s.BrainMatrixOf(disk, i, AAL));
      if s.ProbabilityMap(disk, i, AAL).Some? {
        assert WellShaped(disk.files[s.ProbabilityMapPath(i, AAL)]);
      }
    }
  }

  /**
   * The slice of class `c` of a subject's results set is the cut of that
   * class's saved map; as written, the same call fails for lack of a
   * `create_slice` method.
   */
  lemma SubjectSlice(s: Subject, disk: Disk, p: ResearchBrainMatrix.Plane, c: nat, iSlice: int, v: Volume)
    requires c < N_CLASSES && disk.Valid()
    requires s.ProbabilityMapPath(c, AAL) in disk.files && disk.files[s.ProbabilityMapPath(c, AAL)] == NpyVolume(v)
    ensures var cand := MatrixList(s.AllProbabilityMaps(disk, AAL));
      && WellShapedCandidate(cand)
      && SliceOf(cand, ResearchBrainMatrix.PlaneName(p), c, iSlice) == ResearchBrainMatrix.Slice(v, p, iSlice)
      && SliceAsWritten(cand, c) == Err(AttributeError)
  {
    var cand := MatrixList(s.AllProbabilityMaps(disk, AAL));
    SubjectMapsWellShaped(s, disk);
    var b := s.BrainMatrixOf(disk, c, AAL);
    assert ItemAt(cand, c) == Ok(MatrixItem(b));
    assert WellShaped(disk.files[s.ProbabilityMapPath(c, AAL)]);
    assert b.data == Some(v) && b.Valid();
    assert b.GetSlice(ResearchBrainMatrix.PlaneName(p), iSlice) == ResearchBrainMatrix.Slice(v, p, iSlice);
  }

  /**
   * The discrepancy on a concrete call: the sagittal slice 0 of a subject
   * whose class map is a non-empty volume exists, yet `get_slice` as
   * written raises `AttributeError`.
   */
  lemma CreateSliceMissing(s: Subject, disk: Disk, c: nat, v: Volume)
    requires c < N_CLASSES && disk.Valid() && v.nx > 0
    requires s.ProbabilityMapPath(c, AAL) in disk.files && disk.files[s.ProbabilityMapPath(c, AAL)] == NpyVolume(v)
    ensures var cand := MatrixList(s.AllProbabilityMaps(disk, AAL));
      WellShapedCandidate(cand) && SliceOf(cand, "sagittal", c, 0).Ok?
      && SliceAsWritten(cand, c) == Err(AttributeError)
  {
    SubjectSlice(s, disk, ResearchBrainMatrix.Sagittal, c, 0, v);
    assert ResearchBrainMatrix.Slice(v, ResearchBrainMatrix.Sagittal, 0).Ok?;
  }
}
