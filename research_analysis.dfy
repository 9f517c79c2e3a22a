/**
 * `CorticalLayersAnalysis` of the research package: the cohort of subjects'
 * matrices stacked into one regions x classes x subjects array, its mean and
 * standard deviation over subjects, and the mean class maps, which are loaded
 * from `results_dir/mean` when saved there before and otherwise created,
 * saved and kept. Every derived value is computed on first use and then kept.
 */
module ResearchAnalysis {
  import opened Wrappers
  import opened Grids
  import opened Text
  import opened FileSystem
  import opened ClassMaps
  import opened ResearchPbr
  import ResearchAtlas

  // ------------------------------------------------------------ stacking

  predicate AllValid(pbrs: seq<Pbr>)
  {
    forall k :: 0 <= k < |pbrs| ==> pbrs[k].Valid()
  }

  /** `[pbr.data for pbr in pbrs]`. */
  function Datas(pbrs: seq<Pbr>): (ms: seq<Matrix>)
    ensures |ms| == |pbrs| && forall k :: 0 <= k < |pbrs| ==> ms[k] == pbrs[k].data
  {
    seq(|pbrs|, k requires 0 <= k < |pbrs| => pbrs[k].data)
  }

  /**
   * `get_stacked_pbrs`: `np.stack(..., axis=-1)`, entry [r][c][s] being
   * subject s's entry [r][c]; an empty cohort or matrices of different
   * shapes cannot be stacked.
   */
  function StackPbrs(pbrs: seq<Pbr>): (r: Result<Volume>)
    requires AllValid(pbrs)
    ensures r.Ok? <==> |pbrs| > 0 && forall k :: 0 <= k < |pbrs| ==> pbrs[k].data.rows == pbrs[0].data.rows
    ensures r.Err? ==> r.exception == ValueError
    ensures r.Ok? ==> r.value.Valid() && r.value.nx == pbrs[0].data.rows && r.value.ny == N_CLASSES && r.value.nz == |pbrs|
    ensures r.Ok? ==> forall a, c, s :: 0 <= a < r.value.nx && 0 <= c < N_CLASSES && 0 <= s < |pbrs| ==>
      r.value.at[a][c][s] == pbrs[s].data.at[a][c]
  {
    if |pbrs| == 0 then Err(ValueError)
    else if exists k :: 0 <= k < |pbrs| && pbrs[k].data.rows != pbrs[0].data.rows then Err(ValueError)
    else Ok(StackMatrices(Datas(pbrs), pbrs[0].data.rows, N_CLASSES))
  }

  /** A cohort of one matrix repeated k times has that matrix as its mean. */
  lemma MeanOfRepeated(p: Pbr, k: nat)
    requires p.Valid() && k >= 1
    ensures var pbrs := seq(k, s => p);
      && StackPbrs(pbrs).Ok?
      && MeanLast(StackPbrs(pbrs).value) == p.data
  {
    var pbrs := seq(k, s => p);
    var v := StackPbrs(pbrs).value;
    var m := MeanLast(v);
    forall a, c | 0 <= a < p.data.rows && 0 <= c < N_CLASSES ensures m.at[a][c] == p.data.at[a][c] {
      MeanConstant(v.at[a][c], p.data.at[a][c]);
    }
    MatrixExt(m, p.data);
  }

  /** ... and the root of zero as its standard deviation everywhere. */
  lemma StdOfRepeated(p: Pbr, k: nat, sqrt: real -> real, a: nat, c: nat)
    requires p.Valid() && k >= 1 && a < p.data.rows && c < N_CLASSES
    ensures var pbrs := seq(k, s => p);
      && StackPbrs(pbrs).Ok?
      && StdLast(StackPbrs(pbrs).value, sqrt).at[a][c] == sqrt(0.0)
  {
    var pbrs := seq(k, s => p);
    var v := StackPbrs(pbrs).value;
    StdConstant(v.at[a][c], p.data.at[a][c], sqrt);
  }

  // ------------------------------------------------------- saving maps

  /** `os.path.join(path, f'class_{class_idx}_{atlas.name}')`. */
  function MapFileName(path: string, pm: ProbabilityMap): string
  {
    PathJoin(path, "class_" + ClassIndexText(pm.classIdx) + "_" + pm.atlasName)
  }

  /** The disk after `save_probability_maps`: each map saved in list order. */
  function SavedProbabilityMaps(disk: Disk, maps: seq<ProbabilityMap>, path: string): (d: Disk)
    ensures d.dirs == disk.dirs
  {
    if maps == [] then disk
    else
      var n := |maps| - 1;
      Save(SavedProbabilityMaps(disk, maps[..n], path), MapFileName(path, maps[n]), NpyVolume(maps[n].data))
  }

  /** The saved arrays of a list of maps. */
  function Contents(maps: seq<ProbabilityMap>): (cs: seq<Content>)
    ensures |cs| == |maps| && forall i :: 0 <= i < |maps| ==> cs[i] == NpyVolume(maps[i].data)
  {
    seq(|maps|, i requires 0 <= i < |maps| => NpyVolume(maps[i].data))
  }

  /** Maps created for classes 0, 1, ... in order, on one atlas. */
  predicate CreatedInOrder(maps: seq<ProbabilityMap>, atlasName: string)
  {
    forall i :: 0 <= i < |maps| ==> maps[i].classIdx == IntIndex(i) && maps[i].atlasName == atlasName
  }

  /** Saving created maps writes exactly the class files `class_{i}_{atlas}`. */
  lemma {:induction false} SavedCreatedMaps(disk: Disk, maps: seq<ProbabilityMap>, path: string, atlasName: string)
    requires CreatedInOrder(maps, atlasName)
    ensures SavedProbabilityMaps(disk, maps, path) == SavedMaps(disk, path, atlasName, Contents(maps))
  {
    if maps != [] {
      var n := |maps| - 1;
      SavedCreatedMaps(disk, maps[..n], path, atlasName);
      assert Contents(maps)[..n] == Contents(maps[..n]);
      assert MapFileName(path, maps[n]) == PathJoin(path, ClassFileName(n, atlasName));
    }
  }

  // ------------------------------------------------------ loading maps

  /**
   * The result of `load_probability_maps` over paths already in the order
   * visited: a path that is not a file is skipped; a file's base name must
   * split on '_' into three fields, the middle one kept as the class index
   * text; each file must hold a 3-D array.
   */
  function LoadedMaps(disk: Disk, paths: seq<string>, atlasName: string): (r: Result<seq<ProbabilityMap>>)
    ensures r.Ok? ==> |r.value| <= |paths|
    ensures r.Ok? ==> forall k :: 0 <= k < |r.value| ==> r.value[k].classIdx.StrIndex? && r.value[k].atlasName == atlasName
    ensures r.Err? ==> r.exception == ValueError
    decreases |paths|
  {
    if paths == [] then Ok([])
    else
      var p := paths[0];
      if !disk.IsFile(p) then LoadedMaps(disk, paths[1..], atlasName)
      else
        var fields := Split(Basename(p), '_');
        if |fields| != 3 then Err(ValueError)
        else if !disk.files[p].NpyVolume? then Err(ValueError)
        else
          match LoadedMaps(disk, paths[1..], atlasName)
          case Err(e) => Err(e)
          case Ok(rest) => Ok([ProbabilityMap(disk.files[p].v, StrIndex(fields[1]), atlasName)] + rest)
  }

  /** The class files of classes 0 .. n - 1 in a directory, in class order. */
  function ClassFiles(dir: string, atlasName: string, n: nat): (ps: seq<string>)
    ensures |ps| == n && forall i :: 0 <= i < n ==> ps[i] == ClassMapFile(dir, i, atlasName)
  {
    seq(n, i requires 0 <= i < n => ClassMapFile(dir, i, atlasName))
  }

  lemma {:induction false} LexLePrefix(p: string, a: string, b: string)
    requires LexLe(a, b)
    ensures LexLe(p + a, p + b)
  {
    if p == [] {
      assert p + a == a && p + b == b;
    } else {
      assert (p + a)[0] == p[0] == (p + b)[0];
      assert (p + a)[1..] == p[1..] + a;
      assert (p + b)[1..] == p[1..] + b;
      LexLePrefix(p[1..], a, b);
    }
  }

  /** Single-digit class files sort in class order. */
  lemma ClassFilesSorted(dir: string, atlasName: string, n: nat)
    requires n <= 10
    ensures SortedLex(ClassFiles(dir, atlasName, n))
  {
    var ps := ClassFiles(dir, atlasName, n);
    var prefix := PathJoin(dir, "class_");
    var suffix := "_" + atlasName + ".npy";
    forall i, j | 0 <= i < j < n ensures LexLe(ps[i], ps[j]) {
      SmallNatToString(i);
      SmallNatToString(j);
      var di, dj := NatToString(i), NatToString(j);
      assert ClassFileName(i, atlasName) + ".npy" == "class_" + (di + suffix);
      assert ClassFileName(j, atlasName) + ".npy" == "class_" + (dj + suffix);
      PathJoinAppend(dir, "class_", di + suffix);
      PathJoinAppend(dir, "class_", dj + suffix);
      assert LexLe(di + suffix, dj + suffix);
      LexLePrefix(prefix, di + suffix, dj + suffix);
    }
  }

  /** The base name of class file i splits into "class", the index text, and the atlas file name. */
  lemma ClassFileFields(dir: string, i: nat, atlasName: string)
    requires '/' !in atlasName && '.' !in atlasName && '_' !in atlasName
    ensures Split(Basename(ClassMapFile(dir, i, atlasName)), '_') == ["class", NatToString(i), atlasName + ".npy"]
  {
    var f := ClassFileName(i, atlasName);
    ClassFileNameChars(i, atlasName);
    assert '/' !in f + ".npy";
    BasenameOfJoin(dir, f + ".npy");
    assert f + ".npy" == ClassFileName(i, atlasName + ".npy");
    ClassFileNameSplit(i, atlasName + ".npy");
  }

  /** Every path is a file holding a volume, with a base name of three '_'-separated fields. */
  predicate AllMapFiles(disk: Disk, ps: seq<string>)
  {
    forall j :: 0 <= j < |ps| ==>
      ps[j] in disk.files && disk.files[ps[j]].NpyVolume? && |Split(Basename(ps[j]), '_')| == 3
  }

  /** The maps such files are read back as. */
  function ReadBack(disk: Disk, ps: seq<string>, atlasName: string): (r: seq<ProbabilityMap>)
    requires AllMapFiles(disk, ps)
  {
    seq(|ps|, j requires 0 <= j < |ps| =>
      ProbabilityMap(disk.files[ps[j]].v, StrIndex(Split(Basename(ps[j]), '_')[1]), atlasName))
  }

  /** Maps as their class files give them back: the same data, the class index now the text of the file name. */
  function Reloaded(maps: seq<ProbabilityMap>, atlasName: string): (r: seq<ProbabilityMap>)
    ensures |r| == |maps|
    ensures forall i :: 0 <= i < |maps| ==> r[i].data == maps[i].data && r[i].classIdx == StrIndex(NatToString(i))
    ensures forall i :: 0 <= i < |maps| ==> r[i].atlasName == atlasName
  {
    seq(|maps|, i requires 0 <= i < |maps| => ProbabilityMap(maps[i].data, StrIndex(NatToString(i)), atlasName))
  }

  /** Loading files that are all map files reads each of them, in order. */
  lemma {:induction false} LoadedFiles(disk: Disk, ps: seq<string>, atlasName: string)
    requires AllMapFiles(disk, ps)
    ensures LoadedMaps(disk, ps, atlasName) == Ok(ReadBack(disk, ps, atlasName))
  {
    if ps != [] {
      assert AllMapFiles(disk, ps[1..]) by {
        forall j | 0 <= j < |ps| - 1 ensures ps[1..][j] == ps[j + 1] { }
      }
      LoadedFiles(disk, ps[1..], atlasName);
      assert ReadBack(disk, ps, atlasName) == [ReadBack(disk, ps, atlasName)[0]] + ReadBack(disk, ps[1..], atlasName);
    }
  }

  /**
   * Round trip: the maps created for the six classes, saved into a directory
   * and loaded back from the six class files (in whatever order they are
   * listed), come back in class order with their data, their class index now
   * the text of the file name.
   */
  lemma LoadAfterSave(disk: Disk, maps: seq<ProbabilityMap>, dir: string, atlasName: string, paths: seq<string>)
    requires |maps| == N_CLASSES && CreatedInOrder(maps, atlasName)
    requires '/' !in atlasName && '.' !in atlasName && '_' !in atlasName
    requires multiset(paths) == multiset(ClassFiles(dir, atlasName, N_CLASSES))
    ensures LoadedMaps(SavedProbabilityMaps(disk, maps, dir), Sort(paths), atlasName)
      == Ok(Reloaded(maps, atlasName))
  {
    var saved := SavedProbabilityMaps(disk, maps, dir);
    var ps := ClassFiles(dir, atlasName, N_CLASSES);
    assert Sort(paths) == ps by {
      ClassFilesSorted(dir, atlasName, N_CLASSES);
      SortedUnique(Sort(paths), ps);
    }
    SavedClassFiles(disk, maps, dir, atlasName);
    LoadedFiles(saved, ps, atlasName);
  }

  /** After saving, every class file is a map file whose fields name its class. */
  lemma SavedClassFiles(disk: Disk, maps: seq<ProbabilityMap>, dir: string, atlasName: string)
    requires CreatedInOrder(maps, atlasName)
    requires '/' !in atlasName && '.' !in atlasName && '_' !in atlasName
    ensures var saved := SavedProbabilityMaps(disk, maps, dir);
      var ps := ClassFiles(dir, atlasName, |maps|);
      && AllMapFiles(saved, ps)
      && ReadBack(saved, ps, atlasName)
        == Reloaded(maps, atlasName)
  {
    var saved := SavedProbabilityMaps(disk, maps, dir);
    var ps := ClassFiles(dir, atlasName, |maps|);
    SavedCreatedMaps(disk, maps, dir, atlasName);
    forall i | 0 <= i < |maps|
      ensures ps[i] in saved.files && saved.files[ps[i]] == NpyVolume(maps[i].data)
      ensures Split(Basename(ps[i]), '_') == ["class", NatToString(i), atlasName + ".npy"]
    {
      SavedMapFile(disk, dir, atlasName, Contents(maps), i);
      ClassFileFields(dir, i, atlasName);
    }
    ReadBackClassFiles(saved, ps, maps, atlasName);
  }

  /** Files holding the maps' data, named by their classes, are read back as `Reloaded`. */
  lemma ReadBackClassFiles(saved: Disk, ps: seq<string>, maps: seq<ProbabilityMap>, atlasName: string)
    requires |ps| == |maps|
    requires forall i :: 0 <= i < |maps| ==> ps[i] in saved.files && saved.files[ps[i]] == NpyVolume(maps[i].data)
    requires forall i :: 0 <= i < |maps| ==> Split(Basename(ps[i]), '_') == ["class", NatToString(i), atlasName + ".npy"]
    ensures AllMapFiles(saved, ps) && ReadBack(saved, ps, atlasName) == Reloaded(maps, atlasName)
  {
    var got := ReadBack(saved, ps, atlasName);
    var expected := Reloaded(maps, atlasName);
    forall i | 0 <= i < |maps|
      ensures got[i] == expected[i]
    {
      assert Split(Basename(ps[i]), '_')[1] == NatToString(i);
    }
  }

  // ------------------------------------------------- derived statistics

  /** `stacked_pbrs.mean(axis=2)`: each entry the mean over subjects of that entry. */
  function MeanOf(pbrs: seq<Pbr>): (r: Result<Matrix>)
    requires AllValid(pbrs)
    ensures r.Ok? <==> StackPbrs(pbrs).Ok?
    ensures r.Err? ==> r.exception == ValueError
    ensures r.Ok? ==> r.value.Valid() && r.value.rows == pbrs[0].data.rows && r.value.cols == N_CLASSES
    ensures r.Ok? ==> forall a, c :: 0 <= a < r.value.rows && 0 <= c < N_CLASSES ==>
      r.value.at[a][c] == Mean(Across(pbrs, a, c))
  {
    match StackPbrs(pbrs)
    case Err(e) => Err(e)
    case Ok(v) =>
      var m := MeanLast(v);
      assert forall a, c :: 0 <= a < v.nx && 0 <= c < N_CLASSES ==> v.at[a][c] == Across(pbrs, a, c) by {
        forall a, c | 0 <= a < v.nx && 0 <= c < N_CLASSES ensures v.at[a][c] == Across(pbrs, a, c) {
          assert |v.at[a][c]| == |pbrs|;
        }
      }
      Ok(m)
  }

  /** `stacked_pbrs.std(axis=2)`: each entry the deviation over subjects of that entry. */
  function StdOf(pbrs: seq<Pbr>, sqrt: real -> real): (r: Result<Matrix>)
    requires AllValid(pbrs)
    ensures r.Ok? <==> StackPbrs(pbrs).Ok?
    ensures r.Err? ==> r.exception == ValueError
    ensures r.Ok? ==> r.value.Valid() && r.value.rows == pbrs[0].data.rows && r.value.cols == N_CLASSES
    ensures r.Ok? ==> forall a, c :: 0 <= a < r.value.rows && 0 <= c < N_CLASSES ==>
      r.value.at[a][c] == Std(Across(pbrs, a, c), sqrt)
  {
    match StackPbrs(pbrs)
    case Err(e) => Err(e)
    case Ok(v) =>
      var m := StdLast(v, sqrt);
      assert forall a, c :: 0 <= a < v.nx && 0 <= c < N_CLASSES ==> v.at[a][c] == Across(pbrs, a, c) by {
        forall a, c | 0 <= a < v.nx && 0 <= c < N_CLASSES ensures v.at[a][c] == Across(pbrs, a, c) {
          assert |v.at[a][c]| == |pbrs|;
        }
      }
      Ok(m)
  }

  /** Entry [a][c] of every subject's matrix, in cohort order. */
  function Across(pbrs: seq<Pbr>, a: nat, c: nat): (xs: seq<real>)
    requires AllValid(pbrs) && c < N_CLASSES
    requires forall k :: 0 <= k < |pbrs| ==> a < pbrs[k].data.rows
    ensures |xs| == |pbrs|
  {
    seq(|pbrs|, s requires 0 <= s < |pbrs| => pbrs[s].data.at[a][c])
  }

  /** `create_mean_probability_map(c)`: class c of the mean matrix, through the atlas. */
  function MeanClassMap(atlas: ResearchAtlas.BrainAtlas, pbrs: seq<Pbr>, c: nat): (r: Result<ProbabilityMap>)
    requires atlas.Valid() && AllValid(pbrs)
    ensures MeanOf(pbrs).Err? ==> r == Err(ValueError)
    ensures MeanOf(pbrs).Ok? && c >= N_CLASSES ==> r == Err(IndexError)
    ensures MeanOf(pbrs).Ok? && c < N_CLASSES ==> r == Ok(ClassMap(atlas, MeanOf(pbrs).value, c))
  {
    match MeanOf(pbrs)
    case Err(e) => Err(e)
    case Ok(m) => if c < N_CLASSES then Ok(ClassMap(atlas, m, c)) else Err(IndexError)
  }

  /** The maps created so far: map k is the mean map of class k. */
  predicate CreatedSoFar(atlas: ResearchAtlas.BrainAtlas, pbrs: seq<Pbr>, maps: seq<ProbabilityMap>)
    requires atlas.Valid() && AllValid(pbrs)
  {
    forall k :: 0 <= k < |maps| ==> Ok(maps[k]) == MeanClassMap(atlas, pbrs, k)
  }

  /** Creating the next class's map extends the maps created so far. */
  lemma CreatedOneMore(atlas: ResearchAtlas.BrainAtlas, pbrs: seq<Pbr>, maps: seq<ProbabilityMap>, pm: ProbabilityMap)
    requires atlas.Valid() && AllValid(pbrs) && CreatedSoFar(atlas, pbrs, maps)
    requires Ok(pm) == MeanClassMap(atlas, pbrs, |maps|)
    ensures CreatedSoFar(atlas, pbrs, maps + [pm])
  {
    var next := maps + [pm];
    forall k | 0 <= k < |next|
      ensures Ok(next[k]) == MeanClassMap(atlas, pbrs, k)
    {
      if k < |maps| {
        assert next[k] == maps[k];
      }
    }
  }

  /** All six maps created: they are the mean maps. */
  lemma CreatedAll(atlas: ResearchAtlas.BrainAtlas, pbrs: seq<Pbr>, maps: seq<ProbabilityMap>)
    requires atlas.Valid() && AllValid(pbrs) && MeanOf(pbrs).Ok?
    requires |maps| == N_CLASSES && CreatedSoFar(atlas, pbrs, maps)
    ensures MeanMaps(atlas, pbrs) == Ok(maps)
  {
    var all := AllClassMaps(atlas, MeanOf(pbrs).value);
    forall k | 0 <= k < N_CLASSES
      ensures maps[k] == all[k]
    {
      assert Ok(maps[k]) == MeanClassMap(atlas, pbrs, k);
    }
    assert maps == all;
  }

  /** `create_mean_probability_maps`: the six class maps of the mean matrix. */
  function MeanMaps(atlas: ResearchAtlas.BrainAtlas, pbrs: seq<Pbr>): (r: Result<seq<ProbabilityMap>>)
    requires atlas.Valid() && AllValid(pbrs)
    ensures r.Ok? <==> MeanOf(pbrs).Ok?
    ensures r.Err? ==> r.exception == ValueError
    ensures r.Ok? ==> |r.value| == N_CLASSES && CreatedInOrder(r.value, atlas.name)
    ensures r.Ok? ==> forall i :: 0 <= i < N_CLASSES ==> Ok(r.value[i]) == MeanClassMap(atlas, pbrs, i)
  {
    match MeanOf(pbrs)
    case Err(e) => Err(e)
    case Ok(m) => Ok(AllClassMaps(atlas, m))
  }

  // ------------------------------------------------------- the mean maps

  /** `os.path.join(results_dir, 'mean')`. */
  function MeanDir(resultsDir: string): string
  {
    PathJoin(resultsDir, "mean")
  }

  /**
   * `load_mean_probability_maps`, given the `*.npy` listing of the mean
   * directory: `None` (here `Ok(None)`) unless the directory exists and the
   * listing is not empty.
   */
  function SerializedMaps(disk: Disk, files: seq<string>, atlasName: string, resultsDir: string): (r: Result<Option<seq<ProbabilityMap>>>)
    ensures !disk.IsDir(MeanDir(resultsDir)) || files == [] ==> r == Ok(None)
    ensures disk.IsDir(MeanDir(resultsDir)) && files != [] ==>
      match LoadedMaps(disk, Sort(files), atlasName)
      case Err(e) => r == Err(e)
      case Ok(maps) => r == Ok(Some(maps))
  {
    if disk.IsDir(MeanDir(resultsDir)) && files != [] then
      match LoadedMaps(disk, Sort(files), atlasName)
      case Err(e) => Err(e)
      case Ok(maps) => Ok(Some(maps))
    else Ok(None)
  }

  /** Whether `load_mean_probability_maps` found maps (`if serialized:`). */
  predicate Truthy(s: Result<Option<seq<ProbabilityMap>>>)
  {
    s.Ok? && s.value.Some? && s.value.value != []
  }

  /**
   * The disk and the result of `mean_probability_maps` when nothing is kept
   * yet: the saved maps when there are any; otherwise the mean maps are
   * created, the mean directory made when missing (a file in its place stops
   * `os.makedirs`), and the maps saved into it.
   */
  function FreshMeanMaps(disk: Disk, files: seq<string>, atlas: ResearchAtlas.BrainAtlas, pbrs: seq<Pbr>, resultsDir: string)
    : (o: (Disk, Result<seq<ProbabilityMap>>))
    requires atlas.Valid() && AllValid(pbrs)
    ensures o.0.dirs == disk.dirs || o.0.dirs == disk.dirs + {MeanDir(resultsDir)}
    ensures Truthy(SerializedMaps(disk, files, atlas.name, resultsDir)) ==>
      o == (disk, Ok(SerializedMaps(disk, files, atlas.name, resultsDir).value.value))
    ensures !Truthy(SerializedMaps(disk, files, atlas.name, resultsDir)) && o.1.Ok? ==>
      o.1 == MeanMaps(atlas, pbrs) && o.0.IsDir(MeanDir(resultsDir))
  {
    var serialized := SerializedMaps(disk, files, atlas.name, resultsDir);
    if serialized.Err? then (disk, Err(serialized.exception))
    else if Truthy(serialized) then (disk, Ok(serialized.value.value))
    else CreatedMeanMaps(disk, atlas, pbrs, resultsDir)
  }

  /** The created branch of `FreshMeanMaps`: the mean maps, saved into the mean directory. */
  function CreatedMeanMaps(disk: Disk, atlas: ResearchAtlas.BrainAtlas, pbrs: seq<Pbr>, resultsDir: string)
    : (o: (Disk, Result<seq<ProbabilityMap>>))
    requires atlas.Valid() && AllValid(pbrs)
    ensures o.1.Ok? ==> o.1 == MeanMaps(atlas, pbrs) && o.0.IsDir(MeanDir(resultsDir))
    ensures o.1.Err? ==> o.0 == disk
    ensures o.1 == Err(FileExistsError) <==>
      MeanMaps(atlas, pbrs).Ok? && !disk.IsDir(MeanDir(resultsDir)) && MeanDir(resultsDir) in disk.files
  {
    match MeanMaps(atlas, pbrs)
    case Err(e) => (disk, Err(e))
    case Ok(created) =>
      var path := MeanDir(resultsDir);
      if disk.IsDir(path) then (SavedProbabilityMaps(disk, created, path), Ok(created))
      else if path in disk.files then (disk, Err(FileExistsError))
      else (SavedProbabilityMaps(disk.(dirs := disk.dirs + {path}), created, path), Ok(created))
  }

  /**
   * With nothing saved yet, the mean maps are created and saved; a later
   * session that lists the mean directory's six class files (in any order)
   * loads them back: the same data in class order.
   */
  lemma MeanMapsPersist(disk: Disk, atlas: ResearchAtlas.BrainAtlas, pbrs: seq<Pbr>, resultsDir: string, paths: seq<string>)
    requires atlas.Valid() && AllValid(pbrs) && StackPbrs(pbrs).Ok?
    requires '/' !in atlas.name && '.' !in atlas.name && '_' !in atlas.name
    requires MeanDir(resultsDir) !in disk.files
    requires multiset(paths) == multiset(ClassFiles(MeanDir(resultsDir), atlas.name, N_CLASSES))
    ensures MeanMaps(atlas, pbrs).Ok?
    ensures FreshMeanMaps(disk, [], atlas, pbrs, resultsDir).1 == MeanMaps(atlas, pbrs)
    ensures var d := FreshMeanMaps(disk, [], atlas, pbrs, resultsDir).0;
      FreshMeanMaps(d, paths, atlas, pbrs, resultsDir)
        == (d, Ok(Reloaded(MeanMaps(atlas, pbrs).value, atlas.name)))
  {
    var path := MeanDir(resultsDir);
    var created := MeanMaps(atlas, pbrs).value;
    var base := if disk.IsDir(path) then disk else disk.(dirs := disk.dirs + {path});
    var d := SavedProbabilityMaps(base, created, path);
    FreshCreates(disk, atlas, pbrs, resultsDir);
    SavedReloads(base, atlas, pbrs, created, resultsDir, paths);
  }

  /** With no listing, the fresh mean maps are created and saved into the (made) mean directory. */
  lemma FreshCreates(disk: Disk, atlas: ResearchAtlas.BrainAtlas, pbrs: seq<Pbr>, resultsDir: string)
    requires atlas.Valid() && AllValid(pbrs) && StackPbrs(pbrs).Ok?
    requires MeanDir(resultsDir) !in disk.files
    ensures var path := MeanDir(resultsDir);
      var base := if disk.IsDir(path) then disk else disk.(dirs := disk.dirs + {path});
      FreshMeanMaps(disk, [], atlas, pbrs, resultsDir) == (SavedProbabilityMaps(base, MeanMaps(atlas, pbrs).value, path), MeanMaps(atlas, pbrs))
  {
    assert SerializedMaps(disk, [], atlas.name, resultsDir) == Ok(None);
  }

  /** Saved mean maps are found again by the fresh path of a later session. */
  lemma SavedReloads(base: Disk, atlas: ResearchAtlas.BrainAtlas, pbrs: seq<Pbr>, created: seq<ProbabilityMap>, resultsDir: string, paths: seq<string>)
    requires |created| == N_CLASSES && CreatedInOrder(created, atlas.name) && atlas.Valid() && AllValid(pbrs)
    requires '/' !in atlas.name && '.' !in atlas.name && '_' !in atlas.name
    requires base.IsDir(MeanDir(resultsDir))
    requires multiset(paths) == multiset(ClassFiles(MeanDir(resultsDir), atlas.name, N_CLASSES))
    ensures var d := SavedProbabilityMaps(base, created, MeanDir(resultsDir));
      FreshMeanMaps(d, paths, atlas, pbrs, resultsDir)
        == (d, Ok(Reloaded(created, atlas.name)))
  {
    var path := MeanDir(resultsDir);
    var d := SavedProbabilityMaps(base, created, path);
    assert paths != [] by {
      assert ClassFiles(path, atlas.name, N_CLASSES)[0] in multiset(paths);
    }
    var loaded := Reloaded(created, atlas.name);
    assert LoadedMaps(d, Sort(paths), atlas.name) == Ok(loaded) by {
      LoadAfterSave(base, created, path, atlas.name, paths);
    }
    assert d.IsDir(path);
    assert SerializedMaps(d, paths, atlas.name, resultsDir) == Ok(Some(loaded));
    assert loaded != [] by { assert |loaded| == N_CLASSES; }
  }

  /**
   * The kept values of an analysis and the cohorts they were computed from:
   * the kept stack is the stack of its cohort; the kept mean and deviation
   * are those of the stack they were computed from.
   */
  ghost predicate KeptFrom(stackedData: Option<Volume>, stackedFrom: seq<Pbr>, meanPbr: Option<Matrix>, meanFrom: seq<Pbr>,
                           stdPbr: Option<Matrix>, stdFrom: seq<Pbr>, sqrt: real -> real)
  {
    && (stackedData.Some? ==> AllValid(stackedFrom) && StackPbrs(stackedFrom) == Ok(stackedData.value))
    && (meanPbr.Some? ==> AllValid(meanFrom) && MeanOf(meanFrom) == Ok(meanPbr.value))
    && (stdPbr.Some? ==> AllValid(stdFrom) && StdOf(stdFrom, sqrt) == Ok(stdPbr.value))
  }

  /**
   * `CorticalLayersAnalysis`: a cohort of subjects' matrices and the values
   * derived from it, each kept once computed. The matrices may be
   * reassigned afterwards; a kept value is not recomputed then, so it
   * stays the one of the cohort it was computed from (the ghost fields
   * record that cohort).
   */
  class CorticalLayersAnalysis {
    var pbrs: seq<Pbr>
    /** The atlas the mean maps are projected onto and tagged with. */
    const atlas: ResearchAtlas.BrainAtlas
    const resultsDir: string
    /** numpy's square root, which the model does not define. */
    const sqrt: real -> real

    var stackedData: Option<Volume>
    var meanPbr: Option<Matrix>
    var stdPbr: Option<Matrix>
    var meanProbabilityMaps: Option<seq<ProbabilityMap>>

    /** The cohorts the kept stack, mean and deviation were computed from. */
    ghost var stackedFrom: seq<Pbr>
    ghost var meanFrom: seq<Pbr>
    ghost var stdFrom: seq<Pbr>

    ghost predicate Valid()
      reads this
    {
      && atlas.Valid() && AllValid(pbrs)
      && KeptFrom(stackedData, stackedFrom, meanPbr, meanFrom, stdPbr, stdFrom, sqrt)
    }

    /** The cohort whose stack `stacked_pbrs` returns: the kept one's, else the current matrices. */
    ghost function StackCohort(): (r: seq<Pbr>)
      reads this
      requires Valid()
      ensures AllValid(r)
    {
      if stackedData.Some? then stackedFrom else pbrs
    }

    /** The cohort whose mean `mean_pbr` returns. */
    ghost function MeanCohort(): (r: seq<Pbr>)
      reads this
      requires Valid()
      ensures AllValid(r)
    {
      if meanPbr.Some? then meanFrom else StackCohort()
    }

    /** The cohort whose deviation `std_pbr` returns. */
    ghost function StdCohort(): (r: seq<Pbr>)
      reads this
      requires Valid()
      ensures AllValid(r)
    {
      if stdPbr.Some? then stdFrom else StackCohort()
    }

    /** `__init__(pbr_matrices)`: nothing is computed yet. */
    constructor (pbrs: seq<Pbr>, atlas: ResearchAtlas.BrainAtlas, resultsDir: string, sqrt: real -> real)
      requires atlas.Valid() && AllValid(pbrs)
      ensures Valid()
      ensures this.pbrs == pbrs && this.atlas == atlas && this.resultsDir == resultsDir && this.sqrt == sqrt
      ensures stackedData.None? && meanPbr.None? && stdPbr.None? && meanProbabilityMaps.None?
    {
      this.pbrs := pbrs;
      this.atlas := atlas;
      this.resultsDir := resultsDir;
      this.sqrt := sqrt;
      stackedData := None;
      meanPbr := None;
      stdPbr := None;
      meanProbabilityMaps := None;
    }

    /** Assigning `self.pbrs`: nothing kept is dropped or recomputed. */
    method SetPbrs(ps: seq<Pbr>)
      requires Valid() && AllValid(ps)
      modifies this
      ensures Valid() && pbrs == ps
      ensures stackedData == old(stackedData) && meanPbr == old(meanPbr) && stdPbr == old(stdPbr)
      ensures meanProbabilityMaps == old(meanProbabilityMaps)
      ensures stackedFrom == old(stackedFrom) && meanFrom == old(meanFrom) && stdFrom == old(stdFrom)
    {
      pbrs := ps;
    }

    /** `stacked_pbrs`: the stack, computed on first use and then kept. */
    method StackedPbrs() returns (r: Result<Volume>)
      requires Valid()
      modifies this
      ensures Valid()
      ensures r == StackPbrs(old(StackCohort()))
      ensures old(stackedData).Some? ==> r == Ok(old(stackedData).value)
      ensures stackedData == (if r.Ok? then Some(r.value) else old(stackedData))
      ensures StackCohort() == old(StackCohort())
      ensures pbrs == old(pbrs) && meanFrom == old(meanFrom) && stdFrom == old(stdFrom)
      ensures meanPbr == old(meanPbr) && stdPbr == old(stdPbr) && meanProbabilityMaps == old(meanProbabilityMaps)
    {
      if stackedData.None? {
        r := StackPbrs(pbrs);
        if r.Ok? {
          stackedData := Some(r.value);
          stackedFrom := pbrs;
        }
      } else {
        r := Ok(stackedData.value);
      }
    }

    /** `mean_pbr`: the mean of the stack `stacked_pbrs` returns, computed on first use and then kept. */
    method MeanPbr() returns (r: Result<Matrix>)
      requires Valid()
      modifies this
      ensures Valid()
      ensures r == MeanOf(old(MeanCohort()))
      ensures old(meanPbr).Some? ==> r == Ok(old(meanPbr).value)
      ensures meanPbr == (if r.Ok? then Some(r.value) else old(meanPbr))
      ensures MeanCohort() == old(MeanCohort()) && StackCohort() == old(StackCohort())
      ensures stackedData == (if old(meanPbr).None? && r.Ok? then Some(StackPbrs(old(StackCohort())).value) else old(stackedData))
      ensures pbrs == old(pbrs) && stdFrom == old(stdFrom)
      ensures stdPbr == old(stdPbr) && meanProbabilityMaps == old(meanProbabilityMaps)
    {
      if meanPbr.None? {
        var stacked := StackedPbrs();
        if stacked.Err? {
          return Err(stacked.exception);
        }
        var m := MeanLast(stacked.value);
        meanPbr := Some(m);
        meanFrom := stackedFrom;
        r := Ok(m);
      } else {
        r := Ok(meanPbr.value);
      }
    }

    /** `std_pbr`: the deviation of the stack `stacked_pbrs` returns, computed on first use and then kept. */
    method StdPbr() returns (r: Result<Matrix>)
      requires Valid()
      modifies this
      ensures Valid()
      ensures r == StdOf(old(StdCohort()), sqrt)
      ensures old(stdPbr).Some? ==> r == Ok(old(stdPbr).value)
      ensures stdPbr == (if r.Ok? then Some(r.value) else old(stdPbr))
      ensures StdCohort() == old(StdCohort()) && StackCohort() == old(StackCohort())
      ensures stackedData == (if old(stdPbr).None? && r.Ok? then Some(StackPbrs(old(StackCohort())).value) else old(stackedData))
      ensures pbrs == old(pbrs) && meanFrom == old(meanFrom)
      ensures meanPbr == old(meanPbr) && meanProbabilityMaps == old(meanProbabilityMaps)
    {
      if stdPbr.None? {
        var stacked := StackedPbrs();
        if stacked.Err? {
          return Err(stacked.exception);
        }
        var m := StdLast(stacked.value, sqrt);
        stdPbr := Some(m);
        stdFrom := stackedFrom;
        r := Ok(m);
      } else {
        r := Ok(stdPbr.value);
      }
    }

    /** `create_mean_probability_map(class_idx)`: the class map of the mean `mean_pbr` returns. */
    method CreateMeanProbabilityMap(c: nat) returns (r: Result<ProbabilityMap>)
      requires Valid()
      modifies this
      ensures Valid()
      ensures r == MeanClassMap(atlas, old(MeanCohort()), c)
      ensures meanPbr == (if MeanOf(old(MeanCohort())).Ok? then Some(MeanOf(old(MeanCohort())).value) else old(meanPbr))
      ensures MeanCohort() == old(MeanCohort()) && pbrs == old(pbrs)
      ensures stdPbr == old(stdPbr) && meanProbabilityMaps == old(meanProbabilityMaps)
    {
      var m := MeanPbr();
      if m.Err? {
        return Err(m.exception);
      }
      if c < N_CLASSES {
        r := Ok(ClassMap(atlas, m.value, c));
      } else {
        r := Err(IndexError);
      }
    }

    /** `create_mean_probability_maps`: one map per class, in class order. */
    method CreateMeanProbabilityMaps() returns (r: Result<seq<ProbabilityMap>>)
      requires Valid()
      modifies this
      ensures Valid()
      ensures r == MeanMaps(atlas, old(MeanCohort()))
      ensures meanPbr == (if MeanOf(old(MeanCohort())).Ok? then Some(MeanOf(old(MeanCohort())).value) else old(meanPbr))
      ensures MeanCohort() == old(MeanCohort()) && pbrs == old(pbrs)
      ensures stdPbr == old(stdPbr) && meanProbabilityMaps == old(meanProbabilityMaps)
    {
      ghost var cohort := MeanCohort();
      var maps: seq<ProbabilityMap> := [];
      var i := 0;
      while i < N_CLASSES
        invariant 0 <= i <= N_CLASSES && Valid()
        invariant AllValid(cohort) && MeanCohort() == cohort && pbrs == old(pbrs)
        invariant i > 0 ==> MeanOf(cohort).Ok? && meanPbr == Some(MeanOf(cohort).value)
        invariant i == 0 ==> meanPbr == old(meanPbr)
        invariant |maps| == i && CreatedSoFar(atlas, cohort, maps)
        invariant stdPbr == old(stdPbr) && meanProbabilityMaps == old(meanProbabilityMaps)
      {
        var pm := CreateMeanProbabilityMap(i);
        if pm.Err? {
          return Err(pm.exception);
        }
        CreatedOneMore(atlas, cohort, maps, pm.value);
        maps := maps + [pm.value];
        i := i + 1;
      }
      CreatedAll(atlas, cohort, maps);
      r := Ok(maps);
    }

    /** `save_probability_maps(maps, path)`: each map under `class_{class_idx}_{atlas}` in `path`. */
    method SaveProbabilityMaps(disk: Disk, maps: seq<ProbabilityMap>, path: string) returns (d: Disk)
      ensures d == SavedProbabilityMaps(disk, maps, path)
    {
      d := disk;
      var i := 0;
      while i < |maps|
        invariant 0 <= i <= |maps|
        invariant d == SavedProbabilityMaps(disk, maps[..i], path)
      {
        assert maps[..i + 1][..i] == maps[..i];
        d := Save(d, MapFileName(path, maps[i]), NpyVolume(maps[i].data));
        i := i + 1;
      }
      assert maps[..i] == maps;
    }

    /** `load_probability_maps(paths)`: the files among the paths, in sorted order, read back as maps. */
    method LoadProbabilityMaps(disk: Disk, paths: seq<string>) returns (r: Result<seq<ProbabilityMap>>)
      ensures r == LoadedMaps(disk, Sort(paths), atlas.name)
    {
      var sorted := Sort(paths);
      var result: seq<ProbabilityMap> := [];
      var i := 0;
      assert sorted[0..] == sorted;
      PrependedNothing(LoadedMaps(disk, sorted, atlas.name));
      while i < |sorted|
        invariant 0 <= i <= |sorted|
        invariant LoadedMaps(disk, sorted, atlas.name) == Prepended(result, LoadedMaps(disk, sorted[i..], atlas.name))
      {
        var p := sorted[i];
        assert sorted[i..][1..] == sorted[i + 1..];
        if disk.IsFile(p) {
          var fields := Split(Basename(p), '_');
          if |fields| != 3 {
            return Err(ValueError);
          }
          var data := disk.files[p];
          if !data.NpyVolume? {
            return Err(ValueError);
          }
          var pm := ProbabilityMap(data.v, StrIndex(fields[1]), atlas.name);
          PrependedTwice(result, [pm], LoadedMaps(disk, sorted[i + 1..], atlas.name));
          result := result + [pm];
        }
        i := i + 1;
      }
      assert sorted[i..] == [];
      assert result + [] == result;
      r := Ok(result);
    }

    /** `load_mean_probability_maps`, given the listing `glob` returns. */
    method LoadMeanProbabilityMaps(disk: Disk, files: seq<string>) returns (r: Result<Option<seq<ProbabilityMap>>>)
      ensures r == SerializedMaps(disk, files, atlas.name, resultsDir)
    {
      var dirPath := MeanDir(resultsDir);
      if disk.IsDir(dirPath) && files != [] {
        var loaded := LoadProbabilityMaps(disk, files);
        if loaded.Err? {
          return Err(loaded.exception);
        }
        r := Ok(Some(loaded.value));
      } else {
        r := Ok(None);
      }
    }

    /**
     * `mean_probability_maps`: the kept maps; otherwise the saved maps when
     * there are any, else the created ones, saved into the mean directory.
     * The created maps are kept before the directory is made.
     */
    method MeanProbabilityMaps(disk: Disk, files: seq<string>) returns (d: Disk, r: Result<seq<ProbabilityMap>>)
      requires Valid()
      modifies this
      ensures Valid()
      ensures old(meanProbabilityMaps).Some? ==> d == disk && r == Ok(old(meanProbabilityMaps).value)
      ensures old(meanProbabilityMaps).Some? ==> meanProbabilityMaps == old(meanProbabilityMaps)
      ensures old(meanProbabilityMaps).None? ==> (d, r) == FreshMeanMaps(disk, files, atlas, old(MeanCohort()), resultsDir)
      ensures r.Ok? ==> meanProbabilityMaps == Some(r.value)
      ensures r == Err(FileExistsError) ==>
        MeanMaps(atlas, old(MeanCohort())).Ok? && meanProbabilityMaps == Some(MeanMaps(atlas, old(MeanCohort())).value)
      ensures r.Err? && r != Err(FileExistsError) ==> meanProbabilityMaps == old(meanProbabilityMaps)
      ensures pbrs == old(pbrs) && stdPbr == old(stdPbr)
    {
      if meanProbabilityMaps.Some? {
        return disk, Ok(meanProbabilityMaps.value);
      }
      d := disk;
      var serialized := LoadMeanProbabilityMaps(disk, files);
      if serialized.Err? {
        return disk, Err(serialized.exception);
      }
      if Truthy(serialized) {
        meanProbabilityMaps := Some(serialized.value.value);
        return disk, Ok(serialized.value.value);
      }
      d, r := CreateAndSaveMeanMaps(disk);
    }

    /**
     * The created branch of `mean_probability_maps`: the mean maps are
     * created and kept, then the mean directory is made and they are saved.
     */
    method CreateAndSaveMeanMaps(disk: Disk) returns (d: Disk, r: Result<seq<ProbabilityMap>>)
      requires Valid()
      modifies this
      ensures Valid()
      ensures (d, r) == CreatedMeanMaps(disk, atlas, old(MeanCohort()), resultsDir)
      ensures MeanMaps(atlas, old(MeanCohort())).Ok? ==> meanProbabilityMaps == Some(MeanMaps(atlas, old(MeanCohort())).value)
      ensures MeanMaps(atlas, old(MeanCohort())).Err? ==> meanProbabilityMaps == old(meanProbabilityMaps)
      ensures pbrs == old(pbrs) && stdPbr == old(stdPbr)
    {
      var created := CreateMeanProbabilityMaps();
      if created.Err? {
        return disk, Err(created.exception);
      }
      meanProbabilityMaps := Some(created.value);
      assert Valid();
      d := disk;
      var path := MeanDir(resultsDir);
      if !d.IsDir(path) {
        if path in d.files {
          return disk, Err(FileExistsError);
        }
        d := d.(dirs := d.dirs + {path});
      }
      d := SaveProbabilityMaps(d, created.value, path);
      r := Ok(created.value);
    }
  }

  /**
   * Reassigning the matrices and then asking for the stack, the mean and
   * the deviation: whatever was kept before comes back unchanged, computed
   * from the earlier cohort; only what was not kept is computed from the
   * new matrices.
   */
  method ReassignedKeepsValues(a: CorticalLayersAnalysis, ps: seq<Pbr>)
    returns (stacked: Result<Volume>, mean: Result<Matrix>, std: Result<Matrix>)
    requires a.Valid() && AllValid(ps)
    modifies a
    ensures a.Valid() && a.pbrs == ps
    ensures old(a.stackedData).Some? ==> stacked == Ok(old(a.stackedData).value) && stacked == StackPbrs(old(a.stackedFrom))
    ensures old(a.stackedData).None? ==> stacked == StackPbrs(ps)
    ensures old(a.meanPbr).Some? ==> mean == Ok(old(a.meanPbr).value) && mean == MeanOf(old(a.meanFrom))
    ensures old(a.meanPbr).None? && old(a.stackedData).Some? ==> mean == MeanOf(old(a.stackedFrom))
    ensures old(a.meanPbr).None? && old(a.stackedData).None? ==> mean == MeanOf(ps)
    ensures old(a.stdPbr).Some? ==> std == Ok(old(a.stdPbr).value) && std == StdOf(old(a.stdFrom), a.sqrt)
    ensures old(a.stdPbr).None? && old(a.stackedData).Some? ==> std == StdOf(old(a.stackedFrom), a.sqrt)
    ensures old(a.stdPbr).None? && old(a.stackedData).None? ==> std == StdOf(ps, a.sqrt)
  {
    a.SetPbrs(ps);
    stacked := a.StackedPbrs();
    mean := a.MeanPbr();
    std := a.StdPbr();
  }

  /** The maps loaded so far in front of the rest of the result. */
  function Prepended(prefix: seq<ProbabilityMap>, rest: Result<seq<ProbabilityMap>>): Result<seq<ProbabilityMap>>
  {
    match rest
    case Err(e) => Err(e)
    case Ok(maps) => Ok(prefix + maps)
  }

  lemma PrependedNothing(r: Result<seq<ProbabilityMap>>)
    ensures Prepended([], r) == r
  {
    if r.Ok? {
      assert [] + r.value == r.value;
    }
  }

  lemma PrependedTwice(a: seq<ProbabilityMap>, b: seq<ProbabilityMap>, r: Result<seq<ProbabilityMap>>)
    ensures Prepended(a, Prepended(b, r)) == Prepended(a + b, r)
  {
    if r.Ok? {
      assert a + (b + r.value) == (a + b) + r.value;
    }
  }
}
