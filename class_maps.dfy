/**
 * What every probability-by-region (PBR) matrix revision shares: the number of
 * cortical classes, the 1-based region dictionary of one class column, the
 * class map it projects to, and the `class_{i}_{atlas}` file naming.
 */
module ClassMaps {
  import opened Grids
  import opened Templates
  import opened Text
  import opened FileSystem

  /** The number of cortical classes (layers) per region. */
  const N_CLASSES: nat := 6

  /** The key under which MATLAB result files hold the matrix. */
  const MAT_DATA_KEY: string := "results"

  /**
   * `{region_id + 1: value for region_id, value in enumerate(data[:, c])}`:
   * row i of the matrix is region i + 1.
   */
  function RegionProbabilityDict(m: Matrix, c: nat): (d: map<int, real>)
    requires m.Valid() && c < m.cols
    ensures forall k :: k in d <==> 1 <= k <= m.rows
    ensures forall i :: 0 <= i < m.rows ==> d[i + 1] == m.at[i][c]
  {
    FirstRegions(m, c, m.rows)
  }

  /** The dictionary built from the first n rows, as the enumeration goes. */
  function FirstRegions(m: Matrix, c: nat, n: nat): (d: map<int, real>)
    requires m.Valid() && c < m.cols && n <= m.rows
    ensures forall k :: k in d <==> 1 <= k <= n
    ensures forall i :: 0 <= i < n ==> d[i + 1] == m.at[i][c]
  {
    if n == 0 then map[] else FirstRegions(m, c, n - 1)[n := m.at[n - 1][c]]
  }

  /** The class map: the dictionary projected onto the atlas template without a shift. */
  function ClassProbabilityMap(t: Template, m: Matrix, c: nat): (v: Volume)
    requires t.Valid() && m.Valid() && c < m.cols
    ensures v.Valid() && v.nx == t.nx && v.ny == t.ny && v.nz == t.nz
  {
    ProjectVolume(t, RegionProbabilityDict(m, c))
  }

  /**
   * The cross-file property of a class map: a voxel labelled i + 1 carries
   * the matrix entry of row i, every other voxel (background 0 included) is 0.
   */
  lemma ClassMapVoxel(t: Template, m: Matrix, c: nat, a: nat, b: nat, d: nat)
    requires t.Valid() && m.Valid() && c < m.cols
    requires a < t.nx && b < t.ny && d < t.nz
    ensures Offset(a, b, d, t.ny, t.nz) < |t.labels|
    ensures var lab := t.labels[Offset(a, b, d, t.ny, t.nz)];
      && (1 <= lab <= m.rows ==> ClassProbabilityMap(t, m, c).at[a][b][d] == m.at[lab - 1][c])
      && (!(1 <= lab <= m.rows) ==> ClassProbabilityMap(t, m, c).at[a][b][d] == 0.0)
  {
    var dict := RegionProbabilityDict(m, c);
    ProjectVolumeAt(t, dict, a, b, d);
    var lab := t.labels[Offset(a, b, d, t.ny, t.nz)];
    if 1 <= lab <= m.rows {
      var i := lab - 1;
      assert dict[i + 1] == m.at[i][c];
    }
  }

  /** `f'class_{i}_{atlas}'`. */
  function ClassFileName(i: nat, atlas: string): string
  {
    "class_" + NatToString(i) + "_" + atlas
  }

  /**
   * Reading a class file name back: split on '_' it has exactly three
   * fields, the middle one the class index as written, whenever the rest of
   * the name has no '_'.
   */
  lemma ClassFileNameSplit(i: nat, rest: string)
    requires '_' !in rest
    ensures Split(ClassFileName(i, rest), '_') == ["class", NatToString(i), rest]
  {
    var n := NatToString(i);
    assert '_' !in n by {
      forall k | 0 <= k < |n| ensures n[k] != '_' { assert IsDigit(n[k]); }
    }
    assert ClassFileName(i, rest) == "class" + ['_'] + (n + ['_'] + rest);
    SplitAround("class", '_', n + ['_'] + rest);
    SplitAround(n, '_', rest);
    SplitNoSep("class", '_');
    SplitNoSep(n, '_');
    SplitNoSep(rest, '_');
  }

  /** Different classes get different file names. */
  lemma {:induction false} ClassFileNamesDistinct(i: nat, j: nat, atlas: string)
    requires i != j && '_' !in atlas
    ensures ClassFileName(i, atlas) != ClassFileName(j, atlas)
  {
    ClassFileNameSplit(i, atlas);
    ClassFileNameSplit(j, atlas);
    NatToStringInjective(i, j);
  }

  /**
   * Where a class map named in a directory ends up: `np.save` adds ".npy" to
   * the joined path, and the file's base name is the class file name plus
   * ".npy".
   */
  lemma ClassMapPath(dir: string, i: nat, atlas: string)
    requires '/' !in atlas && '.' !in atlas
    ensures NpyName(PathJoin(dir, ClassFileName(i, atlas))) == PathJoin(dir, ClassFileName(i, atlas) + ".npy")
    ensures Basename(NpyName(PathJoin(dir, ClassFileName(i, atlas)))) == ClassFileName(i, atlas) + ".npy"
  {
    var f := ClassFileName(i, atlas);
    ClassFileNameChars(i, atlas);
    var x := PathJoin(dir, f);
    NotNpy(x, f);
    PathJoinAppend(dir, f, ".npy");
    assert '/' !in f + ".npy";
    BasenameOfJoin(dir, f + ".npy");
  }

  lemma ClassFileNameChars(i: nat, atlas: string)
    requires '/' !in atlas && '.' !in atlas
    ensures var f := ClassFileName(i, atlas); '/' !in f && '.' !in f && |f| >= 8 && f[0] == 'c'
  {
    var n := NatToString(i);
    assert '/' !in n && '.' !in n by {
      forall k | 0 <= k < |n| ensures n[k] != '/' && n[k] != '.' { assert IsDigit(n[k]); }
    }
  }

  /** A path ending in a name of four or more characters without a dot does not end in ".npy". */
  lemma NotNpy(x: string, f: string)
    requires |f| >= 4 && '.' !in f && |f| <= |x| && x[|x| - |f|..] == f
    ensures !EndsWith(x, ".npy")
  {
    assert x[|x| - 4] == f[|f| - 4];
  }

  /** Different classes are saved to different files of a directory. */
  lemma ClassMapPathsDistinct(dir: string, i: nat, j: nat, atlas: string)
    requires i != j && '/' !in atlas && '.' !in atlas && '_' !in atlas
    ensures NpyName(PathJoin(dir, ClassFileName(i, atlas))) != NpyName(PathJoin(dir, ClassFileName(j, atlas)))
  {
    ClassMapPath(dir, i, atlas);
    ClassMapPath(dir, j, atlas);
    ClassFileNamesDistinct(i, j, atlas);
    assert ClassFileName(i, atlas) + ".npy" != ClassFileName(j, atlas) + ".npy" by {
      var a, b := ClassFileName(i, atlas), ClassFileName(j, atlas);
      if a + ".npy" == b + ".npy" {
        assert a == (a + ".npy")[..|a|];
        assert b == (b + ".npy")[..|b|];
      }
    }
  }

  /**
   * The disk after the maps, in class order, have been saved one after the
   * other: map i under `class_{i}_{atlas}` in `dir`.
   */
  function SavedMaps(disk: Disk, dir: string, atlasName: string, maps: seq<Content>): (d: Disk)
    ensures d.dirs == disk.dirs
  {
    if maps == [] then disk
    else
      var n := |maps| - 1;
      Save(SavedMaps(disk, dir, atlasName, maps[..n]), PathJoin(dir, ClassFileName(n, atlasName)), maps[n])
  }

  /** The file class i's map is saved to in `dir` (`np.save` adds ".npy"). */
  function ClassMapFile(dir: string, i: nat, atlasName: string): string
  {
    PathJoin(dir, ClassFileName(i, atlasName) + ".npy")
  }

  /** Saving one more map continues the sequence of saves. */
  lemma SavedMapsNext(disk: Disk, dir: string, atlasName: string, maps: seq<Content>, i: nat)
    requires i < |maps|
    ensures SavedMaps(disk, dir, atlasName, maps[..i + 1])
         == Save(SavedMaps(disk, dir, atlasName, maps[..i]), PathJoin(dir, ClassFileName(i, atlasName)), maps[i])
  {
    assert maps[..i + 1][..i] == maps[..i];
  }

  /** After saving, class i is on disk under its own name with its own map. */
  lemma {:induction false} SavedMapFile(disk: Disk, dir: string, atlasName: string, maps: seq<Content>, i: nat)
    requires i < |maps|
    requires '/' !in atlasName && '.' !in atlasName && '_' !in atlasName
    ensures var d := SavedMaps(disk, dir, atlasName, maps);
      ClassMapFile(dir, i, atlasName) in d.files && d.files[ClassMapFile(dir, i, atlasName)] == maps[i]
  {
    var n := |maps| - 1;
    var last := PathJoin(dir, ClassFileName(n, atlasName));
    ClassMapPath(dir, n, atlasName);
    if i < n {
      SavedMapFile(disk, dir, atlasName, maps[..n], i);
      ClassMapPathsDistinct(dir, i, n, atlasName);
      assert ClassMapFile(dir, i, atlasName) != NpyName(last) by {
        ClassMapPath(dir, i, atlasName);
      }
    }
  }

  /** Saving the class maps touches no file but theirs. */
  lemma {:induction false} SavedMapsOthers(disk: Disk, dir: string, atlasName: string, maps: seq<Content>, q: string)
    requires '/' !in atlasName && '.' !in atlasName
    requires forall i :: 0 <= i < |maps| ==> q != ClassMapFile(dir, i, atlasName)
    ensures var d := SavedMaps(disk, dir, atlasName, maps);
      (q in d.files <==> q in disk.files) && (q in disk.files ==> d.files[q] == disk.files[q])
  {
    if maps != [] {
      var n := |maps| - 1;
      SavedMapsOthers(disk, dir, atlasName, maps[..n], q);
      ClassMapPath(dir, n, atlasName);
      assert q != ClassMapFile(dir, n, atlasName);
    }
  }

  lemma {:induction false} NatToStringInjective(i: nat, j: nat)
    requires i != j
    ensures NatToString(i) != NatToString(j)
    decreases i + j
  {
    if i < 10 && j < 10 {
    } else if i < 10 || j < 10 {
      NatToStringLength(i);
      NatToStringLength(j);
    } else if i / 10 == j / 10 {
      var si, sj := NatToString(i), NatToString(j);
      assert si[|si| - 1] == DigitChar(i % 10) && sj[|sj| - 1] == DigitChar(j % 10);
    } else {
      NatToStringInjective(i / 10, j / 10);
      var si, sj := NatToString(i), NatToString(j);
      NatToStringLength(i / 10);
      NatToStringLength(j / 10);
      if |si| == |sj| {
        assert si[..|si| - 1] == NatToString(i / 10);
        assert sj[..|sj| - 1] == NatToString(j / 10);
      }
    }
  }

  /** Numbers from 10 on take at least two digits. */
  lemma NatToStringLength(n: nat)
    ensures (n < 10) == (|NatToString(n)| == 1)
  {
    if n >= 10 {
      assert |NatToString(n / 10)| >= 1;
    }
  }
}
