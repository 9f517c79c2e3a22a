/**
 * The file system as the modelled code sees it: which paths are regular files
 * (and what array each holds), and which paths are directories. Readers and
 * writers (`loadmat`, `np.load`, `np.save`) become lookups and updates of this
 * value; their byte formats are not modelled.
 */
module FileSystem {
  import opened Wrappers
  import opened Grids
  import opened Text

  /** What a file holds: a MATLAB file's variables, or one saved numpy array. */
  datatype Content =
    | MatFile(vars: map<string, Matrix>)
    | NpyMatrix(m: Matrix)
    | NpyVolume(v: Volume)
    | NpyVolume4(w: Volume4)

  /** numpy arrays are rectangular: every stored array has the shape it records. */
  predicate WellShaped(c: Content)
  {
    match c
    case MatFile(vars) => forall k :: k in vars ==> vars[k].Valid()
    case NpyMatrix(m) => m.Valid()
    case NpyVolume(v) => v.Valid()
    case NpyVolume4(w) => w.Valid()
  }

  datatype Disk = Disk(files: map<string, Content>, dirs: set<string>)
  {
    predicate Valid() { forall p :: p in files ==> WellShaped(files[p]) }

    /** `os.path.isfile`. */
    predicate IsFile(p: string) { p in files }

    /** `os.path.isdir`. */
    predicate IsDir(p: string) { p in dirs }

    /** `os.path.exists`. */
    predicate Exists(p: string) { p in files || p in dirs }
  }

  predicate EndsWith(s: string, suffix: string)
  {
    |suffix| <= |s| && s[|s| - |suffix|..] == suffix
  }

  /** The file `np.save(p, ...)` writes: `.npy` is appended unless already there. */
  function NpyName(p: string): (r: string)
    ensures EndsWith(r, ".npy")
    ensures EndsWith(p, ".npy") ==> r == p
  {
    if EndsWith(p, ".npy") then p
    else
      assert (p + ".npy")[|p|..] == ".npy";
      p + ".npy"
  }

  /** `np.save(p, content)`: the file is created or overwritten, nothing else changes. */
  function Save(disk: Disk, p: string, c: Content): (d: Disk)
    ensures disk.Valid() && WellShaped(c) ==> d.Valid()
    ensures d.IsFile(NpyName(p)) && d.files[NpyName(p)] == c
    ensures forall q :: q != NpyName(p) ==> (d.IsFile(q) <==> disk.IsFile(q))
    ensures forall q :: q != NpyName(p) && disk.IsFile(q) ==> q in d.files && d.files[q] == disk.files[q]
    ensures d.dirs == disk.dirs
  {
    Disk(disk.files[NpyName(p) := c], disk.dirs)
  }

  /**
   * `loadmat(p)[key]`: a missing file is a FileNotFoundError (after trying
   * `p + ".mat"`, as `appendmat` does), a file that is not a MATLAB file a
   * ValueError, a missing variable a KeyError.
   */
  function LoadMat(disk: Disk, p: string, key: string): (r: Result<Matrix>)
    ensures r.Ok? ==> exists q :: q in disk.files && disk.files[q].MatFile? && key in disk.files[q].vars
                                && r.value == disk.files[q].vars[key]
    ensures r.Ok? && disk.Valid() ==> r.value.Valid()
    ensures !disk.IsFile(p) && !disk.IsFile(p + ".mat") ==> r == Err(FileNotFoundError)
  {
    var q := if disk.IsFile(p) || EndsWith(p, ".mat") then p else p + ".mat";
    if !disk.IsFile(q) then Err(FileNotFoundError)
    else if !disk.files[q].MatFile? then Err(ValueError)
    else if key !in disk.files[q].vars then Err(KeyError)
    else Ok(disk.files[q].vars[key])
  }

  /** `np.load(p)`: the array stored in an existing file. */
  function Load(disk: Disk, p: string): (r: Result<Content>)
    ensures r.Ok? <==> disk.IsFile(p)
    ensures r.Ok? ==> r.value == disk.files[p]
  {
    if disk.IsFile(p) then Ok(disk.files[p]) else Err(FileNotFoundError)
  }
}
