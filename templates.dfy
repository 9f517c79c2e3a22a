/**
 * A labelled atlas template and the projection of a region -> value mapping
 * onto it. A template is the raveled (C order) integer label of every voxel
 * together with the volume's shape; `np.unique` of the labels gives the
 * atlas's region ids. Both BrainAtlas revisions project through `Projection`,
 * each with its own key convention.
 */
module Templates {
  import opened Grids

  datatype Template = Template(nx: nat, ny: nat, nz: nat, labels: seq<int>)
  {
    predicate Valid() { |labels| == nx * ny * nz }
  }

  predicate StrictlyIncreasing(s: seq<int>)
  {
    forall i, j :: 0 <= i < j < |s| ==> s[i] < s[j]
  }

  function InsertUnique(x: int, s: seq<int>): (r: seq<int>)
    requires StrictlyIncreasing(s)
    ensures StrictlyIncreasing(r)
    ensures forall y :: y in r <==> y == x || y in s
  {
    if s == [] then [x]
    else if x < s[0] then [x] + s
    else if x == s[0] then s
    else
      assert forall y :: y in s[1..] ==> s[0] < y;
      var tail := InsertUnique(x, s[1..]);
      assert forall k :: 0 <= k < |tail| ==> s[0] < tail[k] by {
        forall k | 0 <= k < |tail| ensures s[0] < tail[k] {
          assert tail[k] in tail;
        }
      }
      [s[0]] + tail
  }

  /** `np.unique(labels)`: the distinct labels in increasing order. */
  function Unique(s: seq<int>): (r: seq<int>)
    ensures StrictlyIncreasing(r)
    ensures forall y :: y in r <==> y in s
  {
    if s == [] then []
    else
      var init := s[..|s| - 1];
      assert forall y :: y in s <==> y in init || y == s[|s| - 1] by {
        assert s == init + [s[|s| - 1]];
      }
      InsertUnique(s[|s| - 1], Unique(init))
  }

  lemma NonEmptyMembers(a: seq<int>, b: seq<int>)
    requires a != []
    requires forall y: int :: y in a <==> y in b
    ensures b != []
  {
    var x := a[0];
    assert x in b;
  }

  /** The two properties of `Unique` determine its result. */
  lemma {:induction false} IncreasingUnique(a: seq<int>, b: seq<int>)
    requires StrictlyIncreasing(a) && StrictlyIncreasing(b)
    requires forall y :: y in a <==> y in b
    ensures a == b
  {
    if a != [] { NonEmptyMembers(a, b); }
    if b != [] { NonEmptyMembers(b, a); }
    if a != [] && b != [] {
      assert a[0] in b && b[0] in a;
      assert a[0] == b[0];
      assert forall y :: y in a[1..] <==> y in b[1..] by {
        forall y ensures y in a[1..] <==> y in b[1..] {
          assert y in a[1..] <==> y in a && y != a[0];
          assert y in b[1..] <==> y in b && y != b[0];
        }
      }
      IncreasingUnique(a[1..], b[1..]);
      assert a == [a[0]] + a[1..] && b == [b[0]] + b[1..];
    }
  }

  /**
   * What `convert_from_dict` writes into the zero-filled raveled template:
   * every voxel whose label is a key of `d` gets `d[label]`, every other
   * voxel keeps 0.
   */
  function Projection(labels: seq<int>, d: map<int, real>): (r: seq<real>)
    ensures |r| == |labels|
  {
    seq(|labels|, k requires 0 <= k < |labels| => if labels[k] in d then d[labels[k]] else 0.0)
  }

  /** The projection reshaped to the template's shape. */
  function ProjectVolume(t: Template, d: map<int, real>): (v: Volume)
    requires t.Valid()
    ensures v.Valid() && v.nx == t.nx && v.ny == t.ny && v.nz == t.nz
  {
    Reshape(Projection(t.labels, d), t.nx, t.ny, t.nz)
  }

  /** Voxel [a][b][c] of a projected volume is decided by its own label alone. */
  lemma ProjectVolumeAt(t: Template, d: map<int, real>, a: nat, b: nat, c: nat)
    requires t.Valid() && a < t.nx && b < t.ny && c < t.nz
    ensures Offset(a, b, c, t.ny, t.nz) < |t.labels|
    ensures var lab := t.labels[Offset(a, b, c, t.ny, t.nz)];
      ProjectVolume(t, d).at[a][b][c] == if lab in d then d[lab] else 0.0
  {
    ReshapeAt(Projection(t.labels, d), t.nx, t.ny, t.nz, a, b, c);
  }

  /** Keys that are no voxel's label do not change the projection. */
  lemma ProjectionIgnoresForeignKeys(labels: seq<int>, d: map<int, real>, e: map<int, real>)
    requires forall k :: 0 <= k < |labels| ==> (labels[k] in d <==> labels[k] in e)
    requires forall k :: 0 <= k < |labels| && labels[k] in d ==> d[labels[k]] == e[labels[k]]
    ensures Projection(labels, d) == Projection(labels, e)
  {
  }

  /** `new_array[linear_template == id] = value`: overwrite every voxel labelled `id`. */
  method FillLabel(out: array<real>, linear: seq<int>, id: int, value: real)
    requires out.Length == |linear|
    modifies out
    ensures forall k :: 0 <= k < out.Length ==> out[k] == if linear[k] == id then value else old(out[k])
  {
    var k := 0;
    while k < out.Length
      invariant 0 <= k <= out.Length
      invariant forall q :: 0 <= q < k ==> out[q] == if linear[q] == id then value else old(out[q])
      invariant forall q :: k <= q < out.Length ==> out[q] == old(out[q])
    {
      if linear[k] == id {
        out[k] := value;
      }
      k := k + 1;
    }
  }
}
