/**
 * Numeric arrays with an explicit shape, as numpy keeps one: 2-D images and
 * region x class matrices, 3-D volumes, 4-D (volume x class) images. The
 * operations are the numpy ones the modelled code calls: `transpose`,
 * `rot90(k=3)`, `fliplr`, fixing one index of a volume (`data[i, :, :]` and
 * friends), `stack` and `reshape`, and the reductions `mean` / `std` over the
 * last axis. Values are mathematical reals, not IEEE doubles.
 */
module Grids {
  import opened Wrappers

  // ----------------------------------------------------------------- indexing

  /**
   * A Python index into an axis of length n: negative values count from the
   * end, anything outside [-n, n) is an IndexError.
   */
  function PyIndex(i: int, n: nat): (r: Option<nat>)
    ensures r.Some? <==> -(n as int) <= i < n
    ensures r.Some? ==> r.value < n && (if i >= 0 then r.value == i else r.value == i + n)
  {
    if 0 <= i < n then Some(i) else if -(n as int) <= i < 0 then Some(i + n) else None
  }

  // ------------------------------------------------------------------ shapes

  datatype Matrix = Matrix(rows: nat, cols: nat, at: seq<seq<real>>)
  {
    predicate Valid()
    {
      |at| == rows && forall i :: 0 <= i < rows ==> |at[i]| == cols
    }
  }

  datatype Volume = Volume(nx: nat, ny: nat, nz: nat, at: seq<seq<seq<real>>>)
  {
    predicate Valid()
    {
      && |at| == nx
      && (forall a :: 0 <= a < nx ==> |at[a]| == ny)
      && (forall a, b :: 0 <= a < nx && 0 <= b < ny ==> |at[a][b]| == nz)
    }
  }

  datatype Volume4 = Volume4(nx: nat, ny: nat, nz: nat, nc: nat, at: seq<seq<seq<seq<real>>>>)
  {
    predicate Valid()
    {
      && |at| == nx
      && (forall a :: 0 <= a < nx ==> |at[a]| == ny)
      && (forall a, b :: 0 <= a < nx && 0 <= b < ny ==> |at[a][b]| == nz)
      && (forall a, b, d :: 0 <= a < nx && 0 <= b < ny && 0 <= d < nz ==> |at[a][b][d]| == nc)
    }
  }

  /** The all-zero volume of a shape (`np.zeros(shape)`). */
  function Zeros(nx: nat, ny: nat, nz: nat): (v: Volume)
    ensures v.Valid() && v.nx == nx && v.ny == ny && v.nz == nz
    ensures forall a, b, d :: 0 <= a < nx && 0 <= b < ny && 0 <= d < nz ==> v.at[a][b][d] == 0.0
  {
    Volume(nx, ny, nz, seq(nx, a => seq(ny, b => seq(nz, d => 0.0))))
  }

  // ------------------------------------------------------------ 2-D transforms

  /** `np.transpose(m)`: the element at [p][q] is m[q][p]. */
  function Transpose(m: Matrix): (t: Matrix)
    requires m.Valid()
    ensures t.Valid() && t.rows == m.cols && t.cols == m.rows
    ensures forall p, q :: 0 <= p < m.cols && 0 <= q < m.rows ==> t.at[p][q] == m.at[q][p]
  {
    Matrix(m.cols, m.rows,
      seq(m.cols, p requires 0 <= p < m.cols =>
        seq(m.rows, q requires 0 <= q < m.rows => m.at[q][p])))
  }

  /** `np.rot90(m, 3)`: a clockwise quarter turn; [p][q] is m[rows-1-q][p]. */
  function Rot270(m: Matrix): (t: Matrix)
    requires m.Valid()
    ensures t.Valid() && t.rows == m.cols && t.cols == m.rows
    ensures forall p, q :: 0 <= p < m.cols && 0 <= q < m.rows ==> t.at[p][q] == m.at[m.rows - 1 - q][p]
  {
    Matrix(m.cols, m.rows,
      seq(m.cols, p requires 0 <= p < m.cols =>
        seq(m.rows, q requires 0 <= q < m.rows => m.at[m.rows - 1 - q][p])))
  }

  /** `np.fliplr(m)`: columns in reverse order; [p][q] is m[p][cols-1-q]. */
  function FlipLR(m: Matrix): (t: Matrix)
    requires m.Valid()
    ensures t.Valid() && t.rows == m.rows && t.cols == m.cols
    ensures forall p, q :: 0 <= p < m.rows && 0 <= q < m.cols ==> t.at[p][q] == m.at[p][m.cols - 1 - q]
  {
    Matrix(m.rows, m.cols,
      seq(m.rows, p requires 0 <= p < m.rows =>
        seq(m.cols, q requires 0 <= q < m.cols => m.at[p][m.cols - 1 - q])))
  }

  /** Two valid matrices of one shape that agree everywhere are equal. */
  lemma MatrixExt(m: Matrix, n: Matrix)
    requires m.Valid() && n.Valid() && m.rows == n.rows && m.cols == n.cols
    requires forall p, q :: 0 <= p < m.rows && 0 <= q < m.cols ==> m.at[p][q] == n.at[p][q]
    ensures m == n
  {
    forall p | 0 <= p < m.rows ensures m.at[p] == n.at[p] {
      assert forall q :: 0 <= q < m.cols ==> m.at[p][q] == n.at[p][q];
    }
  }

  /** Mirroring a clockwise quarter turn left-to-right is a transposition. */
  lemma FlipRotIsTranspose(m: Matrix)
    requires m.Valid()
    ensures FlipLR(Rot270(m)) == Transpose(m)
  {
    var r := Rot270(m);
    forall p, q | 0 <= p < m.cols && 0 <= q < m.rows
      ensures FlipLR(r).at[p][q] == Transpose(m).at[p][q]
    {
      assert FlipLR(r).at[p][q] == r.at[p][m.rows - 1 - q];
    }
    MatrixExt(FlipLR(r), Transpose(m));
  }

  lemma TransposeInvolution(m: Matrix)
    requires m.Valid()
    ensures Transpose(Transpose(m)) == m
  {
    MatrixExt(Transpose(Transpose(m)), m);
  }

  lemma FlipLRInvolution(m: Matrix)
    requires m.Valid()
    ensures FlipLR(FlipLR(m)) == m
  {
    MatrixExt(FlipLR(FlipLR(m)), m);
  }

  // ---------------------------------------------------------------- sections

  /** `v[i, :, :]`: a ny x nz matrix. */
  function Section0(v: Volume, i: nat): (m: Matrix)
    requires v.Valid() && i < v.nx
    ensures m.Valid() && m.rows == v.ny && m.cols == v.nz
    ensures forall b, d :: 0 <= b < v.ny && 0 <= d < v.nz ==> m.at[b][d] == v.at[i][b][d]
  {
    Matrix(v.ny, v.nz, v.at[i])
  }

  /** `v[:, j, :]`: an nx x nz matrix. */
  function Section1(v: Volume, j: nat): (m: Matrix)
    requires v.Valid() && j < v.ny
    ensures m.Valid() && m.rows == v.nx && m.cols == v.nz
    ensures forall a, d :: 0 <= a < v.nx && 0 <= d < v.nz ==> m.at[a][d] == v.at[a][j][d]
  {
    Matrix(v.nx, v.nz, seq(v.nx, a requires 0 <= a < v.nx => v.at[a][j]))
  }

  /** `v[:, :, k]`: an nx x ny matrix. */
  function Section2(v: Volume, k: nat): (m: Matrix)
    requires v.Valid() && k < v.nz
    ensures m.Valid() && m.rows == v.nx && m.cols == v.ny
    ensures forall a, b :: 0 <= a < v.nx && 0 <= b < v.ny ==> m.at[a][b] == v.at[a][b][k]
  {
    Matrix(v.nx, v.ny,
      seq(v.nx, a requires 0 <= a < v.nx =>
        seq(v.ny, b requires 0 <= b < v.ny => v.at[a][b][k])))
  }

  /** `w[..., c]`: the volume of one class of a 4-D image. */
  function ClassVolume(w: Volume4, c: nat): (v: Volume)
    requires w.Valid() && c < w.nc
    ensures v.Valid() && v.nx == w.nx && v.ny == w.ny && v.nz == w.nz
    ensures forall a, b, d :: 0 <= a < w.nx && 0 <= b < w.ny && 0 <= d < w.nz ==>
      v.at[a][b][d] == w.at[a][b][d][c]
  {
    Volume(w.nx, w.ny, w.nz,
      seq(w.nx, a requires 0 <= a < w.nx =>
        seq(w.ny, b requires 0 <= b < w.ny =>
          seq(w.nz, d requires 0 <= d < w.nz => w.at[a][b][d][c]))))
  }

  /** Two valid volumes of one shape that agree everywhere are equal. */
  lemma VolumeExt(v: Volume, u: Volume)
    requires v.Valid() && u.Valid() && v.nx == u.nx && v.ny == u.ny && v.nz == u.nz
    requires forall a, b, d :: 0 <= a < v.nx && 0 <= b < v.ny && 0 <= d < v.nz ==> v.at[a][b][d] == u.at[a][b][d]
    ensures v == u
  {
    forall a | 0 <= a < v.nx ensures v.at[a] == u.at[a] {
      forall b | 0 <= b < v.ny ensures v.at[a][b] == u.at[a][b] {
        assert forall d :: 0 <= d < v.nz ==> v.at[a][b][d] == u.at[a][b][d];
      }
    }
  }

  // ----------------------------------------------------------------- stacking

  predicate SameShape(vs: seq<Volume>, nx: nat, ny: nat, nz: nat)
  {
    forall c :: 0 <= c < |vs| ==> vs[c].Valid() && vs[c].nx == nx && vs[c].ny == ny && vs[c].nz == nz
  }

  /** `np.stack(vs, axis=-1)` for volumes: w[a][b][d][c] is vs[c][a][b][d]. */
  function StackVolumes(vs: seq<Volume>, nx: nat, ny: nat, nz: nat): (w: Volume4)
    requires SameShape(vs, nx, ny, nz)
    ensures w.Valid() && w.nx == nx && w.ny == ny && w.nz == nz && w.nc == |vs|
    ensures forall a, b, d, c :: 0 <= a < nx && 0 <= b < ny && 0 <= d < nz && 0 <= c < |vs| ==>
      w.at[a][b][d][c] == vs[c].at[a][b][d]
  {
    Volume4(nx, ny, nz, |vs|,
      seq(nx, a requires 0 <= a < nx =>
        seq(ny, b requires 0 <= b < ny =>
          seq(nz, d requires 0 <= d < nz =>
            seq(|vs|, c requires 0 <= c < |vs| => vs[c].at[a][b][d])))))
  }

  /** Taking class c of a stack gives back the c-th volume. */
  lemma ClassOfStack(vs: seq<Volume>, nx: nat, ny: nat, nz: nat, c: nat)
    requires SameShape(vs, nx, ny, nz) && c < |vs|
    ensures ClassVolume(StackVolumes(vs, nx, ny, nz), c) == vs[c]
  {
    VolumeExt(ClassVolume(StackVolumes(vs, nx, ny, nz), c), vs[c]);
  }

  predicate SameMatrixShape(ms: seq<Matrix>, rows: nat, cols: nat)
  {
    forall s :: 0 <= s < |ms| ==> ms[s].Valid() && ms[s].rows == rows && ms[s].cols == cols
  }

  /** `np.stack(ms, axis=-1)` for matrices: v[r][c][s] is ms[s][r][c]. */
  function StackMatrices(ms: seq<Matrix>, rows: nat, cols: nat): (v: Volume)
    requires SameMatrixShape(ms, rows, cols)
    ensures v.Valid() && v.nx == rows && v.ny == cols && v.nz == |ms|
    ensures forall r, c, s :: 0 <= r < rows && 0 <= c < cols && 0 <= s < |ms| ==>
      v.at[r][c][s] == ms[s].at[r][c]
  {
    Volume(rows, cols, |ms|,
      seq(rows, r requires 0 <= r < rows =>
        seq(cols, c requires 0 <= c < cols =>
          seq(|ms|, s requires 0 <= s < |ms| => ms[s].at[r][c]))))
  }

  // ---------------------------------------------------------------- reshaping

  lemma MulMono(a: nat, b: nat, n: nat)
    requires a < b
    ensures a * n + n <= b * n
  {
    assert (b - a) * n >= n by {
      assert b - a >= 1;
    }
    assert b * n - a * n == (b - a) * n;
  }

  /** The row-major (C order) position of voxel [a][b][d] in a flat array. */
  function Offset(a: nat, b: nat, d: nat, ny: nat, nz: nat): nat
  {
    (a * ny + b) * nz + d
  }

  /** The nz voxels of line [a][b] lie inside the flat array. */
  lemma LineInRange(a: nat, b: nat, nx: nat, ny: nat, nz: nat)
    requires a < nx && b < ny
    ensures Offset(a, b, 0, ny, nz) + nz <= nx * ny * nz
  {
    MulMono(a, nx, ny);
    assert a * ny + b < nx * ny;
    MulMono(a * ny + b, nx * ny, nz);
  }

  /** Line [a][b] of `flat.reshape(nx, ny, nz)`. */
  function ReshapeLine(flat: seq<real>, a: nat, b: nat, nx: nat, ny: nat, nz: nat): (r: seq<real>)
    requires |flat| == nx * ny * nz && a < nx && b < ny
    ensures |r| == nz
    ensures forall d :: 0 <= d < nz ==> Offset(a, b, d, ny, nz) < |flat| && r[d] == flat[Offset(a, b, d, ny, nz)]
  {
    LineInRange(a, b, nx, ny, nz);
    var o := Offset(a, b, 0, ny, nz);
    flat[o..o + nz]
  }

  /** `flat.reshape(nx, ny, nz)` in C order. */
  function Reshape(flat: seq<real>, nx: nat, ny: nat, nz: nat): (v: Volume)
    requires |flat| == nx * ny * nz
    ensures v.Valid() && v.nx == nx && v.ny == ny && v.nz == nz
  {
    Volume(nx, ny, nz,
      seq(nx, a requires 0 <= a < nx =>
        seq(ny, b requires 0 <= b < ny => ReshapeLine(flat, a, b, nx, ny, nz))))
  }

  /** Voxel [a][b][d] of the reshaped volume is the flat element at its C-order offset. */
  lemma ReshapeAt(flat: seq<real>, nx: nat, ny: nat, nz: nat, a: nat, b: nat, d: nat)
    requires |flat| == nx * ny * nz && a < nx && b < ny && d < nz
    ensures Offset(a, b, d, ny, nz) < |flat|
    ensures Reshape(flat, nx, ny, nz).at[a][b][d] == flat[Offset(a, b, d, ny, nz)]
  {
    var line := ReshapeLine(flat, a, b, nx, ny, nz);
    assert Reshape(flat, nx, ny, nz).at[a][b] == line;
  }

  // --------------------------------------------------------------- reductions

  function Sum(xs: seq<real>): real
  {
    if xs == [] then 0.0 else Sum(xs[..|xs| - 1]) + xs[|xs| - 1]
  }

  /** `np.mean` of a non-empty sequence. */
  function Mean(xs: seq<real>): real
    requires |xs| > 0
  {
    Sum(xs) / (|xs| as real)
  }

  /** `np.std` (population, ddof = 0), with the square root supplied. */
  function Std(xs: seq<real>, sqrt: real -> real): real
    requires |xs| > 0
  {
    var m := Mean(xs);
    sqrt(Mean(seq(|xs|, i requires 0 <= i < |xs| => (xs[i] - m) * (xs[i] - m))))
  }

  lemma {:induction false} SumConstant(xs: seq<real>, x: real)
    requires forall i :: 0 <= i < |xs| ==> xs[i] == x
    ensures Sum(xs) == (|xs| as real) * x
  {
    if xs != [] {
      SumConstant(xs[..|xs| - 1], x);
    }
  }

  /** The mean of a constant sequence is that constant. */
  lemma MeanConstant(xs: seq<real>, x: real)
    requires |xs| > 0 && forall i :: 0 <= i < |xs| ==> xs[i] == x
    ensures Mean(xs) == x
  {
    SumConstant(xs, x);
  }

  /** The standard deviation of a constant sequence is the root of zero. */
  lemma StdConstant(xs: seq<real>, x: real, sqrt: real -> real)
    requires |xs| > 0 && forall i :: 0 <= i < |xs| ==> xs[i] == x
    ensures Std(xs, sqrt) == sqrt(0.0)
  {
    MeanConstant(xs, x);
    var sq := seq(|xs|, i requires 0 <= i < |xs| => (xs[i] - x) * (xs[i] - x));
    MeanConstant(sq, 0.0);
  }

  /** `v.mean(axis=2)`: the element-wise mean over the last axis. */
  function MeanLast(v: Volume): (m: Matrix)
    requires v.Valid() && v.nz > 0
    ensures m.Valid() && m.rows == v.nx && m.cols == v.ny
    ensures forall r, c :: 0 <= r < v.nx && 0 <= c < v.ny ==> m.at[r][c] == Mean(v.at[r][c])
  {
    Matrix(v.nx, v.ny,
      seq(v.nx, r requires 0 <= r < v.nx =>
        seq(v.ny, c requires 0 <= c < v.ny => Mean(v.at[r][c]))))
  }

  /** `v.std(axis=2)`: the element-wise standard deviation over the last axis. */
  function StdLast(v: Volume, sqrt: real -> real): (m: Matrix)
    requires v.Valid() && v.nz > 0
    ensures m.Valid() && m.rows == v.nx && m.cols == v.ny
    ensures forall r, c :: 0 <= r < v.nx && 0 <= c < v.ny ==> m.at[r][c] == Std(v.at[r][c], sqrt)
  {
    Matrix(v.nx, v.ny,
      seq(v.nx, r requires 0 <= r < v.nx =>
        seq(v.ny, c requires 0 <= c < v.ny => Std(v.at[r][c], sqrt))))
  }
}
