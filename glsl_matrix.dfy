/** The GLSL matrix values (mat3, mat4): a fixed-size buffer of
    columns * rows floats in column-major order, filled either verbatim from
    a raw array or from the 4x4 matrix of a 2D transform. */
module GlslMatrix {

  /** The matrix of a transform: 16 floats, a 4x4 matrix in column-major order. */
  type TransformMatrix = m: seq<real> | |m| == 16 witness seq(16, i => 0.0)

  /** Column-major access: the element in row `row` of column `column` of a
      matrix with `rows` rows. */
  function At(m: seq<real>, rows: nat, column: nat, row: nat): real
    requires row < rows && column * rows + row < |m|
  {
    m[column * rows + row]
  }

  /** Where coordinate k of a 2D homogeneous (3x3) matrix sits in the 4x4
      matrix of a transform: x and y in place, the homogeneous coordinate in
      the last slot, skipping z. */
  function Lift(k: nat): (j: nat)
    requires k < 3
    ensures j < 4 && j != 2
  {
    if k == 2 then 3 else k
  }

  /** The 3x3 block a mat3 takes from a transform's 4x4 matrix, laid out
      column-major: the entry at (Lift(column), Lift(row)) for every
      column and row of the 3x3. */
  function Reduce2D(m: TransformMatrix): (r: seq<real>)
    ensures |r| == 9
    ensures forall column, row :: 0 <= column < 3 && 0 <= row < 3 ==>
              At(r, 3, column, row) == At(m, 4, Lift(column), Lift(row))
  {
    [m[0], m[1], m[3], m[4], m[5], m[7], m[12], m[13], m[15]]
  }

  /** The source indices whose elements a mat3 takes. */
  predicate Used2D(k: int)
  {
    k == 0 || k == 1 || k == 3 || k == 4 || k == 5 || k == 7 || k == 12 || k == 13 || k == 15
  }

  /** A 4x4 matrix that leaves the z axis alone, as the matrix of a 2D
      transform does: z row and z column are those of the identity. */
  predicate IsAffine2D(m: TransformMatrix)
  {
    m[2] == 0.0 && m[6] == 0.0 && m[8] == 0.0 && m[9] == 0.0 &&
    m[10] == 1.0 && m[11] == 0.0 && m[14] == 0.0
  }

  /** Embeds a column-major 3x3 matrix into the 4x4 matrix of a 2D
      transform: the reference inverse of Reduce2D. */
  function Expand2D(a: seq<real>): (m: TransformMatrix)
    requires |a| == 9
    ensures IsAffine2D(m)
    ensures forall column, row :: 0 <= column < 3 && 0 <= row < 3 ==>
              At(m, 4, Lift(column), Lift(row)) == At(a, 3, column, row)
  {
    [a[0], a[1], 0.0, a[2],
     a[3], a[4], 0.0, a[5],
     0.0,  0.0,  1.0, 0.0,
     a[6], a[7], 0.0, a[8]]
  }

  /** A mat3 reads exactly the source indices 0, 1, 3, 4, 5, 7, 12, 13, 15, in that order. */
  lemma {:induction false} Reduce2DIndices(m: TransformMatrix, k: nat)
    requires k < 9
    ensures Used2D([0, 1, 3, 4, 5, 7, 12, 13, 15][k])
    ensures Reduce2D(m)[k] == m[[0, 1, 3, 4, 5, 7, 12, 13, 15][k]]
  {
  }

  /** Changing a source element that a mat3 does not use leaves the mat3 unchanged. */
  lemma {:induction false} Reduce2DIgnoresUnused(m: TransformMatrix, k: nat, v: real)
    requires k < 16 && !Used2D(k)
    ensures Reduce2D(m[k := v]) == Reduce2D(m)
  {
  }

  /** Changing a source element that a mat3 does use, to any other value, changes the mat3. */
  lemma {:induction false} Reduce2DReadsUsed(m: TransformMatrix, k: nat, v: real)
    requires k < 16 && Used2D(k) && v != m[k]
    ensures Reduce2D(m[k := v]) != Reduce2D(m)
  {
    var m' := m[k := v];
    var j := if k < 2 then k else if k == 3 then 2 else if k < 6 then k - 1
             else if k == 7 then 5 else if k < 14 then k - 6 else 8;
    assert Reduce2D(m')[j] != Reduce2D(m)[j];
  }

  /** Embedding a 3x3 matrix and reducing it again gives it back. */
  lemma {:induction false} ReduceExpand(a: seq<real>)
    requires |a| == 9
    ensures Reduce2D(Expand2D(a)) == a
  {
    var r := Reduce2D(Expand2D(a));
    assert forall k :: 0 <= k < 9 ==> r[k] == a[k];
  }

  /** Reduction loses nothing exactly for the matrices of 2D transforms:
      expanding the mat3 again restores the 4x4 matrix if and only if the
      4x4 matrix leaves the z axis alone. */
  lemma {:induction false} ExpandReduce(m: TransformMatrix)
    ensures Expand2D(Reduce2D(m)) == m <==> IsAffine2D(m)
  {
    var e := Expand2D(Reduce2D(m));
    if IsAffine2D(m) {
      assert forall k :: 0 <= k < 16 ==> e[k] == m[k];
    }
  }

  /** The component of the product of an n x n column-major matrix with the
      vector p, in row `row`, summed over the first k columns. */
  function RowSum(m: seq<real>, n: nat, row: nat, p: seq<real>, k: nat): real
    requires |m| == n * n && |p| == n && row < n && k <= n
    decreases k
  {
    if k == 0 then 0.0
    else
      IndexBound(n, k - 1, row);
      RowSum(m, n, row, p, k - 1) + At(m, n, k - 1, row) * p[k - 1]
  }

  /** Column-major indexing stays inside an n x n matrix. */
  lemma IndexBound(n: nat, column: nat, row: nat)
    requires column < n && row < n
    ensures column * n + row < n * n
  {
    assert column * n <= (n - 1) * n;
  }

  /** The product of an n x n column-major matrix with a vector. */
  function Apply(m: seq<real>, n: nat, p: seq<real>): (q: seq<real>)
    requires |m| == n * n && |p| == n
    ensures |q| == n
  {
    seq(n, row requires 0 <= row < n => RowSum(m, n, row, p, n))
  }

  /** The raw array of a translation by (x, y, z), as a mat4 expects it. */
  function Translation4(x: real, y: real, z: real): (m: TransformMatrix)
  {
    [1.0, 0.0, 0.0, 0.0,
     0.0, 1.0, 0.0, 0.0,
     0.0, 0.0, 1.0, 0.0,
     x,   y,   z,   1.0]
  }

  /** The raw array of a translation by (x, y), as a mat3 expects it. */
  function Translation3(x: real, y: real): (a: seq<real>)
  {
    [1.0, 0.0, 0.0,
     0.0, 1.0, 0.0,
     x,   y,   1.0]
  }

  /** Read column-major, the mat4 translation array moves every point by
      (x, y, z): the translation sits at indices 12, 13, 14 and the diagonal
      at 0, 5, 10, 15. */
  lemma {:induction false} Translation4Moves(x: real, y: real, z: real, px: real, py: real, pz: real)
    ensures Apply(Translation4(x, y, z), 4, [px, py, pz, 1.0]) == [px + x, py + y, pz + z, 1.0]
  {
    var m := Translation4(x, y, z);
    var p := [px, py, pz, 1.0];
    var q := Apply(m, 4, p);
    RowSum4(m, p, 0);
    RowSum4(m, p, 1);
    RowSum4(m, p, 2);
    RowSum4(m, p, 3);
    assert q[0] == px + x && q[1] == py + y && q[2] == pz + z && q[3] == 1.0;
  }

  /** A row of a 4x4 column-major product, written out. */
  lemma RowSum4(m: seq<real>, p: seq<real>, row: nat)
    requires |m| == 16 && |p| == 4 && row < 4
    ensures RowSum(m, 4, row, p, 4)
         == m[row] * p[0] + m[4 + row] * p[1] + m[8 + row] * p[2] + m[12 + row] * p[3]
  {
    assert RowSum(m, 4, row, p, 1) == m[row] * p[0];
    assert RowSum(m, 4, row, p, 2) == m[row] * p[0] + m[4 + row] * p[1];
    assert RowSum(m, 4, row, p, 3) == m[row] * p[0] + m[4 + row] * p[1] + m[8 + row] * p[2];
  }

  /** Read column-major, the mat3 translation array moves every 2D point by (x, y). */
  lemma {:induction false} Translation3Moves(x: real, y: real, px: real, py: real)
    ensures Apply(Translation3(x, y), 3, [px, py, 1.0]) == [px + x, py + y, 1.0]
  {
    var a := Translation3(x, y);
    var p := [px, py, 1.0];
    var q := Apply(a, 3, p);
    RowSum3(a, p, 0);
    RowSum3(a, p, 1);
    RowSum3(a, p, 2);
    assert q[0] == px + x && q[1] == py + y && q[2] == 1.0;
  }

  /** A row of a 3x3 column-major product, written out. */
  lemma RowSum3(m: seq<real>, p: seq<real>, row: nat)
    requires |m| == 9 && |p| == 3 && row < 3
    ensures RowSum(m, 3, row, p, 3) == m[row] * p[0] + m[3 + row] * p[1] + m[6 + row] * p[2]
  {
    assert RowSum(m, 3, row, p, 1) == m[row] * p[0];
    assert RowSum(m, 3, row, p, 2) == m[row] * p[0] + m[3 + row] * p[1];
  }

  /** A 2D translation transform (the identity with x at index 12 and y at
      index 13) becomes the mat3 translation array: 1 on the diagonal, x at 6, y at 7. */
  lemma {:induction false} Reduce2DTranslation(x: real, y: real)
    ensures Reduce2D(Translation4(x, y, 0.0)) == Translation3(x, y)
  {
  }

  /** A mat3 or mat4 uniform value. */
  class Matrix {
    const columns: nat
    const rows: nat
    /** The matrix data, column-major: row r of column c at c * rows + r. */
    const elements: array<real>

    /** The buffer holds exactly columns * rows elements. */
    ghost predicate Valid()
      reads this
    {
      elements.Length == columns * rows
    }

    /** Construction from raw data: the first columns * rows elements of
        `pointer` are copied verbatim. */
    constructor FromPointer(columns: nat, rows: nat, pointer: seq<real>)
      requires columns * rows <= |pointer|
      ensures this.columns == columns && this.rows == rows
      ensures Valid() && fresh(elements)
      ensures elements[..] == pointer[..columns * rows]
    {
      this.columns := columns;
      this.rows := rows;
      elements := new real[columns * rows];
      new;
      CopyMatrix(pointer, columns * rows, elements);
    }

    /** Construction from a transform, for 3x3 and 4x4 matrices only: a mat3
        takes the 2D block of the transform's matrix, a mat4 all of it. */
    constructor FromTransform(columns: nat, rows: nat, transform: TransformMatrix)
      requires (columns == 3 && rows == 3) || (columns == 4 && rows == 4)
      ensures this.columns == columns && this.rows == rows
      ensures Valid() && fresh(elements)
      ensures columns == 3 ==> elements[..] == Reduce2D(transform)
      ensures columns == 4 ==> elements[..] == transform
    {
      this.columns := columns;
      this.rows := rows;
      elements := new real[columns * rows];
      new;
      if columns == 3 {
        InitializeMatrix3(this, transform);
      } else {
        InitializeMatrix4(this, transform);
      }
    }
  }

  /** Fills a mat3 from a transform, one element at a time. */
  method InitializeMatrix3(matrix: Matrix, transform: TransformMatrix)
    requires matrix.columns == 3 && matrix.rows == 3 && matrix.Valid()
    modifies matrix.elements
    ensures matrix.elements[..] == Reduce2D(transform)
  {
    var to := matrix.elements;
    to[0] := transform[0];  to[1] := transform[1];  to[2] := transform[3];
    to[3] := transform[4];  to[4] := transform[5];  to[5] := transform[7];
    to[6] := transform[12]; to[7] := transform[13]; to[8] := transform[15];
  }

  /** Fills a mat4 from a transform: all 16 elements verbatim. */
  method InitializeMatrix4(matrix: Matrix, transform: TransformMatrix)
    requires matrix.columns == 4 && matrix.rows == 4 && matrix.Valid()
    modifies matrix.elements
    ensures matrix.elements[..] == transform
  {
    CopyMatrix(transform, 4 * 4, matrix.elements);
  }

  /** Copies the first `count` elements of `source` to the start of `dest`;
      the rest of `dest` is not written. */
  method CopyMatrix(source: seq<real>, count: nat, dest: array<real>)
    requires count <= |source| && count <= dest.Length
    modifies dest
    ensures dest[..count] == source[..count]
    ensures dest[count..] == old(dest[count..])
  {
    var i := 0;
    while i < count
      invariant 0 <= i <= count
      invariant forall k :: 0 <= k < i ==> dest[k] == source[k]
      invariant forall k :: i <= k < dest.Length ==> dest[k] == old(dest[k])
    {
      dest[i] := source[i];
      i := i + 1;
    }
  }
}
