/** The part of NumPy the validator relies on: n-dimensional arrays given by a
    shape and their row-major contents, `len`, `np.unique`, `np.min`,
    `np.max`, `flatten` and `np.arange`. */
module NumPy {
  import opened Outcomes

  /** An array: its shape and its elements in row-major order. */
  datatype NdArray<T> = NdArray(shape: seq<nat>, data: seq<T>)

  /** Number of elements of an array of the given shape. */
  function Product(dims: seq<nat>): nat
  {
    if dims == [] then 1 else dims[0] * Product(dims[1..])
  }

  /** A well-formed array holds exactly as many elements as its shape says. */
  type Array<T> = a: NdArray<T> | |a.data| == Product(a.shape) witness NdArray([0], [])

  /** `a.ndim`. */
  function Ndim<T>(a: Array<T>): nat
  {
    |a.shape|
  }

  /** `len(a)`: the first dimension; a 0-d array (a NumPy scalar) has no length. */
  function Len<T>(a: Array<T>): (r: Result<nat>)
    ensures r.Err? <==> Ndim(a) == 0
    ensures r.Err? ==> r.kind == TypeError
    ensures r.Ok? ==> r.value == a.shape[0]
    ensures Ndim(a) == 1 ==> r == Ok(|a.data|)
  {
    if |a.shape| == 0 then Err(TypeError)
    else
      assert |a.shape| == 1 ==> a.shape == [a.shape[0]] && Product(a.shape) == a.shape[0] * Product([]);
      Ok(a.shape[0])
  }

  /** The one-dimensional array holding `s`. */
  function Vector<T>(s: seq<T>): (a: Array<T>)
    ensures a.shape == [|s|] && a.data == s
  {
    assert Product([|s|]) == |s| * Product([]);
    NdArray([|s|], s)
  }

  /** The two-dimensional array with `rows` rows of `cols` elements each. */
  function Matrix<T>(rows: nat, cols: nat, data: seq<T>): (a: Array<T>)
    requires |data| == rows * cols
    ensures a.shape == [rows, cols] && a.data == data
  {
    assert [rows, cols][1..] == [cols];
    assert Product([cols]) == cols * Product([]);
    NdArray([rows, cols], data)
  }

  /** Row-major concatenation of the rows of a table (`values.flatten()`). */
  function Flatten(rows: seq<seq<int>>): (r: seq<int>)
    ensures forall x :: x in r <==> exists i | 0 <= i < |rows| :: x in rows[i]
  {
    if rows == [] then []
    else
      var rest := Flatten(rows[1..]);
      assert forall x :: (exists i | 0 <= i < |rows| :: x in rows[i]) <==>
        x in rows[0] || exists i | 0 <= i < |rows| - 1 :: x in rows[1..][i];
      rows[0] + rest
  }

  /** Flattening a table of `w` columns gives `w` elements per row. */
  lemma {:induction false} FlattenLength(rows: seq<seq<int>>, w: nat)
    requires forall i | 0 <= i < |rows| :: |rows[i]| == w
    ensures |Flatten(rows)| == |rows| * w
  {
    if rows != [] {
      FlattenLength(rows[1..], w);
    }
  }

  /** Flattening a one-column table lists that column, row by row. */
  lemma {:induction false} FlattenColumn(rows: seq<seq<int>>)
    requires forall i | 0 <= i < |rows| :: |rows[i]| == 1
    ensures |Flatten(rows)| == |rows|
    ensures forall i | 0 <= i < |rows| :: Flatten(rows)[i] == rows[i][0]
  {
    if rows != [] {
      FlattenColumn(rows[1..]);
      assert rows[0] == [rows[0][0]];
      forall i | 1 <= i < |rows| ensures Flatten(rows)[i] == rows[i][0] {
        assert Flatten(rows)[i] == Flatten(rows[1..])[i - 1];
      }
    }
  }

  /** The set of values occurring in `s`. */
  function Elements(s: seq<int>): set<int>
  {
    set x | x in s
  }

  predicate StrictlyIncreasing(u: seq<int>)
  {
    forall i, j | 0 <= i < j < |u| :: u[i] < u[j]
  }

  /** Inserts `x` into a strictly increasing sequence, keeping it so. */
  function Insert(x: int, u: seq<int>): (r: seq<int>)
    requires StrictlyIncreasing(u)
    ensures StrictlyIncreasing(r)
    ensures forall z :: z in r <==> z == x || z in u
  {
    if u == [] then [x]
    else if x < u[0] then [x] + u
    else if x == u[0] then u
    else
      var rest := Insert(x, u[1..]);
      PrependIncreasing(u[0], rest);
      [u[0]] + rest
  }

  /** A value below every element of an increasing sequence can lead it. */
  lemma PrependIncreasing(a: int, s: seq<int>)
    requires StrictlyIncreasing(s)
    requires forall z | z in s :: a < z
    ensures StrictlyIncreasing([a] + s)
  {
    forall i, j | 0 <= i < j < |s| + 1 ensures ([a] + s)[i] < ([a] + s)[j] {
      assert ([a] + s)[j] == s[j - 1] && s[j - 1] in s;
      if i > 0 {
        assert ([a] + s)[i] == s[i - 1];
      }
    }
  }

  /** `np.unique(s)`: the distinct values of `s` in increasing order. */
  function Unique(s: seq<int>): (u: seq<int>)
    ensures StrictlyIncreasing(u)
    ensures forall z :: z in u <==> z in s
  {
    if s == [] then [] else Insert(s[0], Unique(s[1..]))
  }

  /** A strictly increasing sequence has no repeated element. */
  lemma {:induction false} IncreasingCard(u: seq<int>)
    requires StrictlyIncreasing(u)
    ensures |Elements(u)| == |u|
  {
    if u != [] {
      IncreasingCard(u[1..]);
      assert Elements(u) == {u[0]} + Elements(u[1..]);
      assert u[0] !in Elements(u[1..]);
    }
  }

  /** `len(np.unique(s))` is the number of distinct values of `s`. */
  lemma UniqueCount(s: seq<int>)
    ensures |Unique(s)| == |Elements(s)|
    ensures Elements(Unique(s)) == Elements(s)
  {
    IncreasingCard(Unique(s));
    assert Elements(Unique(s)) == Elements(s);
  }

  /** In a strictly increasing sequence of integers, positions `d` apart
      differ by at least `d`. */
  lemma {:induction false} IncreasingGap(u: seq<int>, i: nat, j: nat)
    requires StrictlyIncreasing(u)
    requires i <= j < |u|
    ensures u[j] - u[i] >= j - i
  {
    if i < j {
      IncreasingGap(u, i, j - 1);
    }
  }

  /** `np.arange(n)`. */
  function Arange(n: nat): (r: seq<int>)
    ensures |r| == n
    ensures forall i | 0 <= i < n :: r[i] == i
  {
    seq(n, i => i)
  }

  /** The least element of a nonempty sequence. */
  function Smallest(s: seq<real>): (m: real)
    requires |s| > 0
    ensures m in s
    ensures forall x | x in s :: m <= x
  {
    if |s| == 1 then s[0]
    else
      var rest := Smallest(s[1..]);
      assert forall x | x in s :: x == s[0] || x in s[1..];
      if s[0] <= rest then s[0] else rest
  }

  /** The greatest element of a nonempty sequence. */
  function Largest(s: seq<real>): (m: real)
    requires |s| > 0
    ensures m in s
    ensures forall x | x in s :: x <= m
  {
    if |s| == 1 then s[0]
    else
      var rest := Largest(s[1..]);
      assert forall x | x in s :: x == s[0] || x in s[1..];
      if s[0] >= rest then s[0] else rest
  }

  /** `np.min`: a reduction with no identity, so an empty array raises ValueError. */
  function Min(s: seq<real>): (r: Result<real>)
    ensures r.Err? <==> |s| == 0
    ensures r.Err? ==> r.kind == ValueError
    ensures r.Ok? ==> r.value in s && forall x | x in s :: r.value <= x
  {
    if |s| == 0 then Err(ValueError) else Ok(Smallest(s))
  }

  /** `np.max`: as `np.min`, an empty array raises ValueError. */
  function Max(s: seq<real>): (r: Result<real>)
    ensures r.Err? <==> |s| == 0
    ensures r.Err? ==> r.kind == ValueError
    ensures r.Ok? ==> r.value in s && forall x | x in s :: x <= r.value
  {
    if |s| == 0 then Err(ValueError) else Ok(Largest(s))
  }
}
