/** Small building blocks shared by the terrain, picking and layout models. */
module Common {

  /** The source's `T | null` / optional fields. */
  datatype Option<+T> = None | Some(value: T)

  /** 2D simplex noise seeded by `alea(seed)`, rebuilt on every call: a function of
      (seed, x, y). */
  type Noise = (real, real, real) -> real

  /** The output range of the noise library. */
  ghost predicate NoiseInRange(noise: Noise)
  {
    forall seed, x, y :: -1.0 <= noise(seed, x, y) <= 1.0
  }

  /** `Math.pow(b, n)` for a natural exponent, unfolded so that `amplitude *= persistance`
      steps from `Pow(b, n)` to `Pow(b, n + 1)`. */
  function Pow(b: real, n: nat): real
  {
    if n == 0 then 1.0 else Pow(b, n - 1) * b
  }

  lemma {:induction false} PowNonNegative(b: real, n: nat)
    requires 0.0 <= b
    ensures 0.0 <= Pow(b, n)
  {
    if n > 0 {
      PowNonNegative(b, n - 1);
    }
  }

  lemma {:induction false} PowUnitInterval(b: real, n: nat)
    requires 0.0 <= b <= 1.0
    ensures 0.0 <= Pow(b, n) <= 1.0
  {
    if n > 0 {
      PowUnitInterval(b, n - 1);
      UnitProduct(Pow(b, n - 1), b);
    }
  }

  /** Raising to a natural power keeps the order of non-negative bases. */
  lemma {:induction false} PowMonotone(a: real, b: real, n: nat)
    requires 0.0 <= a <= b
    ensures Pow(a, n) <= Pow(b, n)
  {
    if n > 0 {
      PowMonotone(a, b, n - 1);
      PowNonNegative(a, n - 1);
      PowNonNegative(b, n - 1);
      ScaleBelow(Pow(a, n - 1), Pow(b, n - 1), a);
      ScaleBelow(a, b, Pow(b, n - 1));
      assert Pow(a, n - 1) * a <= Pow(b, n - 1) * a == a * Pow(b, n - 1) <= b * Pow(b, n - 1);
    }
  }

  lemma ScaleBelow(a: real, b: real, c: real)
    requires a <= b && 0.0 <= c
    ensures a * c <= b * c
  {
    assert (b - a) * c >= 0.0;
  }

  lemma UnitProduct(a: real, b: real)
    requires 0.0 <= a <= 1.0 && 0.0 <= b <= 1.0
    ensures 0.0 <= a * b <= a
  {
  }

  /** The values `f(r, c)` of a `rows` x `cols` grid listed row by row, as nested
      `for row { for col { push } }` loops produce them. */
  function RowMajor<T>(rows: nat, cols: nat, f: (nat, nat) -> T): (s: seq<T>)
    ensures |s| == rows * cols
  {
    if rows == 0 then [] else RowMajor(rows - 1, cols, f) + RowOf(rows - 1, cols, f)
  }

  /** One more row of a row-major listing. */
  lemma RowMajorNext<T>(rows: nat, cols: nat, f: (nat, nat) -> T)
    ensures RowMajor(rows + 1, cols, f) == RowMajor(rows, cols, f) + RowOf(rows, cols, f)
  {
  }

  /** Appending row `row` to a listing of the rows before it lists one more row. */
  lemma AppendRow<T>(start: seq<T>, before: seq<T>, after: seq<T>, row: nat, cols: nat,
                     f: (nat, nat) -> T)
    requires before == start + RowMajor(row, cols, f)
    requires after == before + RowOf(row, cols, f)
    ensures after == start + RowMajor(row + 1, cols, f)
  {
    RowMajorNext(row, cols, f);
  }

  /** Row `r` of a grid: `f(r, 0), ..., f(r, cols - 1)`. */
  function RowOf<T>(r: nat, cols: nat, f: (nat, nat) -> T): (s: seq<T>)
    ensures |s| == cols
    ensures forall c :: 0 <= c < cols ==> s[c] == f(r, c)
  {
    seq(cols, c requires 0 <= c < cols => f(r, c))
  }

  /** Cell (r, c) of the grid sits at position `r * cols + c` of the row-major listing. */
  lemma {:induction false} RowMajorAt<T>(rows: nat, cols: nat, f: (nat, nat) -> T, r: nat, c: nat)
    requires r < rows && c < cols
    ensures r * cols + c < rows * cols
    ensures RowMajor(rows, cols, f)[r * cols + c] == f(r, c)
  {
    MulMonotone(r, rows - 1, cols);
    if r < rows - 1 {
      RowMajorAt(rows - 1, cols, f, r, c);
      assert r * cols + c < (rows - 1) * cols;
    }
  }

  lemma MulMonotone(a: nat, b: nat, k: nat)
    requires a <= b
    ensures a * k <= b * k
  {
  }
}
