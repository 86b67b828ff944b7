/**
 * `center_crop` of the server's volume estimation: the largest centred
 * square of an image, over its first two axes. An array is its shape and,
 * for the first two axes, a grid of cells; a cell stands for whatever the
 * later axes hold.
 */
module CenterCrop {
  import opened Wrappers

  /** What the function can raise: the dimension assertion, or a wrong call into numpy. */
  datatype CropError = AssertionFailed | TypeError

  datatype NdArray<T> = NdArray(shape: seq<nat>, cells: seq<seq<T>>)

  /** The grid has `shape[0]` rows of `shape[1]` cells. */
  predicate WellFormed<T>(a: NdArray<T>) {
    |a.shape| >= 2 ==>
      |a.cells| == a.shape[0] && forall i :: 0 <= i < |a.cells| ==> |a.cells[i]| == a.shape[1]
  }

  function Min(x: nat, y: nat): nat {
    if x <= y then x else y
  }

  function AbsDiff(x: nat, y: nat): (d: nat)
    ensures x + d == y || y + d == x
  {
    if x <= y then y - x else x - y
  }

  /** The length of Python's `s[lo:hi]` on a sequence of length `n`, for non-negative bounds. */
  function SliceLength(n: nat, lo: nat, hi: nat): nat {
    if lo >= n || hi <= lo then 0 else (if hi <= n then hi else n) - lo
  }

  /** Python's `s[lo:hi]` for non-negative bounds: the elements at `lo <= i < hi` that exist. */
  function PySlice<T>(s: seq<T>, lo: nat, hi: nat): (r: seq<T>)
    ensures |r| == SliceLength(|s|, lo, hi)
    ensures forall i :: 0 <= i < |r| ==> r[i] == s[lo + i]
  {
    if lo >= |s| || hi <= lo then []
    else s[lo..if hi <= |s| then hi else |s|]
  }

  /**
   * Lines 18-21 for a given offset: rows `[offset, w + offset)` of a tall
   * array, columns `[offset, h + offset)` of a wide one, later axes kept.
   */
  function CropAt<T>(a: NdArray<T>, offset: nat): NdArray<T>
    requires WellFormed(a) && |a.shape| >= 2
  {
    var h, w := a.shape[0], a.shape[1];
    if h > w then
      NdArray([SliceLength(h, offset, w + offset), w] + a.shape[2..], PySlice(a.cells, offset, w + offset))
    else
      NdArray([h, SliceLength(w, offset, h + offset)] + a.shape[2..],
        seq(|a.cells|, i requires 0 <= i < |a.cells| => PySlice(a.cells[i], offset, h + offset)))
  }

  /** A tall array: any offset up to `h − w` keeps `w` whole rows from the offset on. */
  lemma CropTall<T>(a: NdArray<T>, offset: nat)
    requires WellFormed(a) && |a.shape| >= 2 && a.shape[0] > a.shape[1]
    requires offset <= a.shape[0] - a.shape[1]
    ensures var r := CropAt(a, offset); var w := a.shape[1];
      WellFormed(r) && r.shape == [w, w] + a.shape[2..] && |r.cells| == w &&
      forall i, j :: 0 <= i < w && 0 <= j < w ==> r.cells[i][j] == a.cells[i + offset][j]
  {
    var r := CropAt(a, offset);
    var w := a.shape[1];
    if w > 0 {
      assert SliceLength(a.shape[0], offset, w + offset) == w;
    }
    forall i | 0 <= i < |r.cells|
      ensures |r.cells[i]| == w
    {
      assert r.cells[i] == a.cells[offset + i];
    }
  }

  /** A wide array: any offset up to `w − h` keeps `h` columns of every row from the offset on. */
  lemma CropWide<T>(a: NdArray<T>, offset: nat)
    requires WellFormed(a) && |a.shape| >= 2 && a.shape[0] < a.shape[1]
    requires offset <= a.shape[1] - a.shape[0]
    ensures var r := CropAt(a, offset); var h := a.shape[0];
      WellFormed(r) && r.shape == [h, h] + a.shape[2..] && |r.cells| == h &&
      forall i, j :: 0 <= i < h && 0 <= j < h ==> r.cells[i][j] == a.cells[i][j + offset]
  {
    var h := a.shape[0];
    if h > 0 {
      assert SliceLength(a.shape[1], offset, h + offset) == h;
    }
  }

  /**
   * Any offset up to the difference of the sides gives an in-bounds, square
   * crop of side `min(h, w)` whose cells are the original's, shifted by the
   * offset along the longer axis; the later axes are kept.
   */
  lemma CropAtSquare<T>(a: NdArray<T>, offset: nat)
    requires WellFormed(a) && |a.shape| >= 2 && a.shape[0] != a.shape[1]
    requires offset <= AbsDiff(a.shape[0], a.shape[1])
    ensures var r := CropAt(a, offset); var m := Min(a.shape[0], a.shape[1]);
      WellFormed(r) && r.shape == [m, m] + a.shape[2..] && |r.cells| == m &&
      (a.shape[0] > a.shape[1] ==> forall i, j :: 0 <= i < m && 0 <= j < m ==> r.cells[i][j] == a.cells[i + offset][j]) &&
      (a.shape[0] < a.shape[1] ==> forall i, j :: 0 <= i < m && 0 <= j < m ==> r.cells[i][j] == a.cells[i][j + offset])
  {
    if a.shape[0] > a.shape[1] {
      CropTall(a, offset);
    } else {
      CropWide(a, offset);
    }
  }

  /** `center_crop` as written: line 16 hands `shape[1]` to `np.absolute` as its output array, which numpy refuses. */
  function CenterCropAsWritten<T>(a: NdArray<T>): (r: Result<NdArray<T>, CropError>)
    requires WellFormed(a)
    ensures |a.shape| < 2 ==> r == Failure(AssertionFailed)
    ensures |a.shape| >= 2 && a.shape[0] == a.shape[1] ==> r == Success(a)
  {
    if |a.shape| < 2 then Failure(AssertionFailed)
    else if a.shape[0] == a.shape[1] then Success(a)
    else Failure(TypeError)
  }

  /** As written, every array that is not already square raises. */
  lemma AsWrittenRejectsNonSquare<T>(a: NdArray<T>)
    requires WellFormed(a) && |a.shape| >= 2 && a.shape[0] != a.shape[1]
    ensures CenterCropAsWritten(a) == Failure(TypeError)
  {
  }

  /** `center_crop` as intended: the offset is half the difference of the sides. */
  function CenterCropFixed<T>(a: NdArray<T>): (r: Result<NdArray<T>, CropError>)
    requires WellFormed(a)
    ensures |a.shape| < 2 <==> r == Failure(AssertionFailed)
    ensures |a.shape| >= 2 && a.shape[0] == a.shape[1] ==> r == Success(a)
    ensures r.Success? ==> WellFormed(r.value) && r.value.shape == [Min(a.shape[0], a.shape[1]), Min(a.shape[0], a.shape[1])] + a.shape[2..]
  {
    if |a.shape| < 2 then Failure(AssertionFailed)
    else if a.shape[0] == a.shape[1] then
      assert a.shape == [a.shape[0], a.shape[1]] + a.shape[2..];
      Success(a)
    else
      var offset := AbsDiff(a.shape[0], a.shape[1]) / 2;
      CropAtSquare(a, offset);
      Success(CropAt(a, offset))
  }

  /** The intended crop is centred: the margins cut from the two ends differ by at most one, the larger at the far end. */
  lemma FixedCropCentred<T>(a: NdArray<T>)
    requires WellFormed(a) && |a.shape| >= 2 && a.shape[0] != a.shape[1]
    ensures var d := AbsDiff(a.shape[0], a.shape[1]); var offset := d / 2;
      var far := d - offset;
      CenterCropFixed(a) == Success(CropAt(a, offset)) && offset <= far <= offset + 1
  {
  }
}
