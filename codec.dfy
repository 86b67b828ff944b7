/**
 * The sensor bundle sent with every capture: the depth map copied out of its
 * pixel buffer into rows, the two lens-distortion lookup tables reinterpreted
 * from bytes as 32-bit floats, and the JSON document that carries them with
 * the camera calibration and the device attitude.
 */
module Codec {
  import opened Wrappers
  import opened Json

  newtype byte = x: int | 0 <= x < 256

  /** A 32-bit float as its four bytes in memory order; nothing is computed on its value. */
  datatype Float32 = Float32(b0: byte, b1: byte, b2: byte, b3: byte)

  // ---------------------------------------------------------------------------
  // Depth map.

  /** Multiplying by a natural number keeps order. */
  lemma {:induction false} MulMonotonic(k: nat, a: nat, b: nat)
    requires a <= b
    ensures k * a <= k * b
    decreases k
  {
    if k > 0 {
      MulMonotonic(k - 1, a, b);
      assert k * a == (k - 1) * a + a;
      assert k * b == (k - 1) * b + b;
    }
  }

  lemma RowMajorInRange(width: nat, height: nat, r: nat, c: nat)
    requires r < height && c < width
    ensures width * r + c < width * height
  {
    MulMonotonic(width, r + 1, height);
    assert width * (r + 1) == width * r + width;
  }

  /** The depth map as rows of `width` entries each. */
  function DepthGrid<T>(buffer: seq<T>, width: nat, height: nat): (grid: seq<seq<T>>)
    requires width * height <= |buffer|
    ensures |grid| == height
    ensures forall r :: 0 <= r < height ==> |grid[r]| == width
  {
    seq(height, r requires 0 <= r < height =>
      seq(width, c requires 0 <= c < width =>
        RowMajorInRange(width, height, r, c); buffer[width * r + c]))
  }

  /** Entry (r, c) of the grid is buffer element `width * r + c`, copied as it is. */
  lemma DepthGridEntry<T>(buffer: seq<T>, width: nat, height: nat, r: nat, c: nat)
    requires width * height <= |buffer| && r < height && c < width
    ensures width * r + c < |buffer|
    ensures DepthGrid(buffer, width, height)[r][c] == buffer[width * r + c]
  {
    RowMajorInRange(width, height, r, c);
  }

  /** The rows laid end to end. */
  function Flatten<T>(grid: seq<seq<T>>): seq<T> {
    if |grid| == 0 then [] else Flatten(grid[..|grid| - 1]) + grid[|grid| - 1]
  }

  /**
   * The grid holds the first `width * height` buffer elements, each exactly once
   * and in buffer order: row-major indexing is a bijection onto that prefix.
   */
  lemma {:induction false} DepthGridFlattens<T>(buffer: seq<T>, width: nat, height: nat)
    requires width * height <= |buffer|
    ensures Flatten(DepthGrid(buffer, width, height)) == buffer[..width * height]
    decreases height
  {
    if height > 0 {
      var h := height - 1;
      assert width * height == width * h + width;
      var grid := DepthGrid(buffer, width, height);
      assert grid[..h] == DepthGrid(buffer, width, h);
      DepthGridFlattens(buffer, width, h);
      assert grid[h] == buffer[width * h..width * height];
      assert buffer[..width * height] == buffer[..width * h] + buffer[width * h..width * height];
    }
  }

  /** A row-major index determines its row and column. */
  lemma RowMajorUnique(width: nat, r: nat, c: nat, r': nat, c': nat)
    requires c < width && c' < width && width * r + c == width * r' + c'
    ensures r == r' && c == c'
  {
    if r < r' {
      MulMonotonic(width, r + 1, r');
      assert false;
    } else if r' < r {
      MulMonotonic(width, r' + 1, r);
      assert false;
    }
  }

  /** Every buffer index below `width * height` is the row-major index of exactly one entry. */
  lemma RowMajorBijection(width: nat, height: nat, i: nat, r: nat, c: nat)
    requires i < width * height
    ensures 0 < width && i / width < height && i % width < width && width * (i / width) + i % width == i
    ensures c < width && width * r + c == i ==> r == i / width && c == i % width
  {
    if width == 0 {
      assert false;
    }
    var q, m := i / width, i % width;
    assert width * q + m == i && 0 <= m < width;
    if q >= height {
      MulMonotonic(width, height, q);
      assert false;
    }
    if c < width && width * r + c == i {
      RowMajorUnique(width, r, c, q, m);
    }
  }

  /** `convertDepthData`: a zero-filled `height` by `width` grid filled row by row from the buffer. */
  method ConvertDepthData<T>(buffer: seq<T>, width: nat, height: nat, zero: T) returns (grid: seq<seq<T>>)
    requires width * height <= |buffer|
    ensures grid == DepthGrid(buffer, width, height)
  {
    grid := seq(height, _ => seq(width, _ => zero));
    ghost var expected := DepthGrid(buffer, width, height);
    var row := 0;
    while row < height
      invariant 0 <= row <= height && |grid| == height
      invariant forall r :: 0 <= r < row ==> grid[r] == expected[r]
      invariant forall r :: row <= r < height ==> grid[r] == seq(width, _ => zero)
    {
      var col := 0;
      while col < width
        invariant 0 <= col <= width && |grid| == height && |grid[row]| == width
        invariant forall r :: 0 <= r < row ==> grid[r] == expected[r]
        invariant forall r :: row < r < height ==> grid[r] == seq(width, _ => zero)
        invariant forall c :: 0 <= c < col ==> grid[row][c] == expected[row][c]
        invariant forall c :: col <= c < width ==> grid[row][c] == zero
      {
        RowMajorInRange(width, height, row, col);
        grid := grid[row := grid[row][col := buffer[width * row + col]]];
        col := col + 1;
      }
      assert grid[row] == expected[row];
      row := row + 1;
    }
  }

  // ---------------------------------------------------------------------------
  // Lens-distortion lookup tables.

  lemma WordInRange(count: nat, i: nat)
    requires i < count / 4
    ensures 4 * i + 3 < count
  {
  }

  /** `convertLensDistortionLookupTable`: the bytes read as whole floats, trailing bytes dropped. */
  function LookupTable(bytes: seq<byte>): (table: seq<Float32>)
    ensures |table| == |bytes| / 4
    ensures forall i :: 0 <= i < |table| ==>
      4 * i + 3 < |bytes| &&
      table[i] == Float32(bytes[4 * i], bytes[4 * i + 1], bytes[4 * i + 2], bytes[4 * i + 3])
  {
    seq(|bytes| / 4, i requires 0 <= i < |bytes| / 4 =>
      WordInRange(|bytes|, i);
      Float32(bytes[4 * i], bytes[4 * i + 1], bytes[4 * i + 2], bytes[4 * i + 3]))
  }

  /** Byte k (0 to 3) of a float, in memory order. */
  function ByteOf(f: Float32, k: nat): byte
    requires k < 4
  {
    if k == 0 then f.b0 else if k == 1 then f.b1 else if k == 2 then f.b2 else f.b3
  }

  /** The bytes of a table of floats, in memory order. */
  function TableBytes(table: seq<Float32>): (bytes: seq<byte>)
    ensures |bytes| == 4 * |table|
    ensures forall k :: 0 <= k < |bytes| ==> k / 4 < |table| && bytes[k] == ByteOf(table[k / 4], k % 4)
  {
    seq(4 * |table|, k requires 0 <= k < 4 * |table| => ByteOf(table[k / 4], k % 4))
  }

  /** Reading back the bytes of a table gives the table. */
  lemma LookupTableOfTableBytes(table: seq<Float32>)
    ensures LookupTable(TableBytes(table)) == table
  {
    var bytes := TableBytes(table);
    var back := LookupTable(bytes);
    assert |bytes| / 4 == |table|;
    forall i | 0 <= i < |table|
      ensures back[i] == table[i]
    {
      assert (4 * i) / 4 == i && (4 * i + 1) / 4 == i && (4 * i + 2) / 4 == i && (4 * i + 3) / 4 == i;
      assert (4 * i) % 4 == 0 && (4 * i + 1) % 4 == 1 && (4 * i + 2) % 4 == 2 && (4 * i + 3) % 4 == 3;
    }
  }

  /** Writing out a converted table gives back the input without its trailing partial float. */
  lemma TableBytesOfLookupTable(bytes: seq<byte>)
    ensures TableBytes(LookupTable(bytes)) == bytes[..4 * (|bytes| / 4)]
  {
    var table := LookupTable(bytes);
    var out := TableBytes(table);
    forall k | 0 <= k < |out|
      ensures out[k] == bytes[k]
    {
      var i := k / 4;
      assert k == 4 * i + k % 4;
    }
  }

  // ---------------------------------------------------------------------------
  // The bundle document.

  /** `AVCameraCalibrationData`, with the intrinsic matrix as simd columns. */
  datatype Calibration<N> = Calibration(
    intrinsicColumns: seq<seq<N>>,
    pixelSize: N,
    referenceWidth: N,
    referenceHeight: N,
    distortionCenterX: N,
    distortionCenterY: N,
    lensDistortionLookupTable: Option<seq<byte>>,
    inverseLensDistortionLookupTable: Option<seq<byte>>)

  /** A 3 by 3 matrix: three columns of three entries. */
  predicate IsMatrix3<N>(columns: seq<seq<N>>) {
    |columns| == 3 && forall x :: 0 <= x < 3 ==> |columns[x]| == 3
  }

  /** `CMAttitude`, the angles in radians. */
  datatype Attitude<N> = Attitude(pitch: N, roll: N, yaw: N)

  /** A locked depth pixel buffer: its dimensions and its elements from the base address on. */
  datatype DepthMap<N> = DepthMap(width: nat, height: nat, buffer: seq<N>)

  predicate IsDepthMap<N>(d: DepthMap<N>) {
    d.width * d.height <= |d.buffer|
  }

  function Numbers<N>(xs: seq<N>): (j: Json<N>)
    ensures j.JArr? && |j.items| == |xs| && forall i :: 0 <= i < |xs| ==> j.items[i] == JNum(xs[i])
  {
    JArr(seq(|xs|, i requires 0 <= i < |xs| => JNum(xs[i])))
  }

  function FloatsJson<N>(table: seq<Float32>, ofFloat32: Float32 -> N): (j: Json<N>)
    ensures j.JArr? && |j.items| == |table|
    ensures forall i :: 0 <= i < |table| ==> j.items[i] == JNum(ofFloat32(table[i]))
  {
    JArr(seq(|table|, i requires 0 <= i < |table| => JNum(ofFloat32(table[i]))))
  }

  function GridJson<N>(grid: seq<seq<N>>): (j: Json<N>)
    ensures j.JArr? && |j.items| == |grid|
    ensures forall r :: 0 <= r < |grid| ==> j.items[r] == Numbers(grid[r])
  {
    JArr(seq(|grid|, r requires 0 <= r < |grid| => Numbers(grid[r])))
  }

  /** `calibration_data`, for a calibration that has both lookup tables. */
  function CalibrationJson<N>(calibration: Calibration<N>, ofFloat32: Float32 -> N): (j: Json<N>)
    requires calibration.lensDistortionLookupTable.Some? && calibration.inverseLensDistortionLookupTable.Some?
    ensures j.JObj? && j.fields.Keys ==
      {"intrinsic_matrix", "pixel_size", "intrinsic_matrix_reference_dimensions", "lens_distortion_center",
       "lens_distortion_lookup_table", "inverse_lens_distortion_lookup_table"}
  {
    JObj(map[
      "intrinsic_matrix" := GridJson(calibration.intrinsicColumns),
      "pixel_size" := JNum(calibration.pixelSize),
      "intrinsic_matrix_reference_dimensions" := Numbers([calibration.referenceWidth, calibration.referenceHeight]),
      "lens_distortion_center" := Numbers([calibration.distortionCenterX, calibration.distortionCenterY]),
      "lens_distortion_lookup_table" := FloatsJson(LookupTable(calibration.lensDistortionLookupTable.value), ofFloat32),
      "inverse_lens_distortion_lookup_table" :=
        FloatsJson(LookupTable(calibration.inverseLensDistortionLookupTable.value), ofFloat32)])
  }

  /** `device_attitude`. */
  function AttitudeJson<N>(attitude: Attitude<N>): (j: Json<N>)
    ensures j.JObj? && j.fields.Keys == {"pitch", "roll", "yaw"}
  {
    JObj(map["pitch" := JNum(attitude.pitch), "roll" := JNum(attitude.roll), "yaw" := JNum(attitude.yaw)])
  }

  /** The document around an already converted depth grid; no document without both lookup tables. */
  function DocumentOf<N>(grid: seq<seq<N>>, calibration: Calibration<N>, attitude: Attitude<N>,
                         ofFloat32: Float32 -> N): (doc: Option<Json<N>>)
    ensures doc.Some? <==>
      calibration.lensDistortionLookupTable.Some? && calibration.inverseLensDistortionLookupTable.Some?
    ensures doc.Some? ==> (doc.value.JObj? &&
      doc.value.fields.Keys == {"calibration_data", "device_attitude", "depth_data"} &&
      doc.value.fields["depth_data"] == GridJson(grid))
  {
    if calibration.lensDistortionLookupTable.Some? && calibration.inverseLensDistortionLookupTable.Some? then
      Some(JObj(map[
        "calibration_data" := CalibrationJson(calibration, ofFloat32),
        "device_attitude" := AttitudeJson(attitude),
        "depth_data" := GridJson(grid)]))
    else None
  }

  /**
   * `wrapEstimateImageData`, before serialisation. Both lookup tables are force
   * unwrapped, so a calibration without either gives no document (a trap).
   * Floats from the tables become numbers through `ofFloat32`.
   */
  function EstimateDocument<N>(depth: DepthMap<N>, calibration: Calibration<N>, attitude: Attitude<N>,
                               ofFloat32: Float32 -> N): (doc: Option<Json<N>>)
    requires IsDepthMap(depth)
    ensures doc.Some? <==>
      calibration.lensDistortionLookupTable.Some? && calibration.inverseLensDistortionLookupTable.Some?
    ensures doc.Some? ==> (doc.value.JObj? &&
      doc.value.fields.Keys == {"calibration_data", "device_attitude", "depth_data"})
  {
    DocumentOf(DepthGrid(depth.buffer, depth.width, depth.height), calibration, attitude, ofFloat32)
  }

  /** `document[k1][k2]`, as the server reads a nested member. */
  function Member<N>(doc: Json<N>, k1: string, k2: string): Json<N> {
    Get(Get(doc, k1), k2)
  }

  /** `document[k1][k2][i][j]`. */
  function Entry<N>(doc: Json<N>, k1: string, k2: string, i: nat, j: nat): Json<N> {
    var outer := ArrayValue(Member(doc, k1, k2));
    if i < |outer| && j < |ArrayValue(outer[i])| then ArrayValue(outer[i])[j] else JNull
  }

  /** The attitude and the scalar calibration members, each under its own key. */
  lemma ScalarMembers<N>(depth: DepthMap<N>, calibration: Calibration<N>, attitude: Attitude<N>,
                         ofFloat32: Float32 -> N)
    requires IsDepthMap(depth)
    requires calibration.lensDistortionLookupTable.Some? && calibration.inverseLensDistortionLookupTable.Some?
    ensures var doc := EstimateDocument(depth, calibration, attitude, ofFloat32).value;
      Member(doc, "device_attitude", "pitch") == JNum(attitude.pitch) &&
      Member(doc, "device_attitude", "roll") == JNum(attitude.roll) &&
      Member(doc, "device_attitude", "yaw") == JNum(attitude.yaw) &&
      Member(doc, "calibration_data", "pixel_size") == JNum(calibration.pixelSize)
    ensures var doc := EstimateDocument(depth, calibration, attitude, ofFloat32).value;
      ArrayValue(Member(doc, "calibration_data", "intrinsic_matrix_reference_dimensions")) ==
        [JNum(calibration.referenceWidth), JNum(calibration.referenceHeight)] &&
      ArrayValue(Member(doc, "calibration_data", "lens_distortion_center")) ==
        [JNum(calibration.distortionCenterX), JNum(calibration.distortionCenterY)]
  {
    var doc := EstimateDocument(depth, calibration, attitude, ofFloat32).value;
    var cal := CalibrationJson(calibration, ofFloat32);
    assert Get(doc, "calibration_data") == cal;
    assert Get(doc, "device_attitude") == AttitudeJson(attitude);
    assert Numbers([calibration.referenceWidth, calibration.referenceHeight]).items ==
      [JNum(calibration.referenceWidth), JNum(calibration.referenceHeight)];
    assert Numbers([calibration.distortionCenterX, calibration.distortionCenterY]).items ==
      [JNum(calibration.distortionCenterX), JNum(calibration.distortionCenterY)];
  }

  /** `intrinsic_matrix[x][y]` is entry y of simd column x. */
  lemma IntrinsicEntries<N>(depth: DepthMap<N>, calibration: Calibration<N>, attitude: Attitude<N>,
                            ofFloat32: Float32 -> N, x: nat, y: nat)
    requires IsDepthMap(depth) && IsMatrix3(calibration.intrinsicColumns) && x < 3 && y < 3
    requires calibration.lensDistortionLookupTable.Some? && calibration.inverseLensDistortionLookupTable.Some?
    ensures Entry(EstimateDocument(depth, calibration, attitude, ofFloat32).value,
                  "calibration_data", "intrinsic_matrix", x, y) == JNum(calibration.intrinsicColumns[x][y])
  {
    var doc := EstimateDocument(depth, calibration, attitude, ofFloat32).value;
    assert Get(doc, "calibration_data") == CalibrationJson(calibration, ofFloat32);
    assert Member(doc, "calibration_data", "intrinsic_matrix") == GridJson(calibration.intrinsicColumns);
  }

  /** Both lookup tables are emitted, element by element. */
  lemma TableMembers<N>(depth: DepthMap<N>, calibration: Calibration<N>, attitude: Attitude<N>,
                        ofFloat32: Float32 -> N)
    requires IsDepthMap(depth)
    requires calibration.lensDistortionLookupTable.Some? && calibration.inverseLensDistortionLookupTable.Some?
    ensures var doc := EstimateDocument(depth, calibration, attitude, ofFloat32).value;
      var table := LookupTable(calibration.lensDistortionLookupTable.value);
      var items := ArrayValue(Member(doc, "calibration_data", "lens_distortion_lookup_table"));
      |items| == |table| && forall i :: 0 <= i < |table| ==> items[i] == JNum(ofFloat32(table[i]))
    ensures var doc := EstimateDocument(depth, calibration, attitude, ofFloat32).value;
      var table := LookupTable(calibration.inverseLensDistortionLookupTable.value);
      var items := ArrayValue(Member(doc, "calibration_data", "inverse_lens_distortion_lookup_table"));
      |items| == |table| && forall i :: 0 <= i < |table| ==> items[i] == JNum(ofFloat32(table[i]))
  {
    var doc := EstimateDocument(depth, calibration, attitude, ofFloat32).value;
    assert Get(doc, "calibration_data") == CalibrationJson(calibration, ofFloat32);
  }

  /** `depth_data[r][c]` is buffer element `width * r + c`, for every row and column of the map. */
  lemma DepthMembers<N>(depth: DepthMap<N>, calibration: Calibration<N>, attitude: Attitude<N>,
                        ofFloat32: Float32 -> N, r: nat, c: nat)
    requires IsDepthMap(depth) && r < depth.height && c < depth.width
    requires calibration.lensDistortionLookupTable.Some? && calibration.inverseLensDistortionLookupTable.Some?
    ensures var rows := ArrayValue(Get(EstimateDocument(depth, calibration, attitude, ofFloat32).value, "depth_data"));
      |rows| == depth.height && c < |ArrayValue(rows[r])| && depth.width * r + c < |depth.buffer| &&
      ArrayValue(rows[r])[c] == JNum(depth.buffer[depth.width * r + c])
  {
    DepthGridEntry(depth.buffer, depth.width, depth.height, r, c);
  }

  /** The intrinsic matrix of a pinhole camera, with focal lengths fx, fy and optical centre (ox, oy), as simd columns. */
  function PinholeColumns<N>(fx: N, fy: N, ox: N, oy: N, zero: N, one: N): (columns: seq<seq<N>>)
    ensures IsMatrix3(columns)
    ensures columns[0][0] == fx && columns[1][1] == fy && columns[2][0] == ox && columns[2][1] == oy
  {
    [[fx, zero, zero], [zero, fy, zero], [ox, oy, one]]
  }

  /**
   * The document stores column x of the intrinsic matrix at `[x]`, so a reader
   * indexing `[2][0]` and `[2][1]` gets the optical centre and `[0][0]` the focal length.
   */
  lemma OpticalCentreLocation<N>(depth: DepthMap<N>, calibration: Calibration<N>, attitude: Attitude<N>,
                                 ofFloat32: Float32 -> N, fx: N, fy: N, ox: N, oy: N, zero: N, one: N)
    requires IsDepthMap(depth)
    requires calibration.intrinsicColumns == PinholeColumns(fx, fy, ox, oy, zero, one)
    requires calibration.lensDistortionLookupTable.Some? && calibration.inverseLensDistortionLookupTable.Some?
    ensures var doc := EstimateDocument(depth, calibration, attitude, ofFloat32).value;
      Entry(doc, "calibration_data", "intrinsic_matrix", 0, 0) == JNum(fx) &&
      Entry(doc, "calibration_data", "intrinsic_matrix", 2, 0) == JNum(ox) &&
      Entry(doc, "calibration_data", "intrinsic_matrix", 2, 1) == JNum(oy)
  {
    IntrinsicEntries(depth, calibration, attitude, ofFloat32, 0, 0);
    IntrinsicEntries(depth, calibration, attitude, ofFloat32, 2, 0);
    IntrinsicEntries(depth, calibration, attitude, ofFloat32, 2, 1);
  }

  /**
   * The bundle of a capture: the depth map is converted by `ConvertDepthData`
   * and the rest of the document assembled around it.
   */
  method WrapEstimateImageData<N>(depth: DepthMap<N>, calibration: Calibration<N>, attitude: Attitude<N>,
                                  ofFloat32: Float32 -> N, zero: N) returns (doc: Option<Json<N>>)
    requires IsDepthMap(depth)
    ensures doc == EstimateDocument(depth, calibration, attitude, ofFloat32)
  {
    var grid := ConvertDepthData(depth.buffer, depth.width, depth.height, zero);
    doc := DocumentOf(grid, calibration, attitude, ofFloat32);
  }
}
